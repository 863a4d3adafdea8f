/** The rules of the referee's board (interface.py), as pure functions: the
    10x10 grid whose 8x8 playable area is framed by walls, the direction mask
    of a candidate placement (`checkMobility`), the discs a placement flips
    (`flipDiscs`), the reversal of a flip record (`undo`), the per-turn list
    of legal cells (`initMovable`) and the disc counts (`colorstorage`). */
module RefereeRules {

  /** Cell contents; the source encodes them as EMPTY = 0, BLACK = 1, WHITE = -1, WALL = 2. */
  datatype Cell = Empty | Black | White | Wall

  /** What `currentcolor` and the colour of a disc hold. */
  type Color = c: Cell | c == Black || c == White witness Black

  /** The source's `-color`. */
  function Opp(c: Color): (r: Color)
    ensures r != c
  {
    if c == Black then White else Black
  }

  const LINE_SIZE := 8   // BOARD_LINE_SIZE
  const DIRECTIONS := 8  // the blocks of checkMobility and flipDiscs
  const MAX_TURNS := 60  // MAXTURNS

  /** A direction flag set: one bit per compass direction. */
  type Mask = bv8

  const NONE: Mask := 0

  /** The eight directions; `y` grows downwards, so row 1 is the upper row. */
  datatype Dir = Upper | Lower | Right | Left | UpperRight | LowerRight | LowerLeft | UpperLeft

  /** The source's flag constants UPPER = 1 ... UPPERRIGHT = 128. */
  function Flag(d: Dir): Mask
  {
    match d
    case Upper => 1
    case UpperLeft => 2
    case Left => 4
    case LowerLeft => 8
    case Lower => 16
    case LowerRight => 32
    case Right => 64
    case UpperRight => 128
  }

  /** The order in which checkMobility and flipDiscs visit the directions. */
  function DirAt(i: int): Dir
    requires 0 <= i < 8
  {
    if i == 0 then Upper
    else if i == 1 then Lower
    else if i == 2 then Right
    else if i == 3 then Left
    else if i == 4 then UpperRight
    else if i == 5 then LowerRight
    else if i == 6 then LowerLeft
    else UpperLeft
  }

  /** The position of a direction in that order. */
  function DirIndex(d: Dir): (i: int)
    ensures 0 <= i < 8 && DirAt(i) == d
  {
    match d
    case Upper => 0
    case Lower => 1
    case Right => 2
    case Left => 3
    case UpperRight => 4
    case LowerRight => 5
    case LowerLeft => 6
    case UpperLeft => 7
  }

  lemma DirIndexAt(i: int)
    requires 0 <= i < 8
    ensures DirIndex(DirAt(i)) == i
  {
  }

  datatype Point = Point(x: int, y: int)

  /** A disc is a coordinate together with a colour. */
  datatype Disc = Disc(pos: Point, color: Cell)

  /** `board[x][y]`: the outer index is the column. */
  type Grid = seq<seq<Cell>>

  predicate InGrid(p: Point)
  {
    0 <= p.x <= LINE_SIZE + 1 && 0 <= p.y <= LINE_SIZE + 1
  }

  predicate Playable(p: Point)
  {
    1 <= p.x <= LINE_SIZE && 1 <= p.y <= LINE_SIZE
  }

  predicate Shaped(g: Grid)
  {
    |g| == LINE_SIZE + 2 && forall x | 0 <= x < |g| :: |g[x]| == LINE_SIZE + 2
  }

  function At(g: Grid, p: Point): Cell
    requires Shaped(g) && InGrid(p)
  {
    g[p.x][p.y]
  }

  /** Walls exactly on the border, so that every walk stops before leaving the grid. */
  ghost predicate Framed(g: Grid)
  {
    Shaped(g) && forall p {:trigger At(g, p)} | InGrid(p) :: (At(g, p) == Wall) == !Playable(p)
  }

  /** `board[p.x][p.y] = v`. */
  function Set(g: Grid, p: Point, v: Cell): (r: Grid)
    requires Shaped(g) && InGrid(p)
    ensures Shaped(r)
    ensures forall q {:trigger At(r, q)} | InGrid(q) :: At(r, q) == if q == p then v else At(g, q)
    ensures Framed(g) && Playable(p) && v != Wall ==> Framed(r)
  {
    g[p.x := g[p.x][p.y := v]]
  }

  /** Two shaped grids that agree on every cell are equal. */
  lemma GridExt(g: Grid, h: Grid)
    requires Shaped(g) && Shaped(h)
    requires forall q {:trigger At(g, q)} {:trigger At(h, q)} | InGrid(q) :: At(g, q) == At(h, q)
    ensures g == h
  {
    forall x | 0 <= x < |g|
      ensures g[x] == h[x]
    {
      forall y | 0 <= y < |g[x]|
        ensures g[x][y] == h[x][y]
      {
        assert At(g, Point(x, y)) == At(h, Point(x, y));
      }
    }
  }

  /** The cell k steps away from p in direction d. */
  function Shift(p: Point, d: Dir, k: int): Point
  {
    match d
    case Upper => Point(p.x, p.y - k)
    case Lower => Point(p.x, p.y + k)
    case Right => Point(p.x + k, p.y)
    case Left => Point(p.x - k, p.y)
    case UpperRight => Point(p.x + k, p.y - k)
    case LowerRight => Point(p.x + k, p.y + k)
    case LowerLeft => Point(p.x - k, p.y + k)
    case UpperLeft => Point(p.x - k, p.y - k)
  }

  function Step(p: Point, d: Dir): Point
  {
    Shift(p, d, 1)
  }

  /** q lies strictly beyond p on the ray from p in direction d. */
  predicate OnRay(p: Point, q: Point, d: Dir)
  {
    match d
    case Upper => q.x == p.x && q.y < p.y
    case Lower => q.x == p.x && q.y > p.y
    case Right => q.y == p.y && q.x > p.x
    case Left => q.y == p.y && q.x < p.x
    case UpperRight => q.x - p.x == p.y - q.y > 0
    case LowerRight => q.x - p.x == q.y - p.y > 0
    case LowerLeft => p.x - q.x == q.y - p.y > 0
    case UpperLeft => p.x - q.x == p.y - q.y > 0
  }

  /** Walking k steps on from the neighbour is walking k + 1 steps from p. */
  lemma ShiftStep(p: Point, d: Dir)
    ensures forall k :: Shift(Step(p, d), d, k) == Shift(p, d, k + 1)
  {
  }

  lemma ShiftNext(p: Point, d: Dir, k: int)
    ensures Step(Shift(p, d, k), d) == Shift(p, d, k + 1)
  {
  }

  lemma ShiftOnRay(p: Point, d: Dir)
    ensures forall k | k >= 1 :: OnRay(p, Shift(p, d, k), d)
  {
  }

  lemma ShiftInjective(p: Point, d: Dir)
    ensures forall i, j | Shift(p, d, i) == Shift(p, d, j) :: i == j
  {
  }

  /** A termination measure for walks: how many steps remain before the border. */
  function Dist(p: Point, d: Dir): int
  {
    match d
    case Upper => p.y
    case Lower => LINE_SIZE + 1 - p.y
    case Right => LINE_SIZE + 1 - p.x
    case Left => p.x
    case UpperRight => LINE_SIZE + 1 - p.x + p.y
    case LowerRight => 2 * (LINE_SIZE + 1) - p.x - p.y
    case LowerLeft => p.x + LINE_SIZE + 1 - p.y
    case UpperLeft => p.x + p.y
  }

  /** From an opposing disc a walk can take one more step, closer to the border. */
  lemma StepInside(g: Grid, p: Point, d: Dir, c: Color)
    requires Framed(g) && InGrid(p) && At(g, p) == Opp(c)
    ensures InGrid(Step(p, d)) && 0 <= Dist(Step(p, d), d) < Dist(p, d)
  {
    assert Playable(p);
  }

  /** The walk from p over cells of the opposing colour stops on a cell of colour c. */
  function EndsOn(g: Grid, p: Point, d: Dir, c: Color): bool
    requires Framed(g) && InGrid(p)
    decreases Dist(p, d)
  {
    if At(g, p) == Opp(c) then StepInside(g, p, d, c); EndsOn(g, Step(p, d), d, c) else At(g, p) == c
  }

  /** r is the run of opposing-colour cells that starts at p and goes in direction d. */
  ghost predicate IsRun(g: Grid, p: Point, d: Dir, c: Color, r: seq<Point>)
    requires Framed(g) && InGrid(p)
  {
    && (forall i | 0 <= i < |r| :: r[i] == Shift(p, d, i) && Playable(r[i]) && At(g, r[i]) == Opp(c))
    && InGrid(Shift(p, d, |r|)) && At(g, Shift(p, d, |r|)) != Opp(c)
    && EndsOn(g, p, d, c) == (At(g, Shift(p, d, |r|)) == c)
  }

  lemma RunCons(g: Grid, p: Point, d: Dir, c: Color, rest: seq<Point>)
    requires Framed(g) && InGrid(p) && At(g, p) == Opp(c) && InGrid(Step(p, d))
    requires IsRun(g, Step(p, d), d, c, rest)
    ensures IsRun(g, p, d, c, [p] + rest)
  {
    ShiftStep(p, d);
    var r := [p] + rest;
    forall i | 0 <= i < |r|
      ensures r[i] == Shift(p, d, i) && Playable(r[i]) && At(g, r[i]) == Opp(c)
    {
      if i > 0 {
        assert r[i] == rest[i - 1];
      }
    }
  }

  /** The run of opposing-colour cells that starts at p and goes in direction d. */
  function Run(g: Grid, p: Point, d: Dir, c: Color): (r: seq<Point>)
    requires Framed(g) && InGrid(p)
    decreases Dist(p, d)
    ensures IsRun(g, p, d, c, r)
  {
    if At(g, p) == Opp(c) then
      StepInside(g, p, d, c);
      var rest := Run(g, Step(p, d), d, c);
      RunCons(g, p, d, c, rest);
      [p] + rest
    else
      assert Shift(p, d, 0) == p;
      []
  }

  /** A disc of colour c at p flanks opposing discs in direction d (one block of checkMobility). */
  predicate Flanks(g: Grid, p: Point, d: Dir, c: Color)
    requires Framed(g) && Playable(p)
  {
    At(g, Step(p, d)) == Opp(c) && EndsOn(g, Step(Step(p, d), d), d, c)
  }

  /** The flags of the first n directions (in the source's order) in which c flanks. */
  function MaskUpTo(g: Grid, p: Point, c: Color, n: nat): Mask
    requires Framed(g) && Playable(p) && n <= 8
  {
    if n == 0 then NONE
    else MaskUpTo(g, p, c, n - 1) | (if Flanks(g, p, DirAt(n - 1), c) then Flag(DirAt(n - 1)) else NONE)
  }

  lemma MaskUpToBits(g: Grid, p: Point, c: Color, n: nat)
    requires Framed(g) && Playable(p) && n <= 8
    ensures forall d: Dir :: (MaskUpTo(g, p, c, n) & Flag(d) != NONE) == (DirIndex(d) < n && Flanks(g, p, d, c))
  {
    forall d: Dir
      ensures (MaskUpTo(g, p, c, n) & Flag(d) != NONE) == (DirIndex(d) < n && Flanks(g, p, d, c))
    {
      MaskUpToBit(g, p, c, n, d);
    }
  }

  /** MaskUpToBits for one direction d, by induction on n. */
  lemma {:induction false} MaskUpToBit(g: Grid, p: Point, c: Color, n: nat, d: Dir)
    requires Framed(g) && Playable(p) && n <= 8
    ensures (MaskUpTo(g, p, c, n) & Flag(d) != NONE) == (DirIndex(d) < n && Flanks(g, p, d, c))
  {
    if n > 0 {
      MaskUpToBit(g, p, c, n - 1, d);
      DirIndexAt(n - 1);
    }
  }

  /** One block of checkMobility or-s the flag of the n-th direction into the first n blocks' mask. */
  lemma MaskUpToUnfold(g: Grid, p: Point, c: Color, n: nat, j: nat)
    requires Framed(g) && Playable(p) && n < 8 && j == n + 1
    ensures MaskUpTo(g, p, c, j) == MaskUpTo(g, p, c, n) | (if Flanks(g, p, DirAt(n), c) then Flag(DirAt(n)) else NONE)
  {
  }

  /** Every non-zero mask has the flag of some direction. */
  lemma NonZeroMask(m: Mask)
    ensures m != NONE <==> exists d: Dir :: m & Flag(d) != NONE
  {
    if m != NONE {
      if m & 1 != 0 { assert m & Flag(Upper) != NONE; }
      else if m & 2 != 0 { assert m & Flag(UpperLeft) != NONE; }
      else if m & 4 != 0 { assert m & Flag(Left) != NONE; }
      else if m & 8 != 0 { assert m & Flag(LowerLeft) != NONE; }
      else if m & 16 != 0 { assert m & Flag(Lower) != NONE; }
      else if m & 32 != 0 { assert m & Flag(LowerRight) != NONE; }
      else if m & 64 != 0 { assert m & Flag(Right) != NONE; }
      else { assert m & Flag(UpperRight) != NONE; }
    }
  }

  /** checkMobility: NONE on an occupied cell, otherwise one flag per flanking direction. */
  function Mobility(g: Grid, p: Point, c: Color): (r: Mask)
    requires Framed(g) && Playable(p)
    ensures At(g, p) != Empty ==> r == NONE
  {
    if At(g, p) != Empty then NONE else MaskUpTo(g, p, c, DIRECTIONS)
  }

  /** The flag of direction d is in checkMobility's mask exactly when the cell is empty and c
      flanks in direction d. */
  lemma MobilityFlags(g: Grid, p: Point, c: Color)
    requires Framed(g) && Playable(p)
    ensures forall d: Dir :: (Mobility(g, p, c) & Flag(d) != NONE) == (At(g, p) == Empty && Flanks(g, p, d, c))
    ensures Mobility(g, p, c) != NONE <==> At(g, p) == Empty && exists d: Dir :: Flanks(g, p, d, c)
  {
    MaskUpToBits(g, p, c, DIRECTIONS);
    NonZeroMask(Mobility(g, p, c));
  }

  /** A non-NONE mask (so the cell is empty) holds exactly the flags of the flanking directions. */
  lemma FlagsFlank(g: Grid, p: Point, c: Color, direc: Mask)
    requires Framed(g) && Playable(p) && direc == Mobility(g, p, c) != NONE
    ensures forall d: Dir {:trigger Flanks(g, p, d, c)} :: (direc & Flag(d) != NONE) == Flanks(g, p, d, c)
  {
    MobilityFlags(g, p, c);
  }

  /** The discs a placement at p flips in direction d: the opposing run, when it is flanked. */
  function FlipRun(g: Grid, p: Point, d: Dir, c: Color): (r: seq<Point>)
    requires Framed(g) && Playable(p)
    ensures forall i | 0 <= i < |r| :: r[i] == Shift(p, d, i + 1)
    ensures forall q {:trigger q in r} | q in r :: OnRay(p, q, d) && Playable(q) && At(g, q) == Opp(c)
    ensures Flanks(g, p, d, c) <==> r != []
    ensures Flanks(g, p, d, c) ==> InGrid(Shift(p, d, |r| + 1)) && At(g, Shift(p, d, |r| + 1)) == c
  {
    if Flanks(g, p, d, c) then
      var r := Run(g, Step(p, d), d, c);
      FlankingRun(g, p, d, c, r);
      r
    else []
  }

  lemma FlankingRun(g: Grid, p: Point, d: Dir, c: Color, r: seq<Point>)
    requires Framed(g) && Playable(p) && Flanks(g, p, d, c) && IsRun(g, Step(p, d), d, c, r)
    ensures forall i | 0 <= i < |r| :: r[i] == Shift(p, d, i + 1)
    ensures forall q {:trigger q in r} | q in r :: OnRay(p, q, d) && Playable(q) && At(g, q) == Opp(c)
    ensures r != [] && InGrid(Shift(p, d, |r| + 1)) && At(g, Shift(p, d, |r| + 1)) == c
  {
    ShiftStep(p, d);
    ShiftOnRay(p, d);
    assert r[0] == Step(p, d);
    var q := Step(p, d);
    StepInside(g, q, d, c);
    ShiftStep(q, d);
  }

  /** The flips of the first n directions, in the order flipDiscs appends them to its record. */
  function FlipsUpTo(g: Grid, p: Point, c: Color, n: nat): (r: seq<Point>)
    requires Framed(g) && Playable(p) && n <= 8
    ensures forall i | 0 <= i < |r| :: Playable(r[i]) && At(g, r[i]) == Opp(c)
  {
    if n == 0 then []
    else FlipsUpTo(g, p, c, n - 1) + FlipRun(g, p, DirAt(n - 1), c)
  }

  /** Every flip of the first n directions lies on one of their rays, and on no later one. */
  lemma {:induction false} FlipsUpToRays(g: Grid, p: Point, c: Color, n: nat)
    requires Framed(g) && Playable(p) && n <= 8
    ensures forall q | q in FlipsUpTo(g, p, c, n) :: forall d: Dir :: OnRay(p, q, d) ==> DirIndex(d) < n
    ensures forall q | q in FlipsUpTo(g, p, c, n) :: exists d: Dir :: OnRay(p, q, d)
  {
    if n > 0 {
      FlipsUpToRays(g, p, c, n - 1);
      DirIndexAt(n - 1);
      assert forall q, d: Dir | q in FlipRun(g, p, DirAt(n - 1), c) && OnRay(p, q, d) :: d == DirAt(n - 1);
    }
  }

  function Flips(g: Grid, p: Point, c: Color): seq<Point>
    requires Framed(g) && Playable(p)
  {
    FlipsUpTo(g, p, c, 8)
  }

  predicate NoDup(ps: seq<Point>)
  {
    forall i, j | 0 <= i < j < |ps| :: ps[i] != ps[j]
  }

  lemma NoDupAppend(a: seq<Point>, b: seq<Point>)
    requires NoDup(a)
    requires NoDup(b)
    requires forall q | q in a :: q !in b
    ensures NoDup(a + b)
  {
    forall i, j | 0 <= i < j < |a + b|
      ensures (a + b)[i] != (a + b)[j]
    {
      if i < |a| <= j {
        assert (a + b)[i] in a;
      }
    }
  }

  lemma FlipRunNoDup(g: Grid, p: Point, d: Dir, c: Color)
    requires Framed(g) && Playable(p)
    ensures NoDup(FlipRun(g, p, d, c))
  {
    ShiftInjective(p, d);
  }

  /** The flips of a later direction are not among those of the earlier ones. */
  lemma FlipsDisjoint(g: Grid, p: Point, c: Color, n: nat)
    requires Framed(g) && Playable(p) && n < 8
    ensures forall q | q in FlipsUpTo(g, p, c, n) :: q !in FlipRun(g, p, DirAt(n), c)
  {
    var d := DirAt(n);
    DirIndexAt(n);
    FlipsUpToRays(g, p, c, n);
    assert forall q | q in FlipRun(g, p, d, c) :: OnRay(p, q, d) && DirIndex(d) == n;
  }

  lemma {:induction false} FlipsUpToNoDup(g: Grid, p: Point, c: Color, n: nat)
    requires Framed(g) && Playable(p) && n <= 8
    ensures NoDup(FlipsUpTo(g, p, c, n))
    ensures p !in FlipsUpTo(g, p, c, n)
  {
    if n > 0 {
      FlipsUpToNoDup(g, p, c, n - 1);
      FlipsNextNoDup(g, p, c, n - 1, n);
    }
    FlipsAvoidCenter(g, p, c, n);
  }

  /** A flip lies on a ray of p, so it is never p itself. */
  lemma FlipsAvoidCenter(g: Grid, p: Point, c: Color, n: nat)
    requires Framed(g) && Playable(p) && n <= 8
    ensures p !in FlipsUpTo(g, p, c, n)
  {
    FlipsUpToRays(g, p, c, n);
  }

  /** Appending the run of direction n keeps the flips free of duplicates. */
  lemma FlipsNextNoDup(g: Grid, p: Point, c: Color, n: nat, j: nat)
    requires Framed(g) && Playable(p) && n < 8 && j == n + 1
    requires NoDup(FlipsUpTo(g, p, c, n))
    ensures NoDup(FlipsUpTo(g, p, c, j))
  {
    var a, b := FlipsUpTo(g, p, c, n), FlipRun(g, p, DirAt(n), c);
    FlipRunNoDup(g, p, DirAt(n), c);
    FlipsDisjoint(g, p, c, n);
    NoDupAppend(a, b);
    assert FlipsUpTo(g, p, c, j) == a + b;
  }

  /** The k-th cell of flipDiscs' walk in the i-th direction: not painted by the walk so far
      nor by the earlier directions, an opposing disc inside the run and c just behind it. */
  lemma FlipWalkCell(g: Grid, p: Point, c: Color, i: nat, k: nat, j: int, q: Point)
    requires Framed(g) && Playable(p) && i < 8
    requires Flanks(g, p, DirAt(i), c) && k <= |FlipRun(g, p, DirAt(i), c)| && j == k + 1 && q == Shift(p, DirAt(i), j)
    ensures InGrid(q)
    ensures q !in Trail(g, p, c, i, k)
    ensures At(g, q) == if k < |FlipRun(g, p, DirAt(i), c)| then Opp(c) else c
  {
    var d := DirAt(i);
    var run := FlipRun(g, p, d, c);
    DirIndexAt(i);
    FlipsUpToRays(g, p, c, i);
    ShiftOnRay(p, d);
    ShiftInjective(p, d);
    assert OnRay(p, q, d);
    if k < |run| {
      assert q == run[k];
    }
    assert q != p by {
      assert Shift(p, d, 0) == p;
    }
    assert q !in FlipsUpTo(g, p, c, i);
    assert q !in run[..k];
    assert Trail(g, p, c, i, k) == [p] + FlipsUpTo(g, p, c, i) + run[..k];
  }

  lemma PrefixSnoc(pre: seq<Point>, run: seq<Point>, k: nat)
    requires k < |run|
    ensures pre + run[..k + 1] == (pre + run[..k]) + [run[k]]
  {
    assert run[..k + 1] == run[..k] + [run[k]];
  }

  lemma ColoredSnoc(u: seq<Disc>, run: seq<Point>, k: nat, c: Color)
    requires k < |run|
    ensures u + Colored(run[..k + 1], c) == (u + Colored(run[..k], c)) + [Disc(run[k], c)]
  {
    assert Colored(run[..k + 1], c) == Colored(run[..k], c) + [Disc(run[k], c)];
  }

  lemma ColoredAppend(a: seq<Point>, b: seq<Point>, c: Color)
    ensures Colored(a + b, c) == Colored(a, c) + Colored(b, c)
  {
  }

  /** Painting one more cell is a Set after painting the others. */
  lemma PaintSnoc(g: Grid, ps: seq<Point>, q: Point, v: Cell)
    requires Shaped(g) && InGrid(q) && forall r {:trigger r in ps} | r in ps :: InGrid(r)
    ensures Paint(g, ps + [q], v) == Set(Paint(g, ps, v), q, v)
  {
    assert (ps + [q])[..|ps|] == ps;
  }

  /** The cells flipDiscs has painted when the walk in direction DirAt(i) has painted k. */
  function Trail(g0: Grid, p: Point, c: Color, i: nat, k: nat): (r: seq<Point>)
    requires Framed(g0) && Playable(p) && i < 8 && k <= |FlipRun(g0, p, DirAt(i), c)|
    ensures forall q {:trigger q in r} | q in r :: Playable(q)
  {
    var a, run := FlipsUpTo(g0, p, c, i), FlipRun(g0, p, DirAt(i), c);
    var r := [p] + a + run[..k];
    forall q | q in r
      ensures Playable(q)
    {
      if q in a {
        var j :| 0 <= j < |a| && a[j] == q;
      } else if q != p {
        assert q in run[..k];
        assert q in run;
      }
    }
    r
  }

  /** The state of flipDiscs' walk in direction DirAt(i) after k painted cells: the grid b,
      the record u (which held u0 before the walk) and the cell q the walk looks at next. */
  ghost predicate Walked(g0: Grid, p: Point, c: Color, i: nat, k: nat, b: Grid, u0: seq<Disc>, u: seq<Disc>, q: Point)
  {
    && Framed(g0) && Playable(p) && i < 8 && Flanks(g0, p, DirAt(i), c)
    && k <= |FlipRun(g0, p, DirAt(i), c)| && q == Shift(p, DirAt(i), k + 1) && InGrid(q)
    && b == Paint(g0, Trail(g0, p, c, i, k), c)
    && u == u0 + Colored(FlipRun(g0, p, DirAt(i), c)[..k], c)
    && At(b, q) == if k < |FlipRun(g0, p, DirAt(i), c)| then Opp(c) else c
  }

  lemma WalkStart(g0: Grid, p: Point, c: Color, i: nat, u0: seq<Disc>)
    requires Framed(g0) && Playable(p) && i < 8 && Flanks(g0, p, DirAt(i), c)
    ensures Walked(g0, p, c, i, 0, Paint(g0, [p] + FlipsUpTo(g0, p, c, i), c), u0, u0, Step(p, DirAt(i)))
  {
    var run := FlipRun(g0, p, DirAt(i), c);
    var pre := [p] + FlipsUpTo(g0, p, c, i);
    TrailStart(g0, p, c, i);
    assert Colored(run[..0], c) == [] && u0 + [] == u0;
    FlipWalkCell(g0, p, c, i, 0, 1, Step(p, DirAt(i)));
    PaintAt(g0, pre, c);
  }

  /** Before its first step a walk has painted p and the flips of the earlier directions. */
  lemma TrailStart(g0: Grid, p: Point, c: Color, i: nat)
    requires Framed(g0) && Playable(p) && i < 8
    ensures Trail(g0, p, c, i, 0) == [p] + FlipsUpTo(g0, p, c, i)
  {
    var pre, run := [p] + FlipsUpTo(g0, p, c, i), FlipRun(g0, p, DirAt(i), c);
    assert run[..0] == [] && pre + [] == pre;
  }

  lemma WalkStep(g0: Grid, p: Point, c: Color, i: nat, k: nat, b: Grid, u0: seq<Disc>, u: seq<Disc>, q: Point)
    requires Walked(g0, p, c, i, k, b, u0, u, q) && At(b, q) != c
    ensures k < |FlipRun(g0, p, DirAt(i), c)|
    ensures Walked(g0, p, c, i, k + 1, Set(b, q, c), u0, u + [Disc(q, c)], Step(q, DirAt(i)))
  {
    var d := DirAt(i);
    var run := FlipRun(g0, p, d, c);
    var pre := [p] + FlipsUpTo(g0, p, c, i);
    assert q == run[k];
    PrefixSnoc(pre, run, k);
    assert Trail(g0, p, c, i, k + 1) == Trail(g0, p, c, i, k) + [q];
    ColoredSnoc(u0, run, k, c);
    PaintSnoc(g0, pre + run[..k], q, c);
    ShiftNext(p, d, k + 1);
    FlipWalkCell(g0, p, c, i, k + 1, k + 1 + 1, Step(q, d));
    PaintAt(g0, Trail(g0, p, c, i, k + 1), c);
  }

  lemma WalkEnd(g0: Grid, p: Point, c: Color, i: nat, k: nat, b: Grid, u0: seq<Disc>, u: seq<Disc>, q: Point)
    requires Walked(g0, p, c, i, k, b, u0, u, q) && At(b, q) == c
    ensures b == Paint(g0, [p] + FlipsUpTo(g0, p, c, i + 1), c)
    ensures u == u0 + Colored(FlipRun(g0, p, DirAt(i), c), c)
  {
    var run := FlipRun(g0, p, DirAt(i), c);
    assert k == |run|;
    TrailDone(g0, p, c, i);
    assert run[..k] == run;
  }

  /** A walk that has painted its whole run has painted the flips of one more direction. */
  lemma TrailDone(g0: Grid, p: Point, c: Color, i: nat)
    requires Framed(g0) && Playable(p) && i < 8
    ensures Trail(g0, p, c, i, |FlipRun(g0, p, DirAt(i), c)|) == [p] + FlipsUpTo(g0, p, c, i + 1)
  {
    var a, run := FlipsUpTo(g0, p, c, i), FlipRun(g0, p, DirAt(i), c);
    assert FlipsUpTo(g0, p, c, i + 1) == a + run;
    AppendAssoc([p], a, run);
    assert run[..|run|] == run;
  }

  /** A record of the placed disc followed by the flipped ones, all of the mover's colour. */
  function Colored(ps: seq<Point>, c: Color): (r: seq<Disc>)
    ensures |r| == |ps| && forall i | 0 <= i < |ps| :: r[i] == Disc(ps[i], c)
  {
    seq(|ps|, i requires 0 <= i < |ps| => Disc(ps[i], c))
  }

  function Positions(ds: seq<Disc>): (r: seq<Point>)
    ensures |r| == |ds| && forall i | 0 <= i < |ds| :: r[i] == ds[i].pos
  {
    seq(|ds|, i requires 0 <= i < |ds| => ds[i].pos)
  }

  /** The record flipDiscs appends to updatelog for a placement of c at p. */
  function MoveRecord(g: Grid, p: Point, c: Color): (r: seq<Disc>)
    requires Framed(g) && Playable(p)
    ensures |r| == 1 + |Flips(g, p, c)|
    ensures r[0] == Disc(p, c) && r[1..] == Colored(Flips(g, p, c), c)
    ensures Positions(r) == [p] + Flips(g, p, c)
    ensures forall i | 0 <= i < |r| :: Playable(r[i].pos) && r[i].color == c
  {
    var fs := Flips(g, p, c);
    var r := [Disc(p, c)] + Colored(fs, c);
    assert r[1..] == Colored(fs, c);
    PositionsColored(p, fs, c);
    r
  }

  /** The positions of a colour record are the cells it was made from. */
  lemma PositionsColored(p: Point, fs: seq<Point>, c: Color)
    ensures Positions([Disc(p, c)] + Colored(fs, c)) == [p] + fs
  {
    var r := [Disc(p, c)] + Colored(fs, c);
    var ps := Positions(r);
    forall i | 0 <= i < |ps|
      ensures ps[i] == ([p] + fs)[i]
    {
      if i > 0 {
        assert r[i] == Colored(fs, c)[i - 1];
      }
    }
  }

  /** Sets every cell of ps to v, in order. */
  function Paint(g: Grid, ps: seq<Point>, v: Cell): (r: Grid)
    requires Shaped(g) && forall q {:trigger q in ps} | q in ps :: InGrid(q)
    ensures Shaped(r)
    decreases |ps|
  {
    if ps == [] then g
    else
      var init := ps[..|ps| - 1];
      assert forall q {:trigger q in init} | q in init :: q in ps;
      assert ps[|ps| - 1] in ps;
      Set(Paint(g, init, v), ps[|ps| - 1], v)
  }

  /** Painting sets exactly the listed cells to v, and keeps the frame when v is a colour. */
  lemma {:induction false} PaintAt(g: Grid, ps: seq<Point>, v: Cell)
    requires Shaped(g) && forall q {:trigger q in ps} | q in ps :: InGrid(q)
    ensures forall q {:trigger At(Paint(g, ps, v), q)} | InGrid(q) :: At(Paint(g, ps, v), q) == if q in ps then v else At(g, q)
    ensures Framed(g) && v != Wall && (forall q {:trigger q in ps} | q in ps :: Playable(q)) ==> Framed(Paint(g, ps, v))
    decreases |ps|
  {
    if ps != [] {
      var init := ps[..|ps| - 1];
      assert forall q :: q in ps <==> q in init || q == ps[|ps| - 1];
      PaintAt(g, init, v);
    }
  }

  /** The grid after a placement of c at p. */
  function Place(g: Grid, p: Point, c: Color): Grid
    requires Framed(g) && Playable(p)
  {
    Paint(g, Positions(MoveRecord(g, p, c)), c)
  }

  /** The grid after undo pops a non-empty record: the placed cell is emptied, the rest get colour o. */
  function Unplace(g: Grid, rec: seq<Disc>, o: Color): Grid
    requires Shaped(g) && rec != [] && forall i | 0 <= i < |rec| :: InGrid(rec[i].pos)
  {
    Paint(Set(g, rec[0].pos, Empty), Positions(rec[1..]), o)
  }

  /** A placement changes exactly the cells its record lists. */
  lemma PlaceChangesRecord(g: Grid, p: Point, c: Color)
    requires Framed(g) && Playable(p) && At(g, p) == Empty
    ensures Framed(Place(g, p, c))
    ensures forall q {:trigger At(Place(g, p, c), q)} | InGrid(q) :: (At(Place(g, p, c), q) != At(g, q)) == (q in Positions(MoveRecord(g, p, c)))
    ensures forall q | q in Positions(MoveRecord(g, p, c)) :: At(Place(g, p, c), q) == c
  {
    PaintAt(g, Positions(MoveRecord(g, p, c)), c);
  }

  /** Undoing the record of a placement restores the grid it was made on. */
  lemma UnplacePlace(g: Grid, p: Point, c: Color)
    requires Framed(g) && Playable(p) && At(g, p) == Empty
    ensures Unplace(Place(g, p, c), MoveRecord(g, p, c), Opp(c)) == g
  {
    var rec, fs := MoveRecord(g, p, c), Flips(g, p, c);
    var g1 := Place(g, p, c);
    var s := Set(g1, p, Empty);
    var h := Paint(s, fs, Opp(c));
    assert Positions(rec[1..]) == fs;
    assert h == Unplace(g1, rec, Opp(c));
    PaintAt(g, Positions(rec), c);
    PaintAt(s, fs, Opp(c));
    forall q {:trigger At(h, q)} | InGrid(q)
      ensures At(h, q) == At(g, q)
    {
      assert q in Positions(rec) <==> q == p || q in fs;
    }
    GridExt(h, g);
  }

  /** Before any direction is walked, flipDiscs has painted p alone and recorded its disc. */
  lemma FlipsStart(g0: Grid, p: Point, c: Color)
    requires Framed(g0) && Playable(p)
    ensures Paint(g0, [p] + FlipsUpTo(g0, p, c, 0), c) == Set(g0, p, c)
    ensures [Disc(p, c)] + Colored(FlipsUpTo(g0, p, c, 0), c) == [Disc(p, c)]
  {
    var none := FlipsUpTo(g0, p, c, 0);
    assert none == [];
    assert [p] + none == [] + [p];
    PaintSnoc(g0, [], p, c);
  }

  /** One direction of flipDiscs: walking it appends its run, skipping it appends nothing. */
  lemma FlipsNext(g0: Grid, p: Point, c: Color, i: nat, u: seq<Disc>)
    requires Framed(g0) && Playable(p) && i < 8 && u == [Disc(p, c)] + Colored(FlipsUpTo(g0, p, c, i), c)
    ensures u + Colored(FlipRun(g0, p, DirAt(i), c), c) == [Disc(p, c)] + Colored(FlipsUpTo(g0, p, c, i + 1), c)
    ensures !Flanks(g0, p, DirAt(i), c) ==> FlipsUpTo(g0, p, c, i + 1) == FlipsUpTo(g0, p, c, i)
  {
    var a, b := FlipsUpTo(g0, p, c, i), FlipRun(g0, p, DirAt(i), c);
    assert FlipsUpTo(g0, p, c, i + 1) == a + b;
    ColoredAppend(a, b, c);
    AppendAssoc([Disc(p, c)], Colored(a, c), Colored(b, c));
    if b == [] {
      assert a + b == a;
    }
  }

  lemma AppendAssoc<T>(x: seq<T>, y: seq<T>, z: seq<T>)
    ensures (x + y) + z == x + (y + z)
  {
  }

  /** After the eighth direction flipDiscs has produced Place's grid and MoveRecord's record. */
  lemma FlipsDone(g0: Grid, p: Point, c: Color, b: Grid, u: seq<Disc>)
    requires Framed(g0) && Playable(p)
    requires b == Paint(g0, [p] + FlipsUpTo(g0, p, c, 8), c) && u == [Disc(p, c)] + Colored(FlipsUpTo(g0, p, c, 8), c)
    ensures b == Place(g0, p, c) && u == MoveRecord(g0, p, c)
  {
    var r := MoveRecord(g0, p, c);
    assert r == [r[0]] + r[1..];
  }

  /** undo's restoring loop after i entries of rec: the placed cell emptied, entries 1..i-1 repainted. */
  lemma UnplaceStep(g: Grid, rec: seq<Disc>, o: Color, i: nat)
    requires Shaped(g) && 1 <= i < |rec| && forall j | 0 <= j < |rec| :: InGrid(rec[j].pos)
    ensures forall q {:trigger q in Positions(rec[1..i])} | q in Positions(rec[1..i]) :: InGrid(q)
    ensures Paint(Set(g, rec[0].pos, Empty), Positions(rec[1..i + 1]), o) ==
      Set(Paint(Set(g, rec[0].pos, Empty), Positions(rec[1..i]), o), rec[i].pos, o)
  {
    assert Positions(rec[1..i + 1]) == Positions(rec[1..i]) + [rec[i].pos];
    PaintSnoc(Set(g, rec[0].pos, Empty), Positions(rec[1..i]), rec[i].pos, o);
  }

  ///// Disc counts

  /** The k-th playable cell in the order of the source's `for x: for y:` scans. */
  function CellAt(k: int): (p: Point)
    requires 0 <= k < LINE_SIZE * LINE_SIZE
    ensures Playable(p) && IndexOf(p) == k
  {
    Point(k / LINE_SIZE + 1, k % LINE_SIZE + 1)
  }

  function IndexOf(p: Point): int
  {
    (p.x - 1) * LINE_SIZE + (p.y - 1)
  }

  lemma IndexOfCell(p: Point)
    requires Playable(p)
    ensures 0 <= IndexOf(p) < LINE_SIZE * LINE_SIZE && CellAt(IndexOf(p)) == p
  {
  }

  lemma IndexOfNextRow(x: int, y: int)
    requires Playable(Point(x, y))
    ensures 0 <= IndexOf(Point(x, y)) && IndexOf(Point(x, y + 1)) == IndexOf(Point(x, y)) + 1 <= LINE_SIZE * LINE_SIZE
  {
    IndexOfCell(Point(x, y));
  }

  /** The cell after the last of a column is the first of the next one. */
  lemma IndexOfNextColumn(x: int)
    ensures IndexOf(Point(x, LINE_SIZE + 1)) == IndexOf(Point(x + 1, 1))
  {
  }

  /** Number of the first k cells (in scan order) that hold v. */
  function CountUpTo(g: Grid, v: Cell, k: nat): nat
    requires Shaped(g) && k <= LINE_SIZE * LINE_SIZE
  {
    if k == 0 then 0
    else CountUpTo(g, v, k - 1) + (if At(g, CellAt(k - 1)) == v then 1 else 0)
  }

  /** Number of playable cells holding v. */
  function Count(g: Grid, v: Cell): nat
    requires Shaped(g)
  {
    CountUpTo(g, v, LINE_SIZE * LINE_SIZE)
  }

  lemma {:induction false} CountUpToSet(g: Grid, p: Point, w: Cell, v: Cell, k: nat)
    requires Shaped(g) && Playable(p) && k <= LINE_SIZE * LINE_SIZE
    ensures CountUpTo(Set(g, p, w), v, k) ==
      CountUpTo(g, v, k) - (if IndexOf(p) < k && At(g, p) == v then 1 else 0)
                         + (if IndexOf(p) < k && w == v then 1 else 0)
  {
    if k > 0 {
      CountUpToSet(g, p, w, v, k - 1);
      IndexOfCell(p);
    }
  }

  /** Writing w into one playable cell moves it from the count of its old value to that of w. */
  lemma CountSet(g: Grid, p: Point, w: Cell, v: Cell)
    requires Shaped(g) && Playable(p)
    ensures Count(Set(g, p, w), v) ==
      Count(g, v) - (if At(g, p) == v then 1 else 0) + (if w == v then 1 else 0)
  {
    CountUpToSet(g, p, w, v, LINE_SIZE * LINE_SIZE);
    IndexOfCell(p);
  }

  lemma {:induction false} CountUpToTotal(g: Grid, k: nat)
    requires Framed(g) && k <= LINE_SIZE * LINE_SIZE
    ensures CountUpTo(g, White, k) + CountUpTo(g, Empty, k) + CountUpTo(g, Black, k) == k
  {
    if k > 0 {
      CountUpToTotal(g, k - 1);
    }
  }

  /** White, empty and black counts of a framed grid always sum to 64. */
  lemma CountsTotal(g: Grid)
    requires Framed(g)
    ensures Count(g, White) + Count(g, Empty) + Count(g, Black) == LINE_SIZE * LINE_SIZE
  {
    CountUpToTotal(g, LINE_SIZE * LINE_SIZE);
  }

  lemma {:induction false} CountUpToPositive(g: Grid, v: Cell, p: Point, k: nat)
    requires Shaped(g) && Playable(p) && At(g, p) == v && IndexOf(p) < k <= LINE_SIZE * LINE_SIZE
    ensures CountUpTo(g, v, k) >= 1
  {
    IndexOfCell(p);
    if k - 1 != IndexOf(p) {
      CountUpToPositive(g, v, p, k - 1);
    }
  }

  /** How many cells of ps hold v in g. */
  function Hits(g: Grid, ps: seq<Point>, v: Cell): nat
    requires Shaped(g) && forall q {:trigger q in ps} | q in ps :: InGrid(q)
  {
    if ps == [] then 0
    else
      assert forall q {:trigger q in ps[..|ps| - 1]} | q in ps[..|ps| - 1] :: q in ps;
      assert ps[|ps| - 1] in ps;
      Hits(g, ps[..|ps| - 1], v) + (if At(g, ps[|ps| - 1]) == v then 1 else 0)
  }

  lemma {:induction false} HitsUniform(g: Grid, ps: seq<Point>, u: Cell, v: Cell)
    requires Shaped(g) && forall q {:trigger q in ps} | q in ps :: InGrid(q) && At(g, q) == u
    ensures Hits(g, ps, v) == if u == v then |ps| else 0
    decreases |ps|
  {
    if ps != [] {
      assert forall q {:trigger q in ps[..|ps| - 1]} | q in ps[..|ps| - 1] :: q in ps;
      assert ps[|ps| - 1] in ps;
      HitsUniform(g, ps[..|ps| - 1], u, v);
    }
  }

  lemma {:induction false} HitsAppend(g: Grid, a: seq<Point>, b: seq<Point>, v: Cell)
    requires Shaped(g)
    requires forall q {:trigger q in a} | q in a :: InGrid(q)
    requires forall q {:trigger q in b} | q in b :: InGrid(q)
    ensures forall q {:trigger q in a + b} | q in a + b :: InGrid(q)
    ensures Hits(g, a + b, v) == Hits(g, a, v) + Hits(g, b, v)
    decreases |b|
  {
    if b == [] {
      assert a + b == a;
    } else {
      var init := b[..|b| - 1];
      assert (a + b)[..|a + b| - 1] == a + init;
      assert forall q {:trigger q in init} | q in init :: q in b;
      assert b[|b| - 1] in b;
      HitsAppend(g, a, init, v);
    }
  }

  /** Painting distinct playable cells moves each of them from its old value's count to v's. */
  lemma {:induction false} CountPaint(g: Grid, ps: seq<Point>, v: Cell, w: Cell)
    requires Shaped(g) && NoDup(ps) && forall q {:trigger q in ps} | q in ps :: InGrid(q) && Playable(q)
    ensures Count(Paint(g, ps, v), w) == Count(g, w) - Hits(g, ps, w) + (if v == w then |ps| else 0)
    decreases |ps|
  {
    if ps != [] {
      var init, last := ps[..|ps| - 1], ps[|ps| - 1];
      assert forall q {:trigger q in init} | q in init :: q in ps;
      assert last in ps;
      CountPaint(g, init, v, w);
      PaintAt(g, init, v);
      forall i | 0 <= i < |init|
        ensures init[i] != last
      {
        assert ps[i] != ps[|ps| - 1];
      }
      CountSet(Paint(g, init, v), last, v, w);
    }
  }

  lemma RecordNoDup(g: Grid, p: Point, c: Color)
    requires Framed(g) && Playable(p)
    ensures NoDup(Positions(MoveRecord(g, p, c)))
  {
    FlipsUpToNoDup(g, p, c, 8);
    NoDupAppend([p], Flips(g, p, c));
  }

  /** The record's cells are the empty target followed by opposing discs. */
  lemma RecordHits(g: Grid, p: Point, c: Color, w: Cell)
    requires Framed(g) && Playable(p) && At(g, p) == Empty
    ensures Hits(g, Positions(MoveRecord(g, p, c)), w) ==
      (if w == Empty then 1 else 0) + (if w == Opp(c) then |Flips(g, p, c)| else 0)
  {
    var fs := Flips(g, p, c);
    HitsAppend(g, [p], fs, w);
    HitsUniform(g, fs, Opp(c), w);
    assert [p][..0] == [];
  }

  /** A placement adds its record's length to the mover's count, takes all but one of them from
      the opponent's count and one from the empty count (flipDiscs' colorstorage update). */
  lemma PlaceCounts(g: Grid, p: Point, c: Color)
    requires Framed(g) && Playable(p) && At(g, p) == Empty
    ensures var n := |MoveRecord(g, p, c)|;
      && Count(Place(g, p, c), c) == Count(g, c) + n
      && Count(Place(g, p, c), Opp(c)) == Count(g, Opp(c)) - (n - 1)
      && Count(Place(g, p, c), Empty) == Count(g, Empty) - 1
  {
    var ps := Positions(MoveRecord(g, p, c));
    RecordNoDup(g, p, c);
    RecordHits(g, p, c, c);
    RecordHits(g, p, c, Opp(c));
    RecordHits(g, p, c, Empty);
    CountPaint(g, ps, c, c);
    CountPaint(g, ps, c, Opp(c));
    CountPaint(g, ps, c, Empty);
  }

  ///// Legal moves

  /** The cells among the first k (in scan order) where c may be placed: movable_pos. */
  function LegalUpTo(g: Grid, c: Color, k: nat): seq<Point>
    requires Framed(g) && k <= LINE_SIZE * LINE_SIZE
  {
    if k == 0 then []
    else LegalUpTo(g, c, k - 1) + (if Mobility(g, CellAt(k - 1), c) != NONE then [CellAt(k - 1)] else [])
  }

  function LegalList(g: Grid, c: Color): seq<Point>
    requires Framed(g)
  {
    LegalUpTo(g, c, LINE_SIZE * LINE_SIZE)
  }

  ghost predicate NoMoves(g: Grid, c: Color)
    requires Framed(g)
  {
    forall p {:trigger Mobility(g, p, c)} | Playable(p) :: Mobility(g, p, c) == NONE
  }

  /** One step of the scan: the cell after the first IndexOf(p) ones is p itself. */
  lemma LegalUpToNext(g: Grid, c: Color, p: Point)
    requires Framed(g) && Playable(p)
    ensures LegalUpTo(g, c, IndexOf(p) + 1) == LegalUpTo(g, c, IndexOf(p)) + (if Mobility(g, p, c) != NONE then [p] else [])
  {
    IndexOfCell(p);
  }

  /** The same step, for the cell (x, y) of column x of the scan. */
  lemma LegalUpToStep(g: Grid, c: Color, x: int, y: int)
    requires Framed(g) && Playable(Point(x, y))
    ensures 0 <= IndexOf(Point(x, y)) < IndexOf(Point(x, y + 1)) <= LINE_SIZE * LINE_SIZE
    ensures LegalUpTo(g, c, IndexOf(Point(x, y + 1))) ==
      LegalUpTo(g, c, IndexOf(Point(x, y))) + (if Mobility(g, Point(x, y), c) != NONE then [Point(x, y)] else [])
  {
    IndexOfNextRow(x, y);
    LegalUpToNext(g, c, Point(x, y));
  }

  lemma LegalUpToMembers(g: Grid, c: Color, k: nat)
    requires Framed(g) && k <= LINE_SIZE * LINE_SIZE
    ensures forall q {:trigger q in LegalUpTo(g, c, k)} {:trigger Mobility(g, q, c)} :: q in LegalUpTo(g, c, k) <==> Playable(q) && IndexOf(q) < k && Mobility(g, q, c) != NONE
  {
    forall q
      ensures q in LegalUpTo(g, c, k) <==> Playable(q) && IndexOf(q) < k && Mobility(g, q, c) != NONE
    {
      LegalUpToMember(g, c, k, q);
    }
  }

  /** LegalUpToMembers for one cell q. */
  lemma LegalUpToMember(g: Grid, c: Color, k: nat, q: Point)
    requires Framed(g) && k <= LINE_SIZE * LINE_SIZE
    ensures (q in LegalUpTo(g, c, k)) == (Playable(q) && IndexOf(q) < k && Mobility(g, q, c) != NONE)
  {
    var ms := MovableIndices(g, c);
    LegalUpToScan(g, c, k);
    ScanMember(ms, k, q);
    if Playable(q) {
      IndexOfCell(q);
    }
  }

  /** The scan indices of the cells where c may be placed. */
  ghost function MovableIndices(g: Grid, c: Color): set<int>
    requires Framed(g)
  {
    set i | 0 <= i < LINE_SIZE * LINE_SIZE && Mobility(g, CellAt(i), c) != NONE
  }

  /** The cells of the first k scan indices that are in ms, in scan order. */
  function Scan(ms: set<int>, k: nat): seq<Point>
    requires k <= LINE_SIZE * LINE_SIZE
  {
    if k == 0 then [] else Scan(ms, k - 1) + (if k - 1 in ms then [CellAt(k - 1)] else [])
  }

  /** The legal-cell scan is the scan of the movable indices. */
  lemma {:induction false} LegalUpToScan(g: Grid, c: Color, k: nat)
    requires Framed(g) && k <= LINE_SIZE * LINE_SIZE
    ensures LegalUpTo(g, c, k) == Scan(MovableIndices(g, c), k)
  {
    if k > 0 {
      LegalUpToScan(g, c, k - 1);
      var m := Mobility(g, CellAt(k - 1), c) != NONE;
      assert (k - 1 in MovableIndices(g, c)) == m;
      assert LegalUpTo(g, c, k) == LegalUpTo(g, c, k - 1) + (if m then [CellAt(k - 1)] else []);
    }
  }

  /** A cell is in the scan of ms up to k exactly when it is playable, scanned and its index is in ms. */
  lemma {:induction false} ScanMember(ms: set<int>, k: nat, q: Point)
    requires k <= LINE_SIZE * LINE_SIZE
    ensures (q in Scan(ms, k)) == (Playable(q) && IndexOf(q) < k && IndexOf(q) in ms)
  {
    if k > 0 {
      ScanMember(ms, k - 1, q);
      CellAtIff(k - 1, q);
      assert q in Scan(ms, k) <==> q in Scan(ms, k - 1) || (q == CellAt(k - 1) && k - 1 in ms);
    }
  }

  /** CellAt(k) is the one playable cell whose scan index is k. */
  lemma CellAtIff(k: int, q: Point)
    requires 0 <= k < LINE_SIZE * LINE_SIZE
    ensures (q == CellAt(k)) == (Playable(q) && IndexOf(q) == k)
  {
    if Playable(q) {
      IndexOfCell(q);
    }
  }

  lemma {:induction false} LegalUpToOrder(g: Grid, c: Color, k: nat)
    requires Framed(g) && k <= LINE_SIZE * LINE_SIZE
    ensures forall i | 0 <= i < |LegalUpTo(g, c, k)| :: IndexOf(LegalUpTo(g, c, k)[i]) < k
    ensures forall i, j | 0 <= i < j < |LegalUpTo(g, c, k)| :: IndexOf(LegalUpTo(g, c, k)[i]) < IndexOf(LegalUpTo(g, c, k)[j])
  {
    if k > 0 {
      LegalUpToOrder(g, c, k - 1);
    }
  }

  /** movable_pos lists, in scan order and without repetition, exactly the cells with a non-NONE mask. */
  lemma LegalListMembers(g: Grid, c: Color)
    requires Framed(g)
    ensures forall q {:trigger q in LegalList(g, c)} {:trigger Mobility(g, q, c)} :: q in LegalList(g, c) <==> Playable(q) && Mobility(g, q, c) != NONE
    ensures forall i, j | 0 <= i < j < |LegalList(g, c)| :: IndexOf(LegalList(g, c)[i]) < IndexOf(LegalList(g, c)[j])
  {
    LegalUpToMembers(g, c, LINE_SIZE * LINE_SIZE);
    LegalUpToOrder(g, c, LINE_SIZE * LINE_SIZE);
    forall q {:trigger IndexOf(q)} | Playable(q)
      ensures IndexOf(q) < LINE_SIZE * LINE_SIZE
    {
      IndexOfCell(q);
    }
  }

  /** The legal list is empty exactly when no playable cell has a move. */
  lemma LegalListEmpty(g: Grid, c: Color)
    requires Framed(g)
    ensures LegalList(g, c) == [] <==> NoMoves(g, c)
  {
    LegalListMembers(g, c);
    if LegalList(g, c) != [] {
      assert LegalList(g, c)[0] in LegalList(g, c);
    }
  }

  /** A cell none of whose neighbours holds the opposing colour has the mask NONE. */
  lemma Isolated(g: Grid, p: Point, c: Color)
    requires Framed(g) && Playable(p)
    requires forall d: Dir :: At(g, Step(p, d)) != Opp(c)
    ensures Mobility(g, p, c) == NONE
  {
    MobilityFlags(g, p, c);
  }

  ///// Positions: what the board holds between two operations

  /** The grid, the turn counter and the colour to move. */
  datatype Position = Position(grid: Grid, turns: int, color: Color)

  /** A position whose turn counter equals the number of discs placed since the start. */
  ghost predicate PositionOK(s: Position)
  {
    Framed(s.grid) && 0 <= s.turns <= MAX_TURNS && s.turns == MAX_TURNS - Count(s.grid, Empty)
  }

  predicate CanMove(s: Position, p: Point)
    requires Framed(s.grid)
  {
    Playable(p) && Mobility(s.grid, p, s.color) != NONE
  }

  function AfterMove(s: Position, p: Point): Position
    requires Framed(s.grid) && Playable(p)
  {
    Position(Place(s.grid, p, s.color), s.turns + 1, Opp(s.color))
  }

  predicate CanPass(s: Position)
    requires Framed(s.grid)
  {
    LegalList(s.grid, s.color) == []
  }

  function AfterPass(s: Position): Position
  {
    Position(s.grid, s.turns, Opp(s.color))
  }

  /** isGameOver: all sixty plies made, or neither side can place a disc. */
  ghost predicate GameOver(s: Position)
    requires Framed(s.grid)
  {
    s.turns == MAX_TURNS || (LegalList(s.grid, s.color) == [] && NoMoves(s.grid, Opp(s.color)))
  }

  /** A legal placement is never the 61st ply, and leads to a well-formed position. */
  lemma AfterMoveOK(s: Position, p: Point)
    requires PositionOK(s) && CanMove(s, p)
    ensures s.turns < MAX_TURNS
    ensures PositionOK(AfterMove(s, p))
  {
    CountUpToPositive(s.grid, Empty, p, LINE_SIZE * LINE_SIZE);
    PlaceCounts(s.grid, p, s.color);
    PlaceChangesRecord(s.grid, p, s.color);
  }

  ///// The starting position

  function InitialCell(p: Point): Cell
  {
    if !Playable(p) then Wall
    else if p == Point(4, 4) || p == Point(5, 5) then White
    else if p == Point(4, 5) || p == Point(5, 4) then Black
    else Empty
  }

  function InitialGrid(): (g: Grid)
    ensures Framed(g) && forall q {:trigger At(g, q)} | InGrid(q) :: At(g, q) == InitialCell(q)
  {
    seq(LINE_SIZE + 2, x => seq(LINE_SIZE + 2, y => InitialCell(Point(x, y))))
  }

  /** The starting contents of the k-th cell in scan order: D4 and E5 white, D5 and E4 black. */
  lemma InitialAt(k: int)
    requires 0 <= k < LINE_SIZE * LINE_SIZE
    ensures At(InitialGrid(), CellAt(k)) ==
      if k == 27 || k == 36 then White else if k == 28 || k == 35 then Black else Empty
  {
    var q := CellAt(k);
    assert At(InitialGrid(), q) == InitialCell(q);
    if k == 27 { assert q == Point(4, 4); }
    else if k == 28 { assert q == Point(4, 5); }
    else if k == 35 { assert q == Point(5, 4); }
    else if k == 36 { assert q == Point(5, 5); }
    else {
      assert IndexOf(q) == k;
    }
  }

  lemma {:induction false} InitialCountUpTo(k: nat)
    requires k <= LINE_SIZE * LINE_SIZE
    ensures CountUpTo(InitialGrid(), White, k) == (if k > 27 then 1 else 0) + (if k > 36 then 1 else 0)
    ensures CountUpTo(InitialGrid(), Black, k) == (if k > 28 then 1 else 0) + (if k > 35 then 1 else 0)
    ensures CountUpTo(InitialGrid(), Empty, k) ==
      k - (if k > 27 then 1 else 0) - (if k > 28 then 1 else 0) - (if k > 35 then 1 else 0) - (if k > 36 then 1 else 0)
  {
    if k > 0 {
      InitialCountUpTo(k - 1);
      InitialAt(k - 1);
    }
  }

  /** The starting board holds two discs of each colour and sixty empty cells (colorstorage = [2, 60, 2]). */
  lemma InitialCounts()
    ensures Count(InitialGrid(), White) == 2
    ensures Count(InitialGrid(), Empty) == MAX_TURNS
    ensures Count(InitialGrid(), Black) == 2
  {
    InitialCountUpTo(LINE_SIZE * LINE_SIZE);
  }

  /** A cell more than one step away from both white discs has no black move. */
  lemma InitialFar(p: Point)
    requires Playable(p) && (p.x < 3 || p.x > 6 || p.y < 3 || p.y > 6)
    ensures Mobility(InitialGrid(), p, Black) == NONE
  {
    var g := InitialGrid();
    forall d: Dir
      ensures At(g, Step(p, d)) != White
    {
      assert At(g, Step(p, d)) == InitialCell(Step(p, d));
    }
    Isolated(g, p, Black);
  }

  /** No direction flanks from q. */
  predicate Blocked(g: Grid, q: Point)
    requires Framed(g) && Playable(q)
  {
    forall d: Dir :: !Flanks(g, q, d, Black)
  }

  /** On the starting board black may play exactly at C4, D3, E6 and F5. */
  lemma InitialMobility(p: Point)
    requires Playable(p)
    ensures Mobility(InitialGrid(), p, Black) != NONE <==>
      p == Point(3, 4) || p == Point(4, 3) || p == Point(5, 6) || p == Point(6, 5)
  {
    if p == Point(3, 4) || p == Point(4, 3) || p == Point(5, 6) || p == Point(6, 5) {
      InitialMoves(p);
    } else {
      InitialNoMove(p);
    }
  }

  /** Each of the four opening cells flanks a white disc. */
  lemma InitialMoves(p: Point)
    requires p == Point(3, 4) || p == Point(4, 3) || p == Point(5, 6) || p == Point(6, 5)
    ensures Mobility(InitialGrid(), p, Black) != NONE
  {
    var g := InitialGrid();
    MobilityFlags(g, p, Black);
    if p == Point(3, 4) {
      assert Flanks(g, p, Right, Black);
    } else if p == Point(4, 3) {
      assert Flanks(g, p, Lower, Black);
    } else if p == Point(5, 6) {
      assert Flanks(g, p, Upper, Black);
    } else {
      assert Flanks(g, p, Left, Black);
    }
  }

  /** Every other playable cell of the starting board is occupied or flanks nothing. */
  lemma InitialNoMove(p: Point)
    requires Playable(p)
    requires p != Point(3, 4) && p != Point(4, 3) && p != Point(5, 6) && p != Point(6, 5)
    ensures Mobility(InitialGrid(), p, Black) == NONE
  {
    var g := InitialGrid();
    if p.x < 3 || p.x > 6 || p.y < 3 || p.y > 6 {
      InitialFar(p);
    } else if At(g, p) == Empty {
      InitialNear(p);
      MobilityFlags(g, p, Black);
    }
  }

  lemma InitialNear(p: Point)
    requires 3 <= p.x <= 6 && 3 <= p.y <= 6 && InitialCell(p) == Empty
    requires p != Point(3, 4) && p != Point(4, 3) && p != Point(5, 6) && p != Point(6, 5)
    ensures Blocked(InitialGrid(), p)
  {
    var g := InitialGrid();
    forall d: Dir
      ensures !Flanks(g, p, d, Black)
    {
      var n := Step(p, d);
      assert At(g, n) == InitialCell(n);
      if InitialCell(n) == White {
        var n2 := Step(n, d);
        assert At(g, n2) == InitialCell(n2);
        var n3 := Step(n2, d);
        assert At(g, n3) == InitialCell(n3);
      }
    }
  }

  /** The scan-order indices of C4, D3, E6 and F5. */
  predicate OpeningIndex(k: int)
  {
    k == 19 || k == 26 || k == 37 || k == 44
  }

  lemma InitialMovableAt(k: int)
    requires 0 <= k < LINE_SIZE * LINE_SIZE
    ensures (Mobility(InitialGrid(), CellAt(k), Black) != NONE) == OpeningIndex(k)
  {
    var q := CellAt(k);
    InitialMobility(q);
    if k == 19 {
      assert q == Point(3, 4);
    } else if k == 26 {
      assert q == Point(4, 3);
    } else if k == 37 {
      assert q == Point(5, 6);
    } else if k == 44 {
      assert q == Point(6, 5);
    } else {
      assert IndexOf(q) == k;
    }
  }

  /** The first-turn legal cells among the first k in scan order. */
  function InitialLegalPrefix(k: int): seq<Point>
  {
    if k <= 19 then []
    else if k <= 26 then [Point(3, 4)]
    else if k <= 37 then [Point(3, 4), Point(4, 3)]
    else if k <= 44 then [Point(3, 4), Point(4, 3), Point(5, 6)]
    else [Point(3, 4), Point(4, 3), Point(5, 6), Point(6, 5)]
  }

  lemma InitialLegalStep(k: int, movable: bool, a: seq<Point>, r: seq<Point>)
    requires 0 < k <= LINE_SIZE * LINE_SIZE
    requires a == InitialLegalPrefix(k - 1)
    requires r == a + (if movable then [CellAt(k - 1)] else [])
    requires movable == OpeningIndex(k - 1)
    ensures r == InitialLegalPrefix(k)
  {
    if movable {
      assert CellAt(k - 1) == if k - 1 == 19 then Point(3, 4) else if k - 1 == 26 then Point(4, 3)
        else if k - 1 == 37 then Point(5, 6) else Point(6, 5);
    }
  }

  /** The scan of a grid whose movable cells are those of the starting board collects the opening moves in order. */
  lemma {:induction false} InitialLegalUpTo(g: Grid, k: nat)
    requires Framed(g) && k <= LINE_SIZE * LINE_SIZE
    requires forall i | 0 <= i < LINE_SIZE * LINE_SIZE :: (Mobility(g, CellAt(i), Black) != NONE) == OpeningIndex(i)
    ensures LegalUpTo(g, Black, k) == InitialLegalPrefix(k)
  {
    if k > 0 {
      var a, m := LegalUpTo(g, Black, k - 1), Mobility(g, CellAt(k - 1), Black) != NONE;
      assert m == OpeningIndex(k - 1);
      assert LegalUpTo(g, Black, k) == a + (if m then [CellAt(k - 1)] else []);
      InitialLegalUpTo(g, k - 1);
      InitialLegalStep(k, m, a, LegalUpTo(g, Black, k));
    }
  }

  /** movable_pos of the first turn, in the order initMovable scans the board. */
  lemma InitialLegal()
    ensures LegalList(InitialGrid(), Black) == [Point(3, 4), Point(4, 3), Point(5, 6), Point(6, 5)]
  {
    forall i | 0 <= i < LINE_SIZE * LINE_SIZE
      ensures (Mobility(InitialGrid(), CellAt(i), Black) != NONE) == OpeningIndex(i)
    {
      InitialMovableAt(i);
    }
    InitialLegalUpTo(InitialGrid(), LINE_SIZE * LINE_SIZE);
  }

  ///// Histories: the positions a board has been through and the records it logged

  /** The position Board's constructor sets up: black to move at turn 0 on the starting grid. */
  ghost predicate IsInitial(s: Position)
  {
    Shaped(s.grid) && s.turns == 0 && s.color == Black && forall q {:trigger At(s.grid, q)} | InGrid(q) :: At(s.grid, q) == InitialCell(q)
  }

  /** The starting position is well formed, has two discs of each colour and sixty empty cells,
      and black has the four moves C4, D3, E6 and F5, so a first pass is refused. */
  lemma InitialPositionOK(s: Position)
    requires IsInitial(s)
    ensures PositionOK(s)
    ensures Count(s.grid, White) == 2 && Count(s.grid, Empty) == MAX_TURNS && Count(s.grid, Black) == 2
    ensures LegalList(s.grid, s.color) == [Point(3, 4), Point(4, 3), Point(5, 6), Point(6, 5)]
    ensures !CanPass(s)
  {
    GridExt(s.grid, InitialGrid());
    InitialCounts();
    InitialLegal();
  }

  /** rec is what updatelog receives when the board goes from s to t: [] for a pass, the
      flip record for a placement. */
  ghost predicate Logged(s: Position, rec: seq<Disc>, t: Position)
  {
    Framed(s.grid) &&
    if rec == [] then CanPass(s) && t == AfterPass(s)
    else CanMove(s, rec[0].pos) && rec == MoveRecord(s.grid, rec[0].pos, s.color) && t == AfterMove(s, rec[0].pos)
  }

  /** hist[i] is the position before log[i] and hist[i + 1] the one after it; the first entry is
      the starting position and the last is the current one. */
  ghost predicate Chain(hist: seq<Position>, log: seq<seq<Disc>>)
  {
    && |hist| == |log| + 1
    && IsInitial(hist[0])
    && (forall i | 0 <= i < |hist| :: PositionOK(hist[i]))
    && (forall i {:trigger Logged(hist[i], log[i], hist[i + 1])} | 0 <= i < |log| :: Logged(hist[i], log[i], hist[i + 1]))
  }

  lemma ChainExtend(hist: seq<Position>, log: seq<seq<Disc>>, rec: seq<Disc>, t: Position)
    requires Chain(hist, log) && Logged(hist[|hist| - 1], rec, t) && PositionOK(t)
    ensures Chain(hist + [t], log + [rec])
  {
    var h, l := hist + [t], log + [rec];
    forall i | 0 <= i < |h|
      ensures PositionOK(h[i])
    {
      if i < |hist| {
        assert h[i] == hist[i];
      }
    }
    forall i | 0 <= i < |l|
      ensures Logged(h[i], l[i], h[i + 1])
    {
      if i < |log| {
        assert Logged(hist[i], log[i], hist[i + 1]);
        assert h[i] == hist[i] && h[i + 1] == hist[i + 1] && l[i] == log[i];
      } else {
        assert h[i] == hist[|hist| - 1] && l[i] == rec && h[i + 1] == t;
      }
    }
  }

  /** An empty record logs a pass, which is only allowed when the mover has no legal cell. */
  lemma LoggedPass(s: Position, rec: seq<Disc>, t: Position)
    requires Logged(s, rec, t) && rec == []
    ensures CanPass(s) && t == AfterPass(s)
  {
  }

  /** A logged step advances the turn counter by one for a placement and by none for a pass. */
  lemma LoggedTurns(s: Position, rec: seq<Disc>, t: Position)
    requires Logged(s, rec, t)
    ensures t.turns == s.turns + (if rec == [] then 0 else 1)
  {
  }

  lemma ChainPop(hist: seq<Position>, log: seq<seq<Disc>>)
    requires Chain(hist, log) && |log| > 0
    ensures Chain(hist[..|hist| - 1], log[..|log| - 1])
  {
  }

  /** The starting position cannot be passed, so the first record is a placement. */
  lemma FirstRecordIsMove(hist: seq<Position>, log: seq<seq<Disc>>)
    requires Chain(hist, log) && |log| > 0
    ensures log[0] != []
  {
    var k := 0;
    if log[k] == [] {
      assert Logged(hist[k], log[k], hist[k + 1]);
      LoggedPass(hist[k], log[k], hist[k + 1]);
      InitialPositionOK(hist[0]);
      assert false;
    }
  }

  lemma {:induction false} TurnsGrow(hist: seq<Position>, log: seq<seq<Disc>>, j: int)
    requires |hist| == |log| + 1 && 0 <= j < |hist|
    requires forall i | 0 <= i < |log| :: hist[i + 1].turns == hist[i].turns + (if log[i] == [] then 0 else 1)
    ensures forall i | 0 <= i <= j :: hist[i].turns <= hist[j].turns
    ensures forall i | 0 <= i < j && log[i] != [] :: hist[i].turns < hist[j].turns
  {
    if j > 0 {
      TurnsGrow(hist, log, j - 1);
    }
  }

  /** Turn counters never decrease along a history, and grow past every placement. */
  lemma ChainTurns(hist: seq<Position>, log: seq<seq<Disc>>, j: int)
    requires Chain(hist, log) && 0 <= j < |hist|
    ensures forall i | 0 <= i <= j :: hist[i].turns <= hist[j].turns
    ensures forall i | 0 <= i < j && log[i] != [] :: hist[i].turns < hist[j].turns
    ensures j > 0 ==> hist[j].turns > 0
  {
    forall i | 0 <= i < |log|
      ensures hist[i + 1].turns == hist[i].turns + (if log[i] == [] then 0 else 1)
    {
      LoggedTurns(hist[i], log[i], hist[i + 1]);
    }
    TurnsGrow(hist, log, j);
    if j > 0 {
      FirstRecordIsMove(hist, log);
      assert hist[0].turns == 0;
    }
  }

  /** No record is logged while the turn counter is zero (why undo may test `turns` alone). */
  lemma ChainTurnZero(hist: seq<Position>, log: seq<seq<Disc>>)
    requires Chain(hist, log)
    ensures hist[|hist| - 1].turns == 0 <==> log == []
  {
    ChainTurns(hist, log, |hist| - 1);
  }
}
