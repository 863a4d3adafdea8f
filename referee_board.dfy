/** The referee's `Board` object (interface.py): the grid, the turn counter, the colour to
    move, the log of flip records, the per-turn caches of direction masks and legal cells, and
    the disc counts, all updated in place by `move`, `move_pass` and `undo`. */
module RefereeBoard {
  import opened RefereeRules

  const GRID := LINE_SIZE + 2

  /** One turn's direction masks, indexed [x][y] over the whole framed grid (movable_dir[t]). */
  type Layer = seq<seq<Mask>>

  predicate LayerShaped(l: Layer)
  {
    |l| == GRID && forall x | 0 <= x < GRID :: |l[x]| == GRID
  }

  /** movable_dir has one layer per turn 0..MAXTURNS. */
  predicate TableShaped(m: seq<Layer>)
  {
    |m| == MAX_TURNS + 1 && forall t | 0 <= t < |m| :: LayerShaped(m[t])
  }

  /** initMovable never writes the frame, so its masks stay NONE there. */
  predicate FrameClear(m: seq<Layer>)
    requires TableShaped(m)
  {
    forall t, x, y {:trigger m[t][x][y]} | 0 <= t < |m| && 0 <= x < GRID && 0 <= y < GRID && !Playable(Point(x, y)) :: m[t][x][y] == NONE
  }

  /** `movable_dir[t][x][y] = v`. */
  function PutDir(m: seq<Layer>, t: int, x: int, y: int, v: Mask): (r: seq<Layer>)
    requires TableShaped(m) && 0 <= t < |m| && 0 <= x < GRID && 0 <= y < GRID
    ensures TableShaped(r)
    ensures forall u | 0 <= u < |m| && u != t :: r[u] == m[u]
    ensures forall x', y' | 0 <= x' < GRID && 0 <= y' < GRID :: r[t][x'][y'] == if x' == x && y' == y then v else m[t][x'][y']
  {
    m[t := m[t][x := m[t][x][y := v]]]
  }

  /** Column x of layer l holds the masks of c on g for its first y - 1 playable cells, and
      every other entry is the one of l0. */
  ghost predicate ColumnScanned(l: Layer, l0: Layer, g: Grid, c: Color, x: int, y: int)
    requires LayerShaped(l) && LayerShaped(l0) && Framed(g)
  {
    forall x', y' {:trigger l[x'][y']} | 0 <= x' < GRID && 0 <= y' < GRID ::
      l[x'][y'] == if Playable(Point(x', y')) && x' == x && y' < y then Mobility(g, Point(x', y'), c) else l0[x'][y']
  }

  /** Caching the mask of (x, y) extends the scanned part of column x by one cell. */
  lemma ColumnScannedStep(l: Layer, l0: Layer, g: Grid, c: Color, x: int, y: int)
    requires LayerShaped(l) && LayerShaped(l0) && Framed(g) && Playable(Point(x, y))
    requires ColumnScanned(l, l0, g, c, x, y)
    ensures LayerShaped(l[x := l[x][y := Mobility(g, Point(x, y), c)]])
    ensures ColumnScanned(l[x := l[x][y := Mobility(g, Point(x, y), c)]], l0, g, c, x, y + 1)
  {
    var l' := l[x := l[x][y := Mobility(g, Point(x, y), c)]];
    forall x', y' | 0 <= x' < GRID && 0 <= y' < GRID
      ensures l'[x'][y'] == if Playable(Point(x', y')) && x' == x && y' < y + 1 then Mobility(g, Point(x', y'), c) else l0[x'][y']
    {
      if x' != x || y' != y {
        assert l'[x'][y'] == l[x'][y'];
      }
    }
  }

  /** The mask a cached layer holds for (x, y) when it was computed for colour c on grid g. */
  function DirFor(g: Grid, c: Color, x: int, y: int): Mask
    requires Framed(g)
  {
    if Playable(Point(x, y)) then Mobility(g, Point(x, y), c) else NONE
  }

  /** The index of a colour (or EMPTY) in colorstorage: `value + 1`. */
  function Slot(v: Cell): int
    requires v != Wall
  {
    match v
    case White => 0
    case Empty => 1
    case Black => 2
  }

  /** colorstorage as it should be: [white discs, empty cells, black discs]. */
  function Tally(g: Grid): seq<int>
    requires Shaped(g)
  {
    [Count(g, White), Count(g, Empty), Count(g, Black)]
  }

  /** flipDiscs' update of colorstorage after c logged a record of n discs. */
  function Recount(cs: seq<int>, c: Color, n: int): seq<int>
    requires |cs| == 3
  {
    var a := cs[Slot(c) := cs[Slot(c)] + n];
    var b := a[Slot(Opp(c)) := a[Slot(Opp(c))] - (n - 1)];
    b[Slot(Empty) := b[Slot(Empty)] - 1]
  }

  /** undo's update of colorstorage when it pops a record of n discs placed by c. */
  function Uncount(cs: seq<int>, c: Color, n: int): seq<int>
    requires |cs| == 3
  {
    var a := cs[Slot(c) := cs[Slot(c)] - n];
    var b := a[Slot(Opp(c)) := a[Slot(Opp(c))] + (n - 1)];
    b[Slot(Empty) := b[Slot(Empty)] + 1]
  }

  lemma RecountOf(w: int, e: int, b: int, w1: int, e1: int, b1: int, c: Color, n: int)
    requires e1 == e - 1
    requires c == Black ==> w1 == w - (n - 1) && b1 == b + n
    requires c == White ==> w1 == w + n && b1 == b - (n - 1)
    ensures [w1, e1, b1] == Recount([w, e, b], c, n)
  {
  }

  /** The incremental count update of flipDiscs agrees with recounting the new grid. */
  lemma PlaceTally(g: Grid, p: Point, c: Color)
    requires Framed(g) && Playable(p) && At(g, p) == Empty
    ensures Tally(Place(g, p, c)) == Recount(Tally(g), c, |MoveRecord(g, p, c)|)
  {
    var g1 := Place(g, p, c);
    PlaceCounts(g, p, c);
    RecountOf(Count(g, White), Count(g, Empty), Count(g, Black), Count(g1, White), Count(g1, Empty), Count(g1, Black),
      c, |MoveRecord(g, p, c)|);
  }

  /** undo's count update reverses flipDiscs' one. */
  lemma UncountRecount(cs: seq<int>, c: Color, n: int)
    requires |cs| == 3
    ensures Uncount(Recount(cs, c, n), c, n) == cs
  {
  }

  ///// What the fields must satisfy between two operations

  /** The caches of turn s.turns hold the legal cells and masks of position s. */
  ghost predicate Cached(md: seq<Layer>, mp: seq<seq<Point>>, s: Position)
    requires TableShaped(md) && |mp| == MAX_TURNS + 1 && PositionOK(s)
  {
    && mp[s.turns] == LegalList(s.grid, s.color)
    && forall x, y | 0 <= x < GRID && 0 <= y < GRID :: md[s.turns][x][y] == DirFor(s.grid, s.color, x, y)
  }

  /** The caches of every position a placement was made from are still in place. */
  ghost predicate CachedLog(md: seq<Layer>, mp: seq<seq<Point>>, hist: seq<Position>, log: seq<seq<Disc>>)
  {
    && TableShaped(md) && |mp| == MAX_TURNS + 1 && |hist| == |log| + 1
    && forall i | 0 <= i < |log| && log[i] != [] :: PositionOK(hist[i]) && Cached(md, mp, hist[i])
  }

  lemma CachedLogSnoc(md: seq<Layer>, mp: seq<seq<Point>>, hist: seq<Position>, log: seq<seq<Disc>>,
                      t: Position, rec: seq<Disc>)
    requires CachedLog(md, mp, hist, log)
    requires rec != [] ==> PositionOK(hist[|hist| - 1]) && Cached(md, mp, hist[|hist| - 1])
    ensures CachedLog(md, mp, hist + [t], log + [rec])
  {
    var h, l := hist + [t], log + [rec];
    forall i | 0 <= i < |l| && l[i] != []
      ensures PositionOK(h[i]) && Cached(md, mp, h[i])
    {
      assert h[i] == hist[i];
      if i < |log| {
        assert l[i] == log[i];
      }
    }
  }

  lemma CachedLogPop(md: seq<Layer>, mp: seq<seq<Point>>, hist: seq<Position>, log: seq<seq<Disc>>)
    requires CachedLog(md, mp, hist, log) && |log| > 0
    ensures CachedLog(md, mp, hist[..|hist| - 1], log[..|log| - 1])
  {
    var h, l := hist[..|hist| - 1], log[..|log| - 1];
    forall i | 0 <= i < |l| && l[i] != []
      ensures PositionOK(h[i]) && Cached(md, mp, h[i])
    {
      assert h[i] == hist[i] && l[i] == log[i];
    }
  }

  /** The caches, the counts and the log agree with the history of positions hist: the counts
      and the caches of the current turn describe the last position, and the caches of every
      position a placement was made from are still in place, so that undo can return to it. */
  ghost predicate Consistent(md: seq<Layer>, mp: seq<seq<Point>>, cs: seq<int>, hist: seq<Position>, log: seq<seq<Disc>>)
  {
    && TableShaped(md) && FrameClear(md) && |mp| == MAX_TURNS + 1
    && Chain(hist, log)
    && cs == Tally(hist[|hist| - 1].grid)
    && Cached(md, mp, hist[|hist| - 1])
    && CachedLog(md, mp, hist, log)
  }

  /** md' and mp' are md and mp after initMovable has rescanned turn s.turns for position s. */
  ghost predicate Rescanned(md: seq<Layer>, mp: seq<seq<Point>>, md': seq<Layer>, mp': seq<seq<Point>>, s: Position)
  {
    && TableShaped(md) && TableShaped(md') && |mp| == MAX_TURNS + 1 && PositionOK(s)
    && mp' == mp[s.turns := LegalList(s.grid, s.color)]
    && (forall u | 0 <= u < |md| && u != s.turns :: md'[u] == md[u])
    && forall x, y {:trigger md'[s.turns][x][y]} | 0 <= x < GRID && 0 <= y < GRID ::
      md'[s.turns][x][y] == if Playable(Point(x, y)) then Mobility(s.grid, Point(x, y), s.color) else md[s.turns][x][y]
  }

  lemma RescanCached(md: seq<Layer>, mp: seq<seq<Point>>, md': seq<Layer>, mp': seq<seq<Point>>, s: Position)
    requires Rescanned(md, mp, md', mp', s) && FrameClear(md)
    ensures FrameClear(md') && Cached(md', mp', s)
  {
  }

  /** Caches of positions at other turns survive a change of layer t. */
  lemma KeepOthers(hist: seq<Position>, log: seq<seq<Disc>>, md: seq<Layer>, mp: seq<seq<Point>>,
                   md': seq<Layer>, mp': seq<seq<Point>>, t: int)
    requires CachedLog(md, mp, hist, log) && TableShaped(md') && |mp'| == MAX_TURNS + 1
    requires forall u | 0 <= u < |md| && u != t :: md'[u] == md[u] && mp'[u] == mp[u]
    requires forall i | 0 <= i < |log| && log[i] != [] :: hist[i].turns != t
    ensures CachedLog(md', mp', hist, log)
  {
    forall i | 0 <= i < |log| && log[i] != []
      ensures Cached(md', mp', hist[i])
    {
      var u := hist[i].turns;
      assert md'[u] == md[u] && mp'[u] == mp[u];
    }
  }

  /** The caches after move's rescan: the new turn holds the new position's, the others survive. */
  lemma MoveCaches(md: seq<Layer>, mp: seq<seq<Point>>, hist: seq<Position>, log: seq<seq<Disc>>,
                   p: Point, rec: seq<Disc>, md': seq<Layer>, mp': seq<seq<Point>>)
    requires Chain(hist, log) && TableShaped(md) && FrameClear(md) && |mp| == MAX_TURNS + 1
    requires Cached(md, mp, hist[|hist| - 1]) && CachedLog(md, mp, hist, log)
    requires CanMove(hist[|hist| - 1], p) && PositionOK(AfterMove(hist[|hist| - 1], p))
    requires Rescanned(md, mp, md', mp', AfterMove(hist[|hist| - 1], p))
    ensures FrameClear(md') && Cached(md', mp', AfterMove(hist[|hist| - 1], p))
    ensures CachedLog(md', mp', hist + [AfterMove(hist[|hist| - 1], p)], log + [rec])
  {
    var s := hist[|hist| - 1];
    var t := AfterMove(s, p);
    RescanCached(md, mp, md', mp', t);
    ChainTurns(hist, log, |hist| - 1);
    KeepOthers(hist, log, md, mp, md', mp', t.turns);
    assert md'[s.turns] == md[s.turns] && mp'[s.turns] == mp[s.turns];
    CachedLogSnoc(md', mp', hist, log, t, rec);
  }

  /** move keeps the fields consistent: a placement at p, then a rescan of the next turn. */
  lemma MoveKeeps(md: seq<Layer>, mp: seq<seq<Point>>, cs: seq<int>, hist: seq<Position>, log: seq<seq<Disc>>,
                  p: Point, md': seq<Layer>, mp': seq<seq<Point>>)
    requires Consistent(md, mp, cs, hist, log) && CanMove(hist[|hist| - 1], p)
    requires Rescanned(md, mp, md', mp', AfterMove(hist[|hist| - 1], p))
    ensures Consistent(md', mp',
      Recount(cs, hist[|hist| - 1].color, |MoveRecord(hist[|hist| - 1].grid, p, hist[|hist| - 1].color)|),
      hist + [AfterMove(hist[|hist| - 1], p)],
      log + [MoveRecord(hist[|hist| - 1].grid, p, hist[|hist| - 1].color)])
  {
    var s := hist[|hist| - 1];
    var t, rec := AfterMove(s, p), MoveRecord(s.grid, p, s.color);
    AfterMoveOK(s, p);
    ChainExtend(hist, log, rec, t);
    PlaceTally(s.grid, p, s.color);
    MoveCaches(md, mp, hist, log, p, rec, md', mp');
  }

  /** move_pass keeps the fields consistent: the colour changes and the turn is rescanned. */
  lemma PassKeeps(md: seq<Layer>, mp: seq<seq<Point>>, cs: seq<int>, hist: seq<Position>, log: seq<seq<Disc>>,
                  md': seq<Layer>, mp': seq<seq<Point>>)
    requires Consistent(md, mp, cs, hist, log) && CanPass(hist[|hist| - 1])
    requires Rescanned(md, mp, md', mp', AfterPass(hist[|hist| - 1]))
    ensures Consistent(md', mp', cs, hist + [AfterPass(hist[|hist| - 1])], log + [[]])
  {
    var s := hist[|hist| - 1];
    var t := AfterPass(s);
    ChainExtend(hist, log, [], t);
    RescanCached(md, mp, md', mp', t);
    ChainTurns(hist, log, |hist| - 1);
    KeepOthers(hist, log, md, mp, md', mp', t.turns);
    CachedLogSnoc(md', mp', hist, log, t, []);
  }

  /** The last record of a chain is a pass: the position before it differs only in the colour
      to move, which had no legal cell. */
  lemma PassLast(hist: seq<Position>, log: seq<seq<Disc>>)
    requires Chain(hist, log) && |log| > 0 && log[|log| - 1] == []
    ensures hist[|hist| - 2] == Position(hist[|hist| - 1].grid, hist[|hist| - 1].turns, Opp(hist[|hist| - 1].color))
    ensures Framed(hist[|hist| - 2].grid) && CanPass(hist[|hist| - 2]) && NoMoves(hist[|hist| - 2].grid, hist[|hist| - 2].color)
  {
    var n := |log| - 1;
    var s, rec, t := hist[n], log[n], hist[n + 1];
    assert s == hist[|hist| - 2] && t == hist[|hist| - 1];
    assert Logged(hist[n], log[n], hist[n + 1]);
    LoggedPass(s, rec, t);
    LegalListEmpty(s.grid, s.color);
  }

  /** undo of a pass keeps the fields consistent: clearing the current turn's caches leaves the
      (empty) caches of the position the pass was made from. */
  lemma UndoPassKeeps(md: seq<Layer>, mp: seq<seq<Point>>, cs: seq<int>, hist: seq<Position>, log: seq<seq<Disc>>,
                      md': seq<Layer>, mp': seq<seq<Point>>)
    requires Consistent(md, mp, cs, hist, log) && |log| > 0 && log[|log| - 1] == []
    requires TableShaped(md') && mp' == mp[hist[|hist| - 1].turns := []]
    requires forall u | 0 <= u < |md| && u != hist[|hist| - 1].turns :: md'[u] == md[u]
    requires forall x, y {:trigger md'[hist[|hist| - 1].turns][x][y]} | 0 <= x < GRID && 0 <= y < GRID ::
      md'[hist[|hist| - 1].turns][x][y] == if Playable(Point(x, y)) then NONE else md[hist[|hist| - 1].turns][x][y]
    ensures hist[|hist| - 2] == Position(hist[|hist| - 1].grid, hist[|hist| - 1].turns, Opp(hist[|hist| - 1].color))
    ensures Consistent(md', mp', cs, hist[..|hist| - 1], log[..|log| - 1])
  {
    var n := |log| - 1;
    var s, t := hist[n], hist[n + 1];
    PassLast(hist, log);
    ChainPop(hist, log);
    CachedLogPop(md, mp, hist, log);
    var h, l := hist[..n + 1], log[..n];
    assert h[|h| - 1] == s;
    ChainTurns(h, l, n);
    KeepOthers(h, l, md, mp, md', mp', t.turns);
  }

  /** One `if direc & D != 0` block of flipDiscs on the grid b0 that the blocks before it
      produced: walks from the neighbour of p in direction DirAt(i), painting cells with c until
      it meets one, and appends a disc to the record for each painted cell. g0 is the grid
      before the placement. */
  method FlipLine(ghost g0: Grid, b0: Grid, p: Point, c: Color, i: nat, update0: seq<Disc>) returns (b: Grid, update: seq<Disc>)
    requires Framed(g0) && Playable(p) && i < 8 && Flanks(g0, p, DirAt(i), c)
    requires b0 == Paint(g0, [p] + FlipsUpTo(g0, p, c, i), c)
    ensures b == Paint(g0, [p] + FlipsUpTo(g0, p, c, i + 1), c)
    ensures update == update0 + Colored(FlipRun(g0, p, DirAt(i), c), c)
  {
    var d := DirAt(i);
    var q := Step(p, d);
    ghost var k := 0;
    b, update := b0, update0;
    WalkStart(g0, p, c, i, update0);
    while At(b, q) != c
      invariant Walked(g0, p, c, i, k, b, update0, update, q)
      decreases |FlipRun(g0, p, d, c)| - k
    {
      WalkStep(g0, p, c, i, k, b, update0, update, q);
      b := Set(b, q, c);
      update := update + [Disc(q, c)];
      q := Step(q, d);
      k := k + 1;
    }
    WalkEnd(g0, p, c, i, k, b, update0, update, q);
  }

  /** The body of flipDiscs up to the log append: p painted, then the eight direction blocks
      in the order of DirAt, each run only when its flag is in direc. */
  method FlipAll(g0: Grid, p: Point, c: Color, direc: Mask) returns (b: Grid, update: seq<Disc>)
    requires Framed(g0) && Playable(p)
    requires forall d: Dir {:trigger Flanks(g0, p, d, c)} :: (direc & Flag(d) != NONE) == Flanks(g0, p, d, c)
    ensures b == Place(g0, p, c) && update == MoveRecord(g0, p, c)
  {
    b, update := FlipBlocks(g0, p, c, direc);
    FlipsDone(g0, p, c, b, update);
  }

  /** The eight direction blocks of flipDiscs after p has been painted. */
  method FlipBlocks(g0: Grid, p: Point, c: Color, direc: Mask) returns (b: Grid, update: seq<Disc>)
    requires Framed(g0) && Playable(p)
    requires forall d: Dir {:trigger Flanks(g0, p, d, c)} :: (direc & Flag(d) != NONE) == Flanks(g0, p, d, c)
    ensures b == Paint(g0, [p] + FlipsUpTo(g0, p, c, 8), c)
    ensures update == [Disc(p, c)] + Colored(FlipsUpTo(g0, p, c, 8), c)
  {
    b := Set(g0, p, c);
    update := [Disc(p, c)];
    FlipsStart(g0, p, c);
    b, update := FlipPair(g0, b, p, c, direc, 0, 2, update);
    b, update := FlipPair(g0, b, p, c, direc, 2, 4, update);
    b, update := FlipPair(g0, b, p, c, direc, 4, 6, update);
    b, update := FlipPair(g0, b, p, c, direc, 6, 8, update);
  }

  /** Two consecutive direction blocks of flipDiscs, i and i + 1. */
  method FlipPair(ghost g0: Grid, b0: Grid, p: Point, c: Color, direc: Mask, i: nat, ghost j: nat, update0: seq<Disc>)
    returns (b: Grid, update: seq<Disc>)
    requires Framed(g0) && Playable(p) && j == i + 2 <= 8
    requires forall d: Dir {:trigger Flanks(g0, p, d, c)} :: (direc & Flag(d) != NONE) == Flanks(g0, p, d, c)
    requires b0 == Paint(g0, [p] + FlipsUpTo(g0, p, c, i), c)
    requires update0 == [Disc(p, c)] + Colored(FlipsUpTo(g0, p, c, i), c)
    ensures b == Paint(g0, [p] + FlipsUpTo(g0, p, c, j), c)
    ensures update == [Disc(p, c)] + Colored(FlipsUpTo(g0, p, c, j), c)
  {
    b, update := FlipBlock(g0, b0, p, c, direc, i, i + 1, update0);
    b, update := FlipBlock(g0, b, p, c, direc, i + 1, j, update);
  }

  /** Block i of flipDiscs: walks direction DirAt(i) when its flag is in direc. */
  method FlipBlock(ghost g0: Grid, b0: Grid, p: Point, c: Color, direc: Mask, i: nat, ghost j: nat, update0: seq<Disc>)
    returns (b: Grid, update: seq<Disc>)
    requires Framed(g0) && Playable(p) && i < 8 && j == i + 1
    requires forall d: Dir {:trigger Flanks(g0, p, d, c)} :: (direc & Flag(d) != NONE) == Flanks(g0, p, d, c)
    requires b0 == Paint(g0, [p] + FlipsUpTo(g0, p, c, i), c)
    requires update0 == [Disc(p, c)] + Colored(FlipsUpTo(g0, p, c, i), c)
    ensures b == Paint(g0, [p] + FlipsUpTo(g0, p, c, j), c)
    ensures update == [Disc(p, c)] + Colored(FlipsUpTo(g0, p, c, j), c)
  {
    FlipsNext(g0, p, c, i, update0);
    b, update := b0, update0;
    if direc & Flag(DirAt(i)) != NONE {
      b, update := FlipLine(g0, b, p, c, i, update);
    }
  }

  /** undo's loop over a popped placement record: empties the placed cell and gives every
      flipped cell back to colour o. */
  method RestoreDiscs(g0: Grid, update: seq<Disc>, o: Color) returns (b: Grid)
    requires Shaped(g0) && update != [] && forall i | 0 <= i < |update| :: InGrid(update[i].pos)
    ensures b == Unplace(g0, update, o)
  {
    b := Set(g0, update[0].pos, Empty);
    assert Positions(update[1..1]) == [];
    for i := 1 to |update|
      invariant Shaped(b)
      invariant b == Paint(Set(g0, update[0].pos, Empty), Positions(update[1..i]), o)
    {
      UnplaceStep(g0, update, o, i);
      b := Set(b, update[i].pos, o);
    }
    assert update[1..|update|] == update[1..];
  }

  /** A logged placement undone on positions: Unplace, giving the flipped cells back to the
      colour that did not move, yields the grid before it, and Uncount gives back its counts. */
  lemma UndoLogged(s: Position, rec: seq<Disc>, t: Position)
    requires Logged(s, rec, t) && rec != []
    ensures t.turns == s.turns + 1 && t.color == Opp(s.color)
    ensures forall i | 0 <= i < |rec| :: InGrid(rec[i].pos)
    ensures s == Position(Unplace(t.grid, rec, t.color), t.turns - 1, Opp(t.color))
    ensures Uncount(Tally(t.grid), s.color, |rec|) == Tally(s.grid)
  {
    var p := rec[0].pos;
    UnplacePlace(s.grid, p, s.color);
    PlaceTally(s.grid, p, s.color);
    UncountRecount(Tally(s.grid), s.color, |rec|);
  }

  /** UndoLogged for the last record of a chain. */
  lemma UndoLast(hist: seq<Position>, log: seq<seq<Disc>>)
    requires Chain(hist, log) && |log| > 0 && log[|log| - 1] != []
    ensures hist[|hist| - 1].turns == hist[|hist| - 2].turns + 1 && hist[|hist| - 1].color == Opp(hist[|hist| - 2].color)
    ensures forall i {:trigger log[|log| - 1][i]} | 0 <= i < |log[|log| - 1]| :: InGrid(log[|log| - 1][i].pos)
    ensures hist[|hist| - 2] ==
      Position(Unplace(hist[|hist| - 1].grid, log[|log| - 1], hist[|hist| - 1].color), hist[|hist| - 1].turns - 1, Opp(hist[|hist| - 1].color))
    ensures Uncount(Tally(hist[|hist| - 1].grid), hist[|hist| - 2].color, |log[|log| - 1]|) == Tally(hist[|hist| - 2].grid)
  {
    var n := |log| - 1;
    var s, rec, t := hist[n], log[n], hist[n + 1];
    assert s == hist[|hist| - 2] && t == hist[|hist| - 1];
    assert Logged(hist[n], log[n], hist[n + 1]);
    UndoLogged(s, rec, t);
  }

  /** undo of a placement keeps the fields consistent: the popped record restores the grid and
      the counts of the position it was made from, whose caches were left in place. */
  lemma UndoMoveKeeps(md: seq<Layer>, mp: seq<seq<Point>>, cs: seq<int>, hist: seq<Position>, log: seq<seq<Disc>>,
                      b: Grid, t: int, c: Color)
    requires Consistent(md, mp, cs, hist, log) && |log| > 0 && log[|log| - 1] != []
    requires hist[|hist| - 1] == Position(b, t, c)
    ensures t > 0 && Shaped(b)
    ensures forall i {:trigger log[|log| - 1][i]} | 0 <= i < |log[|log| - 1]| :: InGrid(log[|log| - 1][i].pos)
    ensures var h := hist[..|hist| - 1]; h[|h| - 1] == Position(Unplace(b, log[|log| - 1], c), t - 1, Opp(c))
    ensures Consistent(md, mp, Uncount(cs, Opp(c), |log[|log| - 1]|), hist[..|hist| - 1], log[..|log| - 1])
  {
    var n := |log| - 1;
    UndoLast(hist, log);
    ChainPop(hist, log);
    CachedLogPop(md, mp, hist, log);
    assert hist[..n + 1][n] == hist[n];
  }

  /** The grid Board's constructor builds: all EMPTY, then WALL on rows and columns 0 and 9,
      then white on D4 and E5 and black on D5 and E4. */
  method NewGrid() returns (g: Grid)
    ensures Framed(g) && forall q {:trigger At(g, q)} | InGrid(q) :: At(g, q) == InitialCell(q)
  {
    g := seq(GRID, _ => seq(GRID, _ => Empty));
    for x := 0 to GRID
      invariant Shaped(g)
      invariant forall q {:trigger At(g, q)} | InGrid(q) ::
        At(g, q) == if q.x < x && (q.y == 0 || q.y == GRID - 1) then Wall else Empty
    {
      g := Set(g, Point(x, 0), Wall);
      g := Set(g, Point(x, GRID - 1), Wall);
    }
    for y := 0 to GRID
      invariant Shaped(g)
      invariant forall q {:trigger At(g, q)} | InGrid(q) ::
        At(g, q) == if q.y == 0 || q.y == GRID - 1 || (q.y < y && (q.x == 0 || q.x == GRID - 1)) then Wall else Empty
    {
      g := Set(g, Point(0, y), Wall);
      g := Set(g, Point(GRID - 1, y), Wall);
    }
    g := Set(g, Point(4, 4), White);
    g := Set(g, Point(5, 5), White);
    g := Set(g, Point(4, 5), Black);
    g := Set(g, Point(5, 4), Black);
  }

  class Board {
    var board: Grid
    var turns: int
    var currentcolor: Color
    var updatelog: seq<seq<Disc>>
    var movableDir: seq<Layer>
    var movablePos: seq<seq<Point>>
    var colorstorage: seq<int>
    /** hist[i] is the position before updatelog[i]; the last entry is the current position. */
    ghost var hist: seq<Position>

    /** Board(): the starting grid, turn 0 with black to move, an empty log, empty caches for
        every turn, the counts [2, 60, 2], and the caches of turn 0 filled by initMovable. */
    constructor ()
      ensures Valid() && IsInitial(Current()) && updatelog == []
      ensures colorstorage == [2, MAX_TURNS, 2]
      ensures movablePos[0] == [Point(3, 4), Point(4, 3), Point(5, 6), Point(6, 5)]
      ensures forall t | 0 < t <= MAX_TURNS :: movablePos[t] == []
    {
      var g := NewGrid();
      board := g;
      turns := 0;
      currentcolor := Black;
      updatelog := [];
      movableDir := seq(MAX_TURNS + 1, _ => seq(GRID, _ => seq(GRID, _ => NONE)));
      movablePos := seq(MAX_TURNS + 1, _ => []);
      colorstorage := [2, LINE_SIZE * LINE_SIZE - 4, 2];
      new;
      InitialPositionOK(Current());
      ghost var md, mp := movableDir, movablePos;
      InitMovable();
      RescanCached(md, mp, movableDir, movablePos, Current());
      hist := [Current()];
    }

    function Current(): Position
      reads this
    {
      Position(board, turns, currentcolor)
    }

    /** The fields agree with the history of positions: see Consistent. */
    ghost predicate Valid()
      reads this
    {
      Consistent(movableDir, movablePos, colorstorage, hist, updatelog) && hist[|hist| - 1] == Current()
    }

    /** The walk over opposing discs used by every block of checkMobility. */
    method WalkOver(q: Point, d: Dir, c: Color) returns (r: Point)
      requires Framed(board) && InGrid(q)
      ensures InGrid(r) && At(board, r) != Opp(c)
      ensures (At(board, r) == c) == EndsOn(board, q, d, c)
    {
      r := q;
      while At(board, r) == Opp(c)
        invariant InGrid(r) && EndsOn(board, r, d, c) == EndsOn(board, q, d, c)
        decreases Dist(r, d)
      {
        r := Step(r, d);
      }
    }

    /** One block of checkMobility: the neighbour in direction d is an opposing disc and
        the walk over opposing discs that starts behind it stops on a disc of colour c. */
    method Flanking(p: Point, d: Dir, c: Color) returns (b: bool)
      requires Framed(board) && Playable(p)
      ensures b == Flanks(board, p, d, c)
    {
      var n := Step(p, d);
      b := false;
      if At(board, n) == Opp(c) {
        var end := WalkOver(Step(n, d), d, c);
        b := At(board, end) == c;
      }
    }

    /** checkMobility: the flags of the directions in which c placed at p flanks. */
    method CheckMobility(p: Point, c: Color) returns (direc: Mask)
      requires Framed(board) && Playable(p)
      ensures direc == Mobility(board, p, c)
    {
      if At(board, p) != Empty {
        return NONE;
      }
      direc := NONE;
      direc := Block(direc, p, c, 0, 1);
      direc := Block(direc, p, c, 1, 2);
      direc := Block(direc, p, c, 2, 3);
      direc := Block(direc, p, c, 3, 4);
      direc := Block(direc, p, c, 4, 5);
      direc := Block(direc, p, c, 5, 6);
      direc := Block(direc, p, c, 6, 7);
      direc := Block(direc, p, c, 7, 8);
    }

    /** Block i of checkMobility: or the flag of direction DirAt(i) into the mask when c flanks
        in that direction. */
    method Block(direc0: Mask, p: Point, c: Color, i: nat, ghost j: nat) returns (direc: Mask)
      requires Framed(board) && Playable(p) && i < 8 && j == i + 1
      requires direc0 == MaskUpTo(board, p, c, i)
      ensures direc == MaskUpTo(board, p, c, j)
    {
      var d := DirAt(i);
      MaskUpToUnfold(board, p, c, i, j);
      direc := direc0;
      var b := Flanking(p, d, c);
      if b {
        direc := direc | Flag(d);
      }
    }

    /** initMovable: recomputes the caches of the current turn for the colour to move.
        The list of legal cells is built in a local and stored once, which is the same as
        the source's appends to `movable_pos[turns]` since nothing reads it meanwhile. */
    method InitMovable()
      requires Framed(board) && 0 <= turns <= MAX_TURNS
      requires TableShaped(movableDir) && |movablePos| == MAX_TURNS + 1
      modifies this`movableDir, this`movablePos
      ensures TableShaped(movableDir)
      ensures movablePos == old(movablePos)[turns := LegalList(board, currentcolor)]
      ensures forall u | 0 <= u < |movableDir| && u != turns :: movableDir[u] == old(movableDir[u])
      ensures forall x, y {:trigger movableDir[turns][x][y]} | 0 <= x < GRID && 0 <= y < GRID ::
        movableDir[turns][x][y] == if Playable(Point(x, y)) then Mobility(board, Point(x, y), currentcolor) else old(movableDir[turns][x][y])
    {
      var list := [];
      for x := 1 to LINE_SIZE + 1
        invariant TableShaped(movableDir)
        invariant list == LegalUpTo(board, currentcolor, IndexOf(Point(x, 1))) && movablePos == old(movablePos)
        invariant forall u | 0 <= u < |movableDir| && u != turns :: movableDir[u] == old(movableDir[u])
        invariant forall x', y' {:trigger movableDir[turns][x'][y']} | 0 <= x' < GRID && 0 <= y' < GRID ::
          movableDir[turns][x'][y'] ==
            if Playable(Point(x', y')) && x' < x then Mobility(board, Point(x', y'), currentcolor) else old(movableDir[turns][x'][y'])
      {
        list := ScanColumn(x, list);
      }
      movablePos := movablePos[turns := list];
    }

    /** The inner `for y` loop of initMovable, for column x. */
    method ScanColumn(x: int, list0: seq<Point>) returns (list: seq<Point>)
      requires Framed(board) && 0 <= turns <= MAX_TURNS && 1 <= x <= LINE_SIZE
      requires TableShaped(movableDir)
      requires list0 == LegalUpTo(board, currentcolor, IndexOf(Point(x, 1)))
      modifies this`movableDir
      ensures TableShaped(movableDir)
      ensures list == LegalUpTo(board, currentcolor, IndexOf(Point(x + 1, 1)))
      ensures forall u | 0 <= u < |movableDir| && u != turns :: movableDir[u] == old(movableDir[u])
      ensures forall x', y' {:trigger movableDir[turns][x'][y']} | 0 <= x' < GRID && 0 <= y' < GRID ::
        movableDir[turns][x'][y'] ==
          if Playable(Point(x', y')) && x' == x then Mobility(board, Point(x', y'), currentcolor) else old(movableDir[turns][x'][y'])
    {
      list := list0;
      for y := 1 to LINE_SIZE + 1
        invariant TableShaped(movableDir)
        invariant list == LegalUpTo(board, currentcolor, IndexOf(Point(x, y)))
        invariant forall u | 0 <= u < |movableDir| && u != turns :: movableDir[u] == old(movableDir[u])
        invariant ColumnScanned(movableDir[turns], old(movableDir[turns]), board, currentcolor, x, y)
      {
        ghost var before := movableDir[turns];
        list := ScanCell(x, y, list);
        ColumnScannedStep(before, old(movableDir[turns]), board, currentcolor, x, y);
        assert movableDir[turns] == before[x := before[x][y := Mobility(board, Point(x, y), currentcolor)]];
      }
      IndexOfNextColumn(x);
    }

    /** One step of initMovable's `for y` loop: the mask of (x, y) cached, the cell listed when movable. */
    method ScanCell(x: int, y: int, list0: seq<Point>) returns (list: seq<Point>)
      requires Framed(board) && 0 <= turns <= MAX_TURNS && Playable(Point(x, y))
      requires TableShaped(movableDir)
      requires list0 == LegalUpTo(board, currentcolor, IndexOf(Point(x, y)))
      modifies this`movableDir
      ensures 0 <= IndexOf(Point(x, y + 1)) <= LINE_SIZE * LINE_SIZE
      ensures list == LegalUpTo(board, currentcolor, IndexOf(Point(x, y + 1)))
      ensures movableDir == PutDir(old(movableDir), turns, x, y, Mobility(board, Point(x, y), currentcolor))
    {
      var direc := CheckMobility(Point(x, y), currentcolor);
      LegalUpToStep(board, currentcolor, x, y);
      list := list0;
      if direc != NONE {
        list := list + [Point(x, y)];
      }
      movableDir := PutDir(movableDir, turns, x, y, direc);
    }

    /** flipDiscs: places the disc of the colour to move at p, walks every direction whose
        flag the cached mask holds, logs the record and updates the counts as Recount does. */
    method FlipDiscs(p: Point)
      requires Framed(board) && 0 <= turns <= MAX_TURNS && Playable(p)
      requires TableShaped(movableDir) && |colorstorage| == 3
      requires movableDir[turns][p.x][p.y] == Mobility(board, p, currentcolor) != NONE
      modifies this`board, this`colorstorage, this`updatelog
      ensures board == Place(old(board), p, currentcolor)
      ensures updatelog == old(updatelog) + [MoveRecord(old(board), p, currentcolor)]
      ensures colorstorage == Recount(old(colorstorage), currentcolor, |MoveRecord(old(board), p, currentcolor)|)
    {
      var direc := movableDir[turns][p.x][p.y];
      var c := currentcolor;
      FlagsFlank(board, p, c, direc);
      var b, update := FlipAll(board, p, c, direc);
      board := b;
      updatelog := updatelog + [update];
      colorstorage := Recount(colorstorage, c, |update|);
    }

    /** isGameOver: all plies made, or the colour to move has no cached move and the other
        colour has no move on any playable cell. */
    method IsGameOver() returns (over: bool)
      requires Framed(board) && 0 <= turns <= MAX_TURNS && |movablePos| == MAX_TURNS + 1
      ensures over == (turns == MAX_TURNS || (movablePos[turns] == [] && NoMoves(board, Opp(currentcolor))))
      ensures Valid() ==> over == GameOver(Current())
    {
      if turns == MAX_TURNS {
        return true;
      }
      if |movablePos[turns]| != 0 {
        return false;
      }
      var o := Opp(currentcolor);
      for x := 1 to LINE_SIZE + 1
        invariant forall q {:trigger Mobility(board, q, o)} | Playable(q) && q.x < x :: Mobility(board, q, o) == NONE
      {
        for y := 1 to LINE_SIZE + 1
          invariant forall q {:trigger Mobility(board, q, o)} | Playable(q) && (q.x < x || (q.x == x && q.y < y)) :: Mobility(board, q, o) == NONE
        {
          var direc := CheckMobility(Point(x, y), o);
          if direc != NONE {
            return false;
          }
        }
      }
      return true;
    }

    /** move: refuses a cell outside 0..8 on either axis or one whose cached mask is NONE;
        otherwise flips, advances the turn, hands over to the other colour and rescans. */
    method Move(p: Point) returns (ok: bool)
      requires Valid()
      modifies this
      ensures Valid()
      ensures ok == CanMove(old(Current()), p)
      ensures ok ==> Current() == AfterMove(old(Current()), p) && hist == old(hist) + [Current()]
      ensures ok ==> updatelog == old(updatelog) + [MoveRecord(old(board), p, old(currentcolor))]
      ensures !ok ==> unchanged(this)
    {
      if p.x < 0 || p.x > LINE_SIZE {
        return false;
      }
      if p.y < 0 || p.y > LINE_SIZE {
        return false;
      }
      if movableDir[turns][p.x][p.y] == NONE {
        return false;
      }
      DoMove(p);
      ok := true;
    }

    /** The part of move after its guards: flip, advance the turn, hand over and rescan. */
    method DoMove(p: Point)
      requires Valid() && CanMove(Current(), p)
      modifies this
      ensures Valid()
      ensures Current() == AfterMove(old(Current()), p) && hist == old(hist) + [Current()]
      ensures updatelog == old(updatelog) + [MoveRecord(old(board), p, old(currentcolor))]
    {
      ghost var s, md, mp, cs, h, l := Current(), movableDir, movablePos, colorstorage, hist, updatelog;
      AfterMoveOK(s, p);
      FlipDiscs(p);
      turns := turns + 1;
      currentcolor := Opp(currentcolor);
      InitMovable();
      hist := hist + [Current()];
      MoveKeeps(md, mp, cs, h, l, p, movableDir, movablePos);
    }

    /** move_pass: refused while the colour to move has a cached move; otherwise logs an
        empty record, hands over to the other colour and rescans the same turn. The source's
        second guard compares the method object `isGameOver` with True and never holds. */
    method MovePass() returns (ok: bool)
      requires Valid()
      modifies this
      ensures Valid()
      ensures ok == CanPass(old(Current()))
      ensures ok ==> Current() == AfterPass(old(Current())) && hist == old(hist) + [Current()]
      ensures ok ==> updatelog == old(updatelog) + [[]]
      ensures !ok ==> unchanged(this)
    {
      if |movablePos[turns]| != 0 {
        return false;
      }
      DoPass();
      ok := true;
    }

    /** The part of move_pass after its guard: log an empty record, hand over and rescan. */
    method DoPass()
      requires Valid() && CanPass(Current())
      modifies this
      ensures Valid()
      ensures Current() == AfterPass(old(Current())) && hist == old(hist) + [Current()]
      ensures updatelog == old(updatelog) + [[]]
    {
      ghost var md, mp, cs, h, l := movableDir, movablePos, colorstorage, hist, updatelog;
      currentcolor := Opp(currentcolor);
      updatelog := updatelog + [[]];
      InitMovable();
      hist := hist + [Current()];
      PassKeeps(md, mp, cs, h, l, movableDir, movablePos);
    }

    /** The inner loop of undo's reset after a pass: masks of column x of the current turn to NONE. */
    method ClearColumn(x: int)
      requires TableShaped(movableDir) && 0 <= turns <= MAX_TURNS && 1 <= x <= LINE_SIZE
      modifies this`movableDir
      ensures TableShaped(movableDir)
      ensures forall u | 0 <= u < |movableDir| && u != turns :: movableDir[u] == old(movableDir[u])
      ensures forall x', y' {:trigger movableDir[turns][x'][y']} | 0 <= x' < GRID && 0 <= y' < GRID ::
        movableDir[turns][x'][y'] == if Playable(Point(x', y')) && x' == x then NONE else old(movableDir[turns][x'][y'])
    {
      for y := 1 to LINE_SIZE + 1
        invariant TableShaped(movableDir)
        invariant forall u | 0 <= u < |movableDir| && u != turns :: movableDir[u] == old(movableDir[u])
        invariant forall x', y' {:trigger movableDir[turns][x'][y']} | 0 <= x' < GRID && 0 <= y' < GRID ::
          movableDir[turns][x'][y'] ==
            if Playable(Point(x', y')) && x' == x && y' < y then NONE else old(movableDir[turns][x'][y'])
      {
        movableDir := PutDir(movableDir, turns, x, y, NONE);
      }
    }

    /** undo's reset after a pass: every playable mask of the current turn to NONE. */
    method ClearLayer()
      requires TableShaped(movableDir) && 0 <= turns <= MAX_TURNS
      modifies this`movableDir
      ensures TableShaped(movableDir)
      ensures forall u | 0 <= u < |movableDir| && u != turns :: movableDir[u] == old(movableDir[u])
      ensures forall x, y {:trigger movableDir[turns][x][y]} | 0 <= x < GRID && 0 <= y < GRID ::
        movableDir[turns][x][y] == if Playable(Point(x, y)) then NONE else old(movableDir[turns][x][y])
    {
      for x := 1 to LINE_SIZE + 1
        invariant TableShaped(movableDir)
        invariant forall u | 0 <= u < |movableDir| && u != turns :: movableDir[u] == old(movableDir[u])
        invariant forall x', y' {:trigger movableDir[turns][x'][y']} | 0 <= x' < GRID && 0 <= y' < GRID ::
          movableDir[turns][x'][y'] == if Playable(Point(x', y')) && x' < x then NONE else old(movableDir[turns][x'][y'])
      {
        ClearColumn(x);
      }
    }

    /** undo: refused at turn 0; otherwise hands the turn back and pops the last record, which
        for a pass clears the current turn's caches and for a placement restores the grid,
        the turn counter and the counts. */
    method Undo() returns (ok: bool)
      requires Valid()
      modifies this
      ensures Valid()
      ensures ok == (old(turns) > 0) && ok == (old(updatelog) != [])
      ensures ok ==> hist == old(hist)[..|old(hist)| - 1] && updatelog == old(updatelog)[..|old(updatelog)| - 1]
      ensures !ok ==> unchanged(this)
    {
      ChainTurnZero(hist, updatelog);
      if turns == 0 {
        return false;
      }
      if |updatelog[|updatelog| - 1]| == 0 {
        UndoPass();
      } else {
        UndoMove();
      }
      ok := true;
    }

    /** undo of a pass: hand the turn back and clear the layer that the pass scan filled. */
    method UndoPass()
      requires Valid() && updatelog != [] && updatelog[|updatelog| - 1] == []
      modifies this
      ensures Valid()
      ensures hist == old(hist)[..|old(hist)| - 1] && updatelog == old(updatelog)[..|old(updatelog)| - 1]
    {
      ghost var md, mp, cs, h, l := movableDir, movablePos, colorstorage, hist, updatelog;
      currentcolor := Opp(currentcolor);
      updatelog := updatelog[..|updatelog| - 1];
      movablePos := movablePos[turns := []];
      ClearLayer();
      UndoPassKeeps(md, mp, cs, h, l, movableDir, movablePos);
      hist := hist[..|hist| - 1];
    }

    /** The fields after undo has popped a placement record are consistent again. */
    lemma PoppedMove(md: seq<Layer>, mp: seq<seq<Point>>, cs: seq<int>, h: seq<Position>, log: seq<seq<Disc>>,
                     b0: Grid, t: int, c: Color)
      requires Consistent(md, mp, cs, h, log) && |log| > 0 && log[|log| - 1] != [] && h[|h| - 1] == Position(b0, t, c)
      requires Shaped(b0) && forall i {:trigger log[|log| - 1][i]} | 0 <= i < |log[|log| - 1]| :: InGrid(log[|log| - 1][i].pos)
      requires movableDir == md && movablePos == mp && hist == h[..|h| - 1] && updatelog == log[..|log| - 1]
      requires board == Unplace(b0, log[|log| - 1], c) && colorstorage == Uncount(cs, Opp(c), |log[|log| - 1]|)
      requires turns == t - 1 && currentcolor == Opp(c)
      ensures Valid()
    {
      UndoMoveKeeps(md, mp, cs, h, log, b0, t, c);
    }

    /** undo of a move: step the turn back, restore the discs of the last record and fix the counts. */
    method UndoMove()
      requires Valid() && updatelog != [] && updatelog[|updatelog| - 1] != []
      modifies this
      ensures Valid()
      ensures hist == old(hist)[..|old(hist)| - 1] && updatelog == old(updatelog)[..|old(updatelog)| - 1]
    {
      var b0, cs, t, c, log := board, colorstorage, turns, currentcolor, updatelog;
      ghost var md, mp, h := movableDir, movablePos, hist;
      var update := log[|log| - 1];
      UndoLast(h, log);
      var b := RestoreDiscs(b0, update, c);
      board := b;
      colorstorage := Uncount(cs, Opp(c), |update|);
      turns := t - 1;
      currentcolor := Opp(c);
      updatelog := log[..|log| - 1];
      hist := h[..|h| - 1];
      PoppedMove(md, mp, cs, h, log, b0, t, c);
    }
  }

  /** move followed by undo gives back the grid, the turn counter, the colour to move, the
      counts and the log; a refused move changes nothing and is not undone. */
  method MoveThenUndo(b: Board, p: Point) returns (moved: bool)
    requires b.Valid()
    modifies b
    ensures b.Valid()
    ensures moved == CanMove(old(b.Current()), p)
    ensures b.Current() == old(b.Current()) && b.colorstorage == old(b.colorstorage)
    ensures b.updatelog == old(b.updatelog) && b.hist == old(b.hist)
  {
    moved := b.Move(p);
    if moved {
      var undone := b.Undo();
      assert undone;
    }
  }

  /** colorstorage always accounts for all 64 cells: white, empty and black together. */
  lemma StorageTotal(b: Board)
    requires b.Valid()
    ensures b.colorstorage[0] + b.colorstorage[1] + b.colorstorage[2] == LINE_SIZE * LINE_SIZE
  {
    CountsTotal(b.hist[|b.hist| - 1].grid);
  }
}
