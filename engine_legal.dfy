/**
 * Why the shift-and-mask generator of make_legal_board and the flip walk
 * of place agree: a square is generated as legal exactly when it is empty
 * and a move on it flips at least one disc.  The generator block that
 * shifts in direction g finds the runs that the walk in the opposite
 * direction follows.
 */
module EngineLegal {
  import opened EngineBits
  import opened EngineRules

  /** The edge mask a generator block in direction g runs through. */
  function SideMask(g: Direction): Bits
  {
    match g
    case Left => HORIZONTAL_SIDE
    case Right => HORIZONTAL_SIDE
    case Up => VERTICAL_SIDE
    case Down => VERTICAL_SIDE
    case _ => ALL_SIDE
  }

  /** A square is inside the mask of g exactly when it has neighbours both ways along g. */
  lemma SideMember(g: Direction, s: Square)
    ensures s in SideMask(g) <==> HasNeighbour(s, g) && HasNeighbour(s, Opposite(g))
  {}

  lemma OppositeTwice(d: Direction)
    ensures Opposite(Opposite(d)) == d && Offset(Opposite(d)) == -Offset(d)
  {}

  /** A square with a neighbour behind it is in the shifted board exactly when that neighbour is in the board. */
  lemma RawInto(x: Bits, g: Direction, q: Square)
    requires HasNeighbour(q, Opposite(g))
    ensures q in Raw(x, g) <==> Neighbour(q, Opposite(g)) in x
  {
    RawMember(x, g, q);
    OppositeTwice(g);
  }

  /** A board inside the mask of g shifts without wrapping around. */
  lemma RawOutOf(y: Bits, g: Direction, q: Square)
    requires y <= SideMask(g)
    ensures q in Raw(y, g) <==> HasNeighbour(q, Opposite(g)) && Neighbour(q, Opposite(g)) in y
  {
    RawMember(y, g, q);
    OppositeTwice(g);
    if q in Raw(y, g) {
      var r: Square := q - Offset(g);
      SideMember(g, r);
      NeighbourBack(r, g);
    }
  }

  /**
   * q starts a generator run: q is a `side` disc and, looking back against
   * g, a player disc follows, or another such run of at most n more discs.
   */
  predicate Chain(p: Bits, side: Bits, g: Direction, q: Square, n: nat)
    decreases n
  {
    q in side && HasNeighbour(q, Opposite(g)) &&
    (Neighbour(q, Opposite(g)) in p || (n > 0 && Chain(p, side, g, Neighbour(q, Opposite(g)), n - 1)))
  }

  lemma {:induction false} ChainUp(p: Bits, side: Bits, g: Direction, q: Square, m: nat, n: nat)
    requires m <= n && Chain(p, side, g, q, m)
    ensures Chain(p, side, g, q, n)
    decreases m
  {
    var r := Neighbour(q, Opposite(g));
    if r !in p {
      ChainUp(p, side, g, r, m - 1, n - 1);
    }
  }

  /** The run after n widening rounds holds exactly the starts of chains of n more discs. */
  lemma {:induction false} WidenMeets(p: Bits, side: Bits, g: Direction, q: Square, n: nat)
    requires side <= SideMask(g)
    ensures q in Widen(side * Raw(p, g), side, g, n) <==> Chain(p, side, g, q, n)
    decreases n
  {
    if q in side {
      SideMember(g, q);
      RawInto(p, g, q);
    }
    if n > 0 {
      var w := Widen(side * Raw(p, g), side, g, n - 1);
      WidenMeets(p, side, g, q, n - 1);
      if Chain(p, side, g, q, n - 1) {
        ChainUp(p, side, g, q, n - 1, n);
      }
      if q in side {
        var r := Neighbour(q, Opposite(g));
        RawInto(w, g, q);
        WidenMeets(p, side, g, r, n - 1);
        if r in p {
          ChainUp(p, side, g, q, 0, n - 1);
        }
      }
    }
  }

  lemma {:induction false} WidenWithin(first: Bits, side: Bits, g: Direction, n: nat)
    requires first <= side
    ensures Widen(first, side, g, n) <= side
    decreases n
  {
    if n > 0 {
      WidenWithin(first, side, g, n - 1);
    }
  }

  /** One generator block finds the empty squares behind which a chain starts. */
  lemma BlockMeets(p: Bits, side: Bits, blank: Bits, g: Direction, q: Square)
    requires side <= SideMask(g)
    ensures q in BlockLegal(p, side, blank, g) <==>
      q in blank && HasNeighbour(q, Opposite(g)) && Chain(p, side, g, Neighbour(q, Opposite(g)), 5)
  {
    WidenWithin(side * Raw(p, g), side, g, 5);
    RawOutOf(Run(p, side, g), g, q);
    if HasNeighbour(q, Opposite(g)) {
      WidenMeets(p, side, g, Neighbour(q, Opposite(g)), 5);
    }
  }

  /** The walk of place from s, in direction e with f steps of fuel, stops on a player disc. */
  predicate Reaches(p: Bits, o: Bits, s: Square, e: Direction, f: nat)
    decreases f
  {
    if f == 0 || s !in o then s in p
    else HasNeighbour(s, e) && Reaches(p, o, Neighbour(s, e), e, f - 1)
  }

  lemma {:induction false} WalkEndMeets(p: Bits, o: Bits, s: Square, e: Direction, f: nat)
    ensures WalkEnd(o, {s}, e, f) * p != {} <==> Reaches(p, o, s, e, f)
    decreases f
  {
    if f == 0 || s !in o {
      assert {s} * o == {} || f == 0;
      assert s in p ==> s in {s} * p;
    } else {
      assert s in {s} * o;
      TransferSquare(s, e);
      if HasNeighbour(s, e) {
        WalkEndMeets(p, o, Neighbour(s, e), e, f - 1);
      } else {
        assert WalkEnd(o, {}, e, f - 1) == {};
      }
    }
  }

  lemma {:induction false} WalkRunGrows(o: Bits, revSub: Bits, tmp: Bits, e: Direction, f: nat)
    ensures revSub <= WalkRun(o, revSub, tmp, e, f)
    decreases f
  {
    if f > 0 && tmp != {} && tmp * o != {} {
      WalkRunGrows(o, revSub + tmp, Transfer(tmp, e), e, f - 1);
    }
  }

  /** With any fuel left, the walk from next to q collects a disc and stops on a player disc exactly when Reaches says so. */
  lemma WalkMeets(p: Bits, o: Bits, q: Square, e: Direction, f: nat)
    requires p * o == {} && f > 0
    ensures (WalkEnd(o, Transfer({q}, e), e, f) * p != {} && WalkRun(o, {}, Transfer({q}, e), e, f) != {}) <==>
      HasNeighbour(q, e) && Neighbour(q, e) in o && Reaches(p, o, Neighbour(q, e), e, f)
  {
    TransferSquare(q, e);
    if HasNeighbour(q, e) {
      var s := Neighbour(q, e);
      WalkEndMeets(p, o, s, e, f);
      if s in o {
        assert s in {s} * o;
        WalkRunGrows(o, {} + {s}, Transfer({s}, e), e, f - 1);
      } else {
        assert {s} * o == {};
      }
    } else {
      assert WalkEnd(o, {}, e, f) == {};
    }
  }

  /** A walk in direction e flips something exactly when it crosses opponent discs onto a player disc. */
  lemma DirFlipsMeets(p: Bits, o: Bits, q: Square, e: Direction)
    requires p * o == {}
    ensures DirFlips(p, o, {q}, e) != {} <==>
      HasNeighbour(q, e) && Neighbour(q, e) in o && Reaches(p, o, Neighbour(q, e), e, 7)
  {
    WalkMeets(p, o, q, e, 7);
  }

  /**
   * A chain of the generator block g through the opponent's inner discs is
   * a walk of place against g that crosses opponent discs onto a player
   * disc; the board is too small for the walk to need more than the
   * generator's rounds.
   */
  lemma {:induction false} ChainReaches(p: Bits, o: Bits, g: Direction, s: Square, n: nat)
    requires p * o == {} && HasNeighbour(s, g) && Steps(s, Opposite(g)) <= n + 1
    ensures Chain(p, o * SideMask(g), g, s, n) <==>
      s in o && HasNeighbour(s, Opposite(g)) && Reaches(p, o, Neighbour(s, Opposite(g)), Opposite(g), n + 1)
    decreases n
  {
    var e := Opposite(g);
    SideMember(g, s);
    if s in o && HasNeighbour(s, e) {
      var t := Neighbour(s, e);
      NeighbourBack(s, e);
      OppositeTwice(g);
      StepsNeighbour(s, e);
      StepsNeighbour(t, e);
      assert t !in p * o;
      if n > 0 {
        ChainReaches(p, o, g, t, n - 1);
      }
    }
  }

  /** One generator block and the walk in the opposite direction agree square by square. */
  lemma BlockIffDir(p: Bits, o: Bits, g: Direction, q: Square)
    requires p * o == {}
    ensures q in BlockLegal(p, o * SideMask(g), Not(p + o), g) <==>
      q !in p + o && DirFlips(p, o, {q}, Opposite(g)) != {}
  {
    var e := Opposite(g);
    BlockMeets(p, o * SideMask(g), Not(p + o), g, q);
    DirFlipsMeets(p, o, q, e);
    if HasNeighbour(q, e) {
      var s := Neighbour(q, e);
      NeighbourBack(q, e);
      OppositeTwice(g);
      StepsNeighbour(q, e);
      ChainReaches(p, o, g, s, 5);
      assert s !in p * o;
    }
  }

  /** The flips of place, direction by direction. */
  lemma FlipsByDirection(p: Bits, o: Bits, bit: Bits, x: Square)
    ensures x in Flips(p, o, bit) <==>
      x in DirFlips(p, o, bit, Up) || x in DirFlips(p, o, bit, UpRight) || x in DirFlips(p, o, bit, Right) ||
      x in DirFlips(p, o, bit, DownRight) || x in DirFlips(p, o, bit, Down) || x in DirFlips(p, o, bit, DownLeft) ||
      x in DirFlips(p, o, bit, Left) || x in DirFlips(p, o, bit, UpLeft)
  {
    assert x in FlipsUpTo(p, o, bit, 1) <==> x in DirFlips(p, o, bit, Up);
    assert x in FlipsUpTo(p, o, bit, 2) <==> x in FlipsUpTo(p, o, bit, 1) || x in DirFlips(p, o, bit, UpRight);
    assert x in FlipsUpTo(p, o, bit, 3) <==> x in FlipsUpTo(p, o, bit, 2) || x in DirFlips(p, o, bit, Right);
    assert x in FlipsUpTo(p, o, bit, 4) <==> x in FlipsUpTo(p, o, bit, 3) || x in DirFlips(p, o, bit, DownRight);
    assert x in FlipsUpTo(p, o, bit, 5) <==> x in FlipsUpTo(p, o, bit, 4) || x in DirFlips(p, o, bit, Down);
    assert x in FlipsUpTo(p, o, bit, 6) <==> x in FlipsUpTo(p, o, bit, 5) || x in DirFlips(p, o, bit, DownLeft);
    assert x in FlipsUpTo(p, o, bit, 7) <==> x in FlipsUpTo(p, o, bit, 6) || x in DirFlips(p, o, bit, Left);
  }

  /** What one direction flips is flipped. */
  lemma FlipsFrom(p: Bits, o: Bits, bit: Bits, e: Direction)
    ensures DirFlips(p, o, bit, e) <= Flips(p, o, bit)
  {
    forall x | x in DirFlips(p, o, bit, e)
      ensures x in Flips(p, o, bit)
    {
      FlipsByDirection(p, o, bit, x);
    }
  }

  /** Some disc is flipped exactly when some direction flips one. */
  lemma FlipsSome(p: Bits, o: Bits, bit: Bits)
    ensures Flips(p, o, bit) != {} <==>
      DirFlips(p, o, bit, Up) != {} || DirFlips(p, o, bit, UpRight) != {} || DirFlips(p, o, bit, Right) != {} ||
      DirFlips(p, o, bit, DownRight) != {} || DirFlips(p, o, bit, Down) != {} || DirFlips(p, o, bit, DownLeft) != {} ||
      DirFlips(p, o, bit, Left) != {} || DirFlips(p, o, bit, UpLeft) != {}
  {
    if x :| x in Flips(p, o, bit) {
      FlipsByDirection(p, o, bit, x);
    }
    FlipsFrom(p, o, bit, Up);
    FlipsFrom(p, o, bit, UpRight);
    FlipsFrom(p, o, bit, Right);
    FlipsFrom(p, o, bit, DownRight);
    FlipsFrom(p, o, bit, Down);
    FlipsFrom(p, o, bit, DownLeft);
    FlipsFrom(p, o, bit, Left);
    FlipsFrom(p, o, bit, UpLeft);
  }

  /** The legal squares, block by block, each block with the mask of its direction. */
  lemma LegalByBlock(p: Bits, o: Bits, q: Square)
    ensures q in Legal(p, o) <==>
      q in BlockLegal(p, o * SideMask(Left), Not(p + o), Left) ||
      q in BlockLegal(p, o * SideMask(Right), Not(p + o), Right) ||
      q in BlockLegal(p, o * SideMask(Up), Not(p + o), Up) ||
      q in BlockLegal(p, o * SideMask(Down), Not(p + o), Down) ||
      q in BlockLegal(p, o * SideMask(UpRight), Not(p + o), UpRight) ||
      q in BlockLegal(p, o * SideMask(UpLeft), Not(p + o), UpLeft) ||
      q in BlockLegal(p, o * SideMask(DownRight), Not(p + o), DownRight) ||
      q in BlockLegal(p, o * SideMask(DownLeft), Not(p + o), DownLeft)
  {}

  /**
   * make_legal_board and place agree: with the sides apart, a square is
   * legal exactly when it is empty and a move on it flips some disc.
   */
  lemma LegalIffFlips(p: Bits, o: Bits, q: Square)
    requires p * o == {}
    ensures q in Legal(p, o) <==> q !in p + o && Flips(p, o, {q}) != {}
  {
    LegalByBlock(p, o, q);
    FlipsSome(p, o, {q});
    BlockIffDir(p, o, Left, q);
    BlockIffDir(p, o, Right, q);
    BlockIffDir(p, o, Up, q);
    BlockIffDir(p, o, Down, q);
    BlockIffDir(p, o, UpRight, q);
    BlockIffDir(p, o, UpLeft, q);
    BlockIffDir(p, o, DownRight, q);
    BlockIffDir(p, o, DownLeft, q);
  }
}
