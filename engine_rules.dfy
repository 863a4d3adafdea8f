/**
 * The engine's game rules on bitboards: the position record, the
 * shift-and-mask legal-move generator, placing a disc with its flips,
 * handing the move to the other side, and the final counts.  The board is
 * always seen from the side to move: `player` holds its discs, `opponent`
 * the other side's.
 */
module EngineRules {
  import opened EngineBits

  const BLACK: int := 1
  const WHITE: int := -1
  const NONE: int := 0
  const MAX_TURNS: int := 60

  /** Results of place. */
  const CONTINUE: int := 0
  const PLACE_ERR: int := -1
  const GAME_SET: int := 1

  /** Search modes. */
  const EVAL_NORMAL: int := 0
  const EVAL_PERFECT: int := 1
  const EVAL_WIN: int := 2
  const EVAL_PERFECT_DEPTH: int := 16
  const EVAL_WIN_DEPTH: int := 18

  /** A copy of a BoardInfo (what clone produces and the history keeps). */
  datatype Info = Info(nowTurn: int, nowIndex: int, player: Bits, opponent: Bits)

  /** The two sides never share a square. */
  predicate Disjoint(i: Info)
  {
    i.player * i.opponent == {}
  }

  /**
   * The position at the start of a game, Black to move, at move 1:
   * player 0x0000_0008_1000_0000 (D5 and E4), opponent
   * 0x0000_0010_0800_0000 (D4 and E5).
   */
  function StartInfo(): (i: Info)
    ensures Disjoint(i) && Pop(i.player) == 2 && Pop(i.opponent) == 2
  {
    Info(BLACK, 1, {28, 35}, {27, 36})
  }

  // ---------------------------------------------------------------------
  // make_legal_board
  // ---------------------------------------------------------------------

  /**
   * The opponent discs a block may run through: horizontal runs avoid the
   * A and H files (0x7e7e_7e7e_7e7e_7e7e), vertical runs the first and last
   * rows (0x00ff_ffff_ffff_ff00), diagonal runs all four edges
   * (0x007e_7e7e_7e7e_7e00).
   */
  const HORIZONTAL_SIDE: Bits := set k: Square | 0 <= k < 64 && 1 <= k % 8 <= 6
  const VERTICAL_SIDE: Bits := set k: Square | 8 <= k < 56
  const ALL_SIDE: Bits := set k: Square | 8 <= k < 56 && 1 <= k % 8 <= 6

  /** One widening round (`tmp |= side & (tmp << k)`): add the `side` discs one step past the run. */
  function Grow(tmp: Bits, side: Bits, g: Direction): Bits
  {
    tmp + side * Raw(tmp, g)
  }

  /** The run after n widening rounds starting from `first`. */
  function Widen(first: Bits, side: Bits, g: Direction, n: nat): Bits
  {
    if n == 0 then first else Grow(Widen(first, side, g, n - 1), side, g)
  }

  /**
   * The `side` discs reachable from the player's discs through `side` discs
   * only: the first step and five widening rounds.
   */
  function Run(player: Bits, side: Bits, g: Direction): Bits
  {
    Widen(side * Raw(player, g), side, g, 5)
  }

  /** The empty squares one step past such a run: the legal moves one block finds. */
  function BlockLegal(player: Bits, side: Bits, blank: Bits, g: Direction): Bits
  {
    blank * Raw(Run(player, side, g), g)
  }

  /**
   * make_legal_board: the squares the side to move may play on, the blocks
   * combined in the engine's order: left, right, up, down, up-right,
   * up-left, down-right, down-left.
   */
  function Legal(player: Bits, opponent: Bits): Bits
  {
    var blank := Not(player + opponent);
    var horizontal := opponent * HORIZONTAL_SIDE;
    var vertical := opponent * VERTICAL_SIDE;
    var all := opponent * ALL_SIDE;
    BlockLegal(player, horizontal, blank, Left) +
    BlockLegal(player, horizontal, blank, Right) +
    BlockLegal(player, vertical, blank, Up) +
    BlockLegal(player, vertical, blank, Down) +
    BlockLegal(player, all, blank, UpRight) +
    BlockLegal(player, all, blank, UpLeft) +
    BlockLegal(player, all, blank, DownRight) +
    BlockLegal(player, all, blank, DownLeft)
  }

  /** One block's first step and its five widening rounds (the for loop). */
  method FillRun(player: Bits, side: Bits, g: Direction) returns (tmp: Bits)
    ensures tmp == Run(player, side, g)
  {
    tmp := side * Raw(player, g);
    ghost var first := tmp;
    for n := 0 to 5
      invariant tmp == Widen(first, side, g, n)
    {
      tmp := tmp + side * Raw(tmp, g);
    }
  }

  /** One block of make_legal_board: the run, then the empty squares past it. */
  method MakeBlockLegal(player: Bits, side: Bits, blank: Bits, g: Direction) returns (legal: Bits)
    ensures legal == BlockLegal(player, side, blank, g)
  {
    var tmp := FillRun(player, side, g);
    legal := blank * Raw(tmp, g);
  }

  /** make_legal_board, block by block as the engine computes it; no legal square is taken. */
  method MakeLegalBoard(p: Bits, o: Bits) returns (legal: Bits)
    ensures legal == Legal(p, o)
    ensures legal * (p + o) == {}
  {
    var horizontalSide := o * HORIZONTAL_SIDE;
    var verticalSide := o * VERTICAL_SIDE;
    var allSide := o * ALL_SIDE;
    var blank := Not(p + o);
    var b := MakeBlockLegal(p, horizontalSide, blank, Left);
    legal := b;
    b := MakeBlockLegal(p, horizontalSide, blank, Right);
    legal := legal + b;
    b := MakeBlockLegal(p, verticalSide, blank, Up);
    legal := legal + b;
    b := MakeBlockLegal(p, verticalSide, blank, Down);
    legal := legal + b;
    b := MakeBlockLegal(p, allSide, blank, UpRight);
    legal := legal + b;
    b := MakeBlockLegal(p, allSide, blank, UpLeft);
    legal := legal + b;
    b := MakeBlockLegal(p, allSide, blank, DownRight);
    legal := legal + b;
    b := MakeBlockLegal(p, allSide, blank, DownLeft);
    legal := legal + b;
    LegalEmpty(p, o);
  }

  /** Every legal square is empty. */
  lemma LegalEmpty(player: Bits, opponent: Bits)
    ensures Legal(player, opponent) * (player + opponent) == {}
  {}

  // ---------------------------------------------------------------------
  // The flip walk of place
  // ---------------------------------------------------------------------

  /** x moved n squares in direction d. */
  function Moved(x: Bits, d: Direction, n: nat): Bits
    decreases n
  {
    if n == 0 then x else Moved(Transfer(x, d), d, n - 1)
  }

  /** Each bit left after n moves came from a bit with n more steps of room. */
  lemma {:induction false} MovedOrigin(x: Bits, d: Direction, n: nat, q: Square) returns (q0: Square)
    requires q in Moved(x, d, n)
    ensures q0 in x && Steps(q0, d) == Steps(q, d) + n
    decreases n
  {
    if n == 0 {
      q0 := q;
    } else {
      var q1 := MovedOrigin(Transfer(x, d), d, n - 1, q);
      q0 := TransferPreimage(x, d, q1);
      StepsNeighbour(q0, d);
    }
  }

  /** Eight moves in one direction take every bit off the board. */
  lemma MovedClears(x: Bits, d: Direction)
    ensures Moved(x, d, 8) == {}
  {
    if q :| q in Moved(x, d, 8) {
      var q0 := MovedOrigin(x, d, 8, q);
      assert false;
    }
  }

  /**
   * The walk over opponent discs starting at `tmp`: while the current square
   * is on the board and holds an opponent disc, add it to `revSub` and step
   * on.  WalkRun is what `revSub` holds when the walk stops, WalkEnd the
   * square it stops on.  A walk started next to a square leaves the board
   * within seven steps, so the place loop is the walk with seven steps of
   * fuel.
   */
  function WalkRun(opponent: Bits, revSub: Bits, tmp: Bits, d: Direction, fuel: nat): Bits
    decreases fuel
  {
    if fuel == 0 || tmp == {} || tmp * opponent == {} then revSub
    else WalkRun(opponent, revSub + tmp, Transfer(tmp, d), d, fuel - 1)
  }

  function WalkEnd(opponent: Bits, tmp: Bits, d: Direction, fuel: nat): Bits
    decreases fuel
  {
    if fuel == 0 || tmp == {} || tmp * opponent == {} then tmp
    else WalkEnd(opponent, Transfer(tmp, d), d, fuel - 1)
  }

  /** The discs flipped in one direction: the run, if it ends on a player disc. */
  function DirFlips(player: Bits, opponent: Bits, bit: Bits, d: Direction): Bits
  {
    var start := Transfer(bit, d);
    if WalkEnd(opponent, start, d, 7) * player != {} then WalkRun(opponent, {}, start, d, 7) else {}
  }

  /** The flips found in the first k directions of place's loop. */
  function FlipsUpTo(player: Bits, opponent: Bits, bit: Bits, k: nat): Bits
    requires k <= 8
  {
    if k == 0 then {} else FlipsUpTo(player, opponent, bit, k - 1) + DirFlips(player, opponent, bit, DirectionOf(k - 1))
  }

  /** All the discs a move on `bit` flips. */
  function Flips(player: Bits, opponent: Bits, bit: Bits): Bits
  {
    FlipsUpTo(player, opponent, bit, 8)
  }

  /**
   * The while loop of place in one direction: collect squares while the
   * current one holds an opponent disc; returns the collected run and the
   * square the walk stopped on.
   */
  method WalkFrom(opponent: Bits, bit: Bits, d: Direction) returns (revSub: Bits, tmp: Bits)
    ensures revSub == WalkRun(opponent, {}, Transfer(bit, d), d, 7)
    ensures tmp == WalkEnd(opponent, Transfer(bit, d), d, 7)
  {
    revSub := {};
    tmp := Transfer(bit, d);
    ghost var run, end := WalkRun(opponent, {}, tmp, d, 7), WalkEnd(opponent, tmp, d, 7);
    ghost var fuel: nat := 7;
    MovedClears(bit, d);
    while tmp != {} && tmp * opponent != {}
      invariant Moved(tmp, d, fuel) == {}
      invariant run == WalkRun(opponent, revSub, tmp, d, fuel)
      invariant end == WalkEnd(opponent, tmp, d, fuel)
      decreases fuel
    {
      revSub := revSub + tmp;
      tmp := Transfer(tmp, d);
      fuel := fuel - 1;
    }
  }

  /** The for loop of place: the flips over all eight directions. */
  method CollectFlips(p: Bits, o: Bits, bit: Bits) returns (rev: Bits)
    ensures rev == Flips(p, o, bit)
  {
    rev := {};
    for k := 0 to 8
      invariant rev == FlipsUpTo(p, o, bit, k)
    {
      var revSub, tmp := WalkFrom(o, bit, DirectionOf(k));
      if tmp * p != {} {
        rev := rev + revSub;
      }
    }
  }

  // ---------------------------------------------------------------------
  // Facts about the walk and the flips
  // ---------------------------------------------------------------------

  /** From a single square, a walk adds only opponent discs. */
  lemma {:induction false} WalkInOpponent(opponent: Bits, revSub: Bits, tmp: Bits, d: Direction, fuel: nat)
    requires (tmp == {} || Single(tmp)) && revSub <= opponent
    ensures WalkRun(opponent, revSub, tmp, d, fuel) <= opponent
    decreases fuel
  {
    if fuel > 0 && tmp != {} && tmp * opponent != {} {
      SingleIsLowest(tmp);
      TransferSingle(tmp, d);
      WalkInOpponent(opponent, revSub + tmp, Transfer(tmp, d), d, fuel - 1);
    }
  }

  /** From a single square, every flip is an opponent disc. */
  lemma {:induction false} FlipsInOpponent(player: Bits, opponent: Bits, bit: Bits, k: nat)
    requires Single(bit) && k <= 8
    ensures FlipsUpTo(player, opponent, bit, k) <= opponent
    decreases k
  {
    if k > 0 {
      FlipsInOpponent(player, opponent, bit, k - 1);
      TransferSingle(bit, DirectionOf(k - 1));
      WalkInOpponent(opponent, {}, Transfer(bit, DirectionOf(k - 1)), DirectionOf(k - 1), 7);
    }
  }

  // ---------------------------------------------------------------------
  // place, swap and the results
  // ---------------------------------------------------------------------

  /** What place returns, and the position it leaves. */
  datatype Placed = Placed(code: int, after: Info)

  /** The position after a move on `bit`: the square and the flips change hands, the index advances. */
  function AfterMove(i: Info, bit: Bits): Info
  {
    var rev := Flips(i.player, i.opponent, bit);
    Info(i.nowTurn, i.nowIndex + 1, Xor(i.player, bit + rev), Xor(i.opponent, rev))
  }

  /**
   * place: a pass (no bit) is refused while the side to move has a legal
   * move; otherwise it reports whether the other side is blocked too.  A
   * move on a subset of the legal squares flips and counts; anything else
   * is refused.  Only the move path changes the position.
   */
  function PlaceSpec(i: Info, bit: Bits): Placed
  {
    if bit == {} then
      if Legal(i.player, i.opponent) != {} then Placed(PLACE_ERR, i)
      else if Legal(i.opponent, i.player) == {} then Placed(GAME_SET, i)
      else Placed(CONTINUE, i)
    else if bit <= Legal(i.player, i.opponent) then
      var n := AfterMove(i, bit);
      Placed(if n.nowIndex > MAX_TURNS then GAME_SET else CONTINUE, n)
    else Placed(PLACE_ERR, i)
  }

  /** swap: the other side to move. */
  function Swapped(i: Info): Info
  {
    Info(i.nowTurn * -1, i.nowIndex, i.opponent, i.player)
  }

  lemma SwapTwice(i: Info)
    ensures Swapped(Swapped(i)) == i
    ensures Swapped(i).player == i.opponent && Swapped(i).opponent == i.player
    ensures Swapped(i).nowTurn == -i.nowTurn && Swapped(i).nowIndex == i.nowIndex
  {}

  /** A refused move and a pass leave the position as it was. */
  lemma PlaceRefused(i: Info, bit: Bits)
    ensures PlaceSpec(i, bit).code == PLACE_ERR <==>
      (bit == {} && Legal(i.player, i.opponent) != {}) ||
      (bit != {} && !(bit <= Legal(i.player, i.opponent)))
    ensures PlaceSpec(i, bit).code == PLACE_ERR ==> PlaceSpec(i, bit).after == i
    ensures bit == {} ==> PlaceSpec(i, bit).after == i
  {
    if bit != {} && bit <= Legal(i.player, i.opponent) {
      var n := AfterMove(i, bit);
      assert PlaceSpec(i, bit) == Placed(if n.nowIndex > MAX_TURNS then GAME_SET else CONTINUE, n);
    }
  }

  /** A pass ends the game exactly when neither side can move. */
  lemma PassCode(i: Info)
    requires Legal(i.player, i.opponent) == {}
    ensures PlaceSpec(i, {}).code == GAME_SET <==> Legal(i.opponent, i.player) == {}
    ensures PlaceSpec(i, {}).code != GAME_SET ==> PlaceSpec(i, {}).code == CONTINUE
  {}

  /**
   * The bit arithmetic of a move: with the placed square empty and the
   * flips among the opponent's discs, the exclusive-or updates give the
   * square and the flips to the player, take the flips from the opponent
   * and keep the sides apart.
   */
  lemma MoveBits(p: Bits, o: Bits, bit: Bits, rev: Bits)
    requires p * o == {} && bit * (p + o) == {} && rev <= o
    ensures Xor(p, bit + rev) == p + bit + rev
    ensures Xor(o, rev) == o - rev
    ensures Xor(p, bit + rev) * Xor(o, rev) == {}
  {
    forall x | x in p
      ensures x !in bit + rev
    {
      assert x !in bit * (p + o) && x !in p * o;
    }
  }

  /** The counts of a move: one disc more on the board, the flips moved across. */
  lemma MoveCounts(p: Bits, o: Bits, bit: Bits, rev: Bits)
    requires p * o == {} && bit * (p + o) == {} && rev <= o && Single(bit)
    ensures Pop(Xor(p, bit + rev)) == Pop(p) + 1 + Pop(rev)
    ensures Pop(Xor(o, rev)) + Pop(rev) == Pop(o)
  {
    MoveBits(p, o, bit, rev);
    PopDisjoint(p + bit, rev);
    PopDisjoint(p, bit);
    PopDisjoint(o - rev, rev);
    assert o - rev + rev == o;
  }

  /**
   * A move on one legal square: the square and exactly the flipped opponent
   * discs go to the player, the sides stay disjoint, one disc is added in
   * all, the index advances and the game is set once it passes 60.
   */
  lemma PlaceMove(i: Info, bit: Bits)
    requires Disjoint(i) && Single(bit) && bit <= Legal(i.player, i.opponent)
    ensures var rev := Flips(i.player, i.opponent, bit);
      var a := PlaceSpec(i, bit).after;
      rev <= i.opponent &&
      a.player == i.player + bit + rev && a.opponent == i.opponent - rev &&
      Disjoint(a) &&
      Pop(a.player) == Pop(i.player) + 1 + Pop(rev) &&
      Pop(a.opponent) + Pop(rev) == Pop(i.opponent) &&
      Pop(a.player) + Pop(a.opponent) == Pop(i.player) + Pop(i.opponent) + 1 &&
      a.nowTurn == i.nowTurn && a.nowIndex == i.nowIndex + 1
    ensures PlaceSpec(i, bit).code == GAME_SET <==> i.nowIndex + 1 > MAX_TURNS
    ensures PlaceSpec(i, bit).code != GAME_SET ==> PlaceSpec(i, bit).code == CONTINUE
  {
    var p, o := i.player, i.opponent;
    var rev := Flips(p, o, bit);
    FlipsInOpponent(p, o, bit, 8);
    LegalEmpty(p, o);
    MoveBits(p, o, bit, rev);
    MoveCounts(p, o, bit, rev);
    var a := AfterMove(i, bit);
    assert PlaceSpec(i, bit) == Placed(if a.nowIndex > MAX_TURNS then GAME_SET else CONTINUE, a);
  }

  /** What the mover is ahead by, as eval_perfect measures it. */
  function EvalPerfect(i: Info): int
  {
    Pop(i.player) - Pop(i.opponent)
  }

  /** A move gains the mover the placed disc and twice the flipped ones. */
  lemma EvalPerfectMove(i: Info, bit: Bits)
    requires Disjoint(i) && Single(bit) && bit <= Legal(i.player, i.opponent)
    ensures EvalPerfect(PlaceSpec(i, bit).after) == EvalPerfect(i) + 1 + 2 * Pop(Flips(i.player, i.opponent, bit))
  {
    PlaceMove(i, bit);
  }

  /** eval_win: only the sign of the difference. */
  function EvalWin(i: Info): (r: int)
    ensures r == 1 <==> Pop(i.player) > Pop(i.opponent)
    ensures r == 0 <==> Pop(i.player) == Pop(i.opponent)
    ensures r == -1 <==> Pop(i.player) < Pop(i.opponent)
  {
    var diff := Pop(i.player) - Pop(i.opponent);
    if diff > 0 then 1 else if diff == 0 then 0 else -1
  }

  function Sign(x: int): int { if x > 0 then 1 else if x == 0 then 0 else -1 }

  /** eval_win is the sign of eval_perfect, and both change sign on swap. */
  lemma EvalRelations(i: Info)
    ensures EvalWin(i) == Sign(EvalPerfect(i))
    ensures EvalPerfect(Swapped(i)) == -EvalPerfect(i)
    ensures EvalWin(Swapped(i)) == -EvalWin(i)
  {}

  /** (black count, white count, the side ahead). */
  datatype Score = Score(black: nat, white: nat, superior: int)

  /** get_result: counts oriented by the side to move. */
  function GetResult(i: Info): (r: Score)
    ensures i.nowTurn == WHITE ==> r.black == Pop(i.opponent) && r.white == Pop(i.player)
    ensures i.nowTurn != WHITE ==> r.black == Pop(i.player) && r.white == Pop(i.opponent)
    ensures r.superior == BLACK <==> r.black > r.white
    ensures r.superior == NONE <==> r.black == r.white
    ensures r.superior == WHITE <==> r.black < r.white
  {
    var b, w := if i.nowTurn == WHITE then Pop(i.opponent) else Pop(i.player),
                if i.nowTurn == WHITE then Pop(i.player) else Pop(i.opponent);
    var superior := if b <= w then (if b == w then NONE else WHITE) else BLACK;
    Score(b, w, superior)
  }

  /** Handing the move over does not change who owns what. */
  lemma ResultSwap(i: Info)
    requires i.nowTurn == BLACK || i.nowTurn == WHITE
    ensures GetResult(Swapped(i)) == GetResult(i)
  {}

  /** choose_evaluator: exhaustive search near the end of the game. */
  function ChooseEvaluator(nowIndex: int): (r: int)
    ensures r == EVAL_PERFECT <==> MAX_TURNS - nowIndex <= EVAL_PERFECT_DEPTH
    ensures r == EVAL_WIN <==> EVAL_PERFECT_DEPTH < MAX_TURNS - nowIndex <= EVAL_WIN_DEPTH
    ensures r == EVAL_NORMAL <==> MAX_TURNS - nowIndex > EVAL_WIN_DEPTH
  {
    if MAX_TURNS - nowIndex <= EVAL_WIN_DEPTH then
      if MAX_TURNS - nowIndex <= EVAL_PERFECT_DEPTH then EVAL_PERFECT else EVAL_WIN
    else EVAL_NORMAL
  }

  /**
   * BoardInfo.  place and swap change it in place; a clone is a snapshot
   * of its four fields.
   */
  class BoardInfo {
    var nowTurn: int
    var nowIndex: int
    var playerBoard: Bits
    var opponentBoard: Bits

    function Snapshot(): Info
      reads this
    {
      Info(nowTurn, nowIndex, playerBoard, opponentBoard)
    }

    constructor (i: Info)
      ensures Snapshot() == i
    {
      nowTurn, nowIndex, playerBoard, opponentBoard := i.nowTurn, i.nowIndex, i.player, i.opponent;
    }

    /** Overwrite all four fields (a fresh BoardInfo assigned over the old one). */
    method Assign(i: Info)
      modifies this
      ensures Snapshot() == i
    {
      nowTurn, nowIndex, playerBoard, opponentBoard := i.nowTurn, i.nowIndex, i.player, i.opponent;
    }

    /** place: the engine's move application. */
    method Place(bit: Bits) returns (code: int)
      modifies this
      ensures Placed(code, Snapshot()) == PlaceSpec(old(Snapshot()), bit)
    {
      ghost var i := Snapshot();
      var legal := MakeLegalBoard(playerBoard, opponentBoard);
      if bit == {} {
        if legal == {} {
          var other := MakeLegalBoard(opponentBoard, playerBoard);
          if other == {} {
            return GAME_SET;
          }
          return CONTINUE;
        } else {
          return PLACE_ERR;
        }
      }
      if bit * legal == bit {
        var rev := CollectFlips(playerBoard, opponentBoard, bit);
        playerBoard := Xor(playerBoard, bit + rev);
        opponentBoard := Xor(opponentBoard, rev);
        nowIndex := nowIndex + 1;
        assert Snapshot() == AfterMove(i, bit);
        if nowIndex > MAX_TURNS {
          return GAME_SET;
        }
      } else {
        return PLACE_ERR;
      }
      return CONTINUE;
    }

    /** swap: exchange the boards and negate the side to move. */
    method Swap()
      modifies this
      ensures Snapshot() == Swapped(old(Snapshot()))
    {
      var tmp := playerBoard;
      playerBoard := opponentBoard;
      opponentBoard := tmp;
      nowTurn := nowTurn * -1;
    }
  }
}
