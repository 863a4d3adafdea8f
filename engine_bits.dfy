/**
 * The engine's bitboards.  A u64 board is modelled exactly by the set of
 * the positions of its one bits: bit k stands for 2^k.  Square A1 is the
 * most significant bit (63); moving one column towards H is one place to
 * the right, moving one row towards 8 is eight places to the right, so the
 * square in column c (0 = A) and row r (0 = row 1) is bit 63 - (c + 8 * r).
 * The word operations become set operations: & is intersection, | union,
 * ! the complement within the 64 positions, ^ the symmetric difference,
 * and a shift moves every position, losing those that leave 0..63.
 */
module EngineBits {

  /** A bit position of a u64. */
  type Square = k: int | 0 <= k < 64

  /** A u64, as the set of its one bits. */
  type Bits = set<Square>

  /** u64::MAX: every bit. */
  const FULL: Bits := set k: Square | 0 <= k < 64

  /** 0x8000_0000_0000_0000: square A1. */
  const TOP: Bits := {63}

  /** !x */
  function Not(x: Bits): Bits
  {
    FULL - x
  }

  /** a ^ b */
  function Xor(a: Bits, b: Bits): Bits
  {
    (a - b) + (b - a)
  }

  /** x << k: every bit moves k places up; bits past 63 are lost. */
  function Shl(x: Bits, k: nat): Bits
  {
    set j | j in x && j + k < 64 :: j + k
  }

  /** x >> k: every bit moves k places down; bits below 0 are lost. */
  function Shr(x: Bits, k: nat): Bits
  {
    set j | j in x && j >= k :: j - k
  }

  /** Exactly one bit is set. */
  predicate Single(b: Bits)
  {
    |b| == 1
  }

  /** The lowest one bit of x at position k or above; 64 when there is none. */
  function LowestFrom(x: Bits, k: nat): (m: nat)
    requires k <= 64
    ensures k <= m <= 64
    ensures m < 64 ==> m in x
    ensures forall j: Square | k <= j < m :: j !in x
    decreases 64 - k
  {
    if k == 64 then 64 else if k in x then k else LowestFrom(x, k + 1)
  }

  /** The position of the lowest one bit of a non-zero word. */
  function Lowest(x: Bits): (m: Square)
    requires x != {}
    ensures m in x && forall j | j in x :: m <= j
  {
    var m := LowestFrom(x, 0);
    var j :| j in x;
    assert m <= j;
    m
  }

  /** A word with one bit is that bit. */
  lemma SingleIsLowest(b: Bits)
    requires Single(b)
    ensures b == {Lowest(b)}
  {
    var m := Lowest(b);
    assert |b - {m}| == 0;
  }

  /** One bit shifted down stays one bit while it stays on the word. */
  lemma ShrOne(q: Square, k: nat)
    requires k <= q
    ensures Shr({q}, k) == {q - k}
  {
    assert q - k in Shr({q}, k);
  }

  /** One bit shifted up stays one bit while it stays on the word. */
  lemma ShlOne(q: Square, k: nat)
    requires q + k < 64
    ensures Shl({q}, k) == {q + k}
  {
    assert q + k in Shl({q}, k);
  }

  /** Shifting up by k and then by one place is shifting up by k + 1. */
  lemma ShlStep(x: Bits, k: nat)
    ensures Shl(Shl(x, k), 1) == Shl(x, k + 1)
  {
    forall j | j in x && j + k + 1 < 64
      ensures j + k + 1 in Shl(Shl(x, k), 1)
    {
      assert j + k in Shl(x, k);
    }
  }

  // ---------------------------------------------------------------------
  // Coordinates: point_to_bit / bit_to_point
  // ---------------------------------------------------------------------

  predicate ValidName(c1: char, c2: char)
  {
    'A' <= c1 <= 'H' && '1' <= c2 <= '8'
  }

  /** The square number of a valid name: its distance from A1 in bits. */
  function Index(c1: char, c2: char): (i: nat)
    requires ValidName(c1, c2)
    ensures i < 64
  {
    (c1 as int - 'A' as int) + 8 * (c2 as int - '1' as int)
  }

  /** The column part of the shift: none for a letter outside A..H. */
  function ColumnShift(c1: char): (k: nat)
    ensures k < 8
  {
    match c1
    case 'A' => 0 case 'B' => 1 case 'C' => 2 case 'D' => 3
    case 'E' => 4 case 'F' => 5 case 'G' => 6 case 'H' => 7
    case _ => 0
  }

  /**
   * The row part of the shift, (digit value - 1) * 8, with the shift amount
   * reduced modulo 64 as a release build of the engine does (the compiled
   * shift masks the amount with 63, which agrees with Euclidean remainder).
   */
  function RowShift(c2: char): (k: nat)
    ensures k < 64 && k % 8 == 0
    ensures '1' <= c2 <= '8' ==> k == 8 * (c2 as int - '1' as int)
  {
    ((c2 as int - 48 - 1) * 8) % 64
  }

  /**
   * point_to_bit: start from A1 and shift right by the column, then by the
   * row.  Every pair of characters gives exactly one set bit, and a valid
   * name gives the bit of its own square.
   */
  function PointToBit(c1: char, c2: char): (r: Bits)
    ensures Single(r)
    ensures r == {63 - ColumnShift(c1) - RowShift(c2)}
    ensures ValidName(c1, c2) ==> r == {63 - Index(c1, c2)}
  {
    ShrOne(63, ColumnShift(c1));
    ShrOne(63 - ColumnShift(c1), RowShift(c2));
    Shr(Shr(TOP, ColumnShift(c1)), RowShift(c2))
  }

  lemma PointToBitA1()
    ensures PointToBit('A', '1') == TOP
  {}

  /** Distinct valid names give distinct bits. */
  lemma PointToBitInjective(c1: char, c2: char, d1: char, d2: char)
    requires ValidName(c1, c2) && ValidName(d1, d2)
    requires PointToBit(c1, c2) == PointToBit(d1, d2)
    ensures c1 == d1 && c2 == d2
  {
    assert 63 - Index(c1, c2) in PointToBit(d1, d2);
  }

  function Letter(k: nat): (c: char)
    requires k < 8
    ensures 'A' <= c <= 'H' && c as int - 'A' as int == k
  {
    if k == 0 then 'A' else if k == 1 then 'B' else if k == 2 then 'C' else if k == 3 then 'D'
    else if k == 4 then 'E' else if k == 5 then 'F' else if k == 6 then 'G' else 'H'
  }

  /** std::char::from_digit(d, 10) for a digit below 10. */
  function FromDigit(d: nat): (c: char)
    requires d < 10
    ensures '0' <= c <= '9' && c as int - '0' as int == d
  {
    ('0' as int + d) as char
  }

  /** Shifted up by k, the lowest bit of x lands on 63 exactly when k == 63 - Lowest(x), and then alone. */
  lemma ShlToTop(x: Bits, k: nat)
    requires x != {} && k <= 63 - Lowest(x)
    ensures Shl(x, k) == TOP <==> k == 63 - Lowest(x)
  {
    var m := Lowest(x);
    assert m + k in Shl(x, k);
    if k == 63 - m {
      forall j | j in Shl(x, k)
        ensures j == 63
      {
        var i :| i in x && i + k < 64 && j == i + k;
      }
    }
  }

  /**
   * bit_to_point: shift a copy left until it equals A1, counting the shifts.
   * The engine only calls it on a non-zero word (it loops forever on 0).  The
   * name it returns is that of the lowest set bit of the word.
   */
  method BitToPoint(num: Bits) returns (c1: char, c2: char)
    requires num != {}
    ensures ValidName(c1, c2)
    ensures PointToBit(c1, c2) == {Lowest(num)}
  {
    var count: nat := 0;
    var numCpy := num;
    ShlOne(0, 0);
    assert Shl(num, 0) == num;
    while numCpy != TOP
      invariant numCpy == Shl(num, count)
      invariant count <= 63 - Lowest(num)
      decreases 63 - count
    {
      ShlToTop(num, count);
      ShlStep(num, count);
      count := count + 1;
      numCpy := Shl(numCpy, 1);
    }
    ShlToTop(num, count);
    c1 := Letter(count % 8);
    c2 := FromDigit(count / 8 + 1);
  }

  /** For a valid name, bit_to_point(point_to_bit(c1, c2)) == (c1, c2). */
  method NameRoundTrip(c1: char, c2: char) returns (d1: char, d2: char)
    requires ValidName(c1, c2)
    ensures d1 == c1 && d2 == c2
  {
    SingleIsLowest(PointToBit(c1, c2));
    d1, d2 := BitToPoint(PointToBit(c1, c2));
    PointToBitInjective(c1, c2, d1, d2);
  }

  /** For a single bit, point_to_bit(bit_to_point(b)) == b. */
  method BitRoundTrip(b: Bits) returns (r: Bits)
    requires Single(b)
    ensures r == b
  {
    var c1, c2 := BitToPoint(b);
    SingleIsLowest(b);
    r := PointToBit(c1, c2);
  }

  // ---------------------------------------------------------------------
  // transfer
  // ---------------------------------------------------------------------

  /** The eight directions of transfer, numbered 0 to 7 clockwise from up. */
  datatype Direction = Up | UpRight | Right | DownRight | Down | DownLeft | Left | UpLeft

  /** The direction with transfer's number k. */
  function DirectionOf(k: int): (d: Direction)
    requires 0 <= k < 8
    ensures k == 0 <==> d == Up
    ensures k == 2 <==> d == Right
    ensures k == 4 <==> d == Down
    ensures k == 6 <==> d == Left
  {
    match k
    case 0 => Up
    case 1 => UpRight
    case 2 => Right
    case 3 => DownRight
    case 4 => Down
    case 5 => DownLeft
    case 6 => Left
    case _ => UpLeft
  }

  /** The column (0 = A) and the row (0 = row 1) of a bit: bit 63 - (c + 8 * r). */
  function Column(q: Square): (c: int)
    ensures 0 <= c < 8
  {
    7 - q % 8
  }

  function Row(q: Square): (r: int)
    ensures 0 <= r < 8 && q == 63 - (Column(q) + 8 * r)
  {
    7 - q / 8
  }

  /** The column and row steps of a direction: up is towards row 1, right towards the H file. */
  function ColumnStep(d: Direction): int
  {
    match d
    case Up => 0 case UpRight => 1 case Right => 1 case DownRight => 1
    case Down => 0 case DownLeft => -1 case Left => -1 case UpLeft => -1
  }

  function RowStep(d: Direction): int
  {
    match d
    case Up => -1 case UpRight => -1 case Right => 0 case DownRight => 1
    case Down => 1 case DownLeft => 1 case Left => 0 case UpLeft => -1
  }

  /** The neighbour of q in direction d stays on the board. */
  predicate HasNeighbour(q: Square, d: Direction)
  {
    0 <= Column(q) + ColumnStep(d) < 8 && 0 <= Row(q) + RowStep(d) < 8
  }

  /** How far one square in direction d moves a bit: the shift amount of transfer, upwards positive. */
  function Offset(d: Direction): (k: int)
    ensures k == -ColumnStep(d) - 8 * RowStep(d)
  {
    match d
    case Up => 8 case UpRight => 7 case Right => -1 case DownRight => -9
    case Down => -8 case DownLeft => -7 case Left => 1 case UpLeft => 9
  }

  /** The bit of the neighbour of q in direction d. */
  function Neighbour(q: Square, d: Direction): (n: Square)
    requires HasNeighbour(q, d)
    ensures Column(n) == Column(q) + ColumnStep(d) && Row(n) == Row(q) + RowStep(d)
  {
    q + Offset(d)
  }

  /** The opposite direction. */
  function Opposite(d: Direction): (e: Direction)
    ensures ColumnStep(e) == -ColumnStep(d) && RowStep(e) == -RowStep(d)
  {
    match d
    case Up => Down case UpRight => DownLeft case Right => Left case DownRight => UpLeft
    case Down => Up case DownLeft => UpRight case Left => Right case UpLeft => DownRight
  }

  /** Stepping in d and back in the opposite direction returns to q. */
  lemma NeighbourBack(q: Square, d: Direction)
    requires HasNeighbour(q, d)
    ensures HasNeighbour(Neighbour(q, d), Opposite(d))
    ensures Neighbour(Neighbour(q, d), Opposite(d)) == q
  {}

  /** The room left on a line of eight squares at position c, moving by `step`. */
  function Room(c: int, step: int): int
  {
    if step > 0 then 7 - c else if step < 0 then c else 7
  }

  /** How many squares a bit can still move in direction d before it leaves the board. */
  function Steps(q: Square, d: Direction): (n: nat)
    ensures n <= 7
  {
    var c, r := Room(Column(q), ColumnStep(d)), Room(Row(q), RowStep(d));
    if c <= r then c else r
  }

  /** Each square moved uses up one of the steps; none is left exactly at the edge. */
  lemma StepsNeighbour(q: Square, d: Direction)
    ensures HasNeighbour(q, d) <==> Steps(q, d) > 0
    ensures HasNeighbour(q, d) ==> Steps(Neighbour(q, d), d) == Steps(q, d) - 1
  {}

  /** The masks of transfer. */
  /** 0xffff_ffff_ffff_ff00 */
  const MASK_UP: Bits := set k: Square | 8 <= k < 64
  /** 0x7f7f_7f7f_7f7f_7f00 */
  const MASK_UP_RIGHT: Bits := set k: Square | 8 <= k < 64 && k % 8 != 7
  /** 0x7f7f_7f7f_7f7f_7f7f */
  const MASK_RIGHT: Bits := set k: Square | 0 <= k < 64 && k % 8 != 7
  /** 0x007f_7f7f_7f7f_7f7f */
  const MASK_DOWN_RIGHT: Bits := set k: Square | 0 <= k < 56 && k % 8 != 7
  /** 0x00ff_ffff_ffff_ffff */
  const MASK_DOWN: Bits := set k: Square | 0 <= k < 56
  /** 0x00fe_fefe_fefe_fefe */
  const MASK_DOWN_LEFT: Bits := set k: Square | 0 <= k < 56 && k % 8 != 0
  /** 0xfefe_fefe_fefe_fefe */
  const MASK_LEFT: Bits := set k: Square | 0 <= k < 64 && k % 8 != 0
  /** 0xfefe_fefe_fefe_fe00 */
  const MASK_UP_LEFT: Bits := set k: Square | 8 <= k < 64 && k % 8 != 0

  /** The shift of transfer in direction d, before its mask; make_legal_board shifts the same way. */
  function Raw(b: Bits, d: Direction): Bits
  {
    match d
    case Up => Shl(b, 8)
    case UpRight => Shl(b, 7)
    case Right => Shr(b, 1)
    case DownRight => Shr(b, 9)
    case Down => Shr(b, 8)
    case DownLeft => Shr(b, 7)
    case Left => Shl(b, 1)
    case UpLeft => Shl(b, 9)
  }

  /** The mask of transfer in direction d. */
  function Mask(d: Direction): Bits
  {
    match d
    case Up => MASK_UP
    case UpRight => MASK_UP_RIGHT
    case Right => MASK_RIGHT
    case DownRight => MASK_DOWN_RIGHT
    case Down => MASK_DOWN
    case DownLeft => MASK_DOWN_LEFT
    case Left => MASK_LEFT
    case UpLeft => MASK_UP_LEFT
  }

  /**
   * transfer: move every bit one square in direction d; the mask drops the
   * bits that would leave the board or wrap around to the other edge.
   */
  function Transfer(b: Bits, d: Direction): Bits
  {
    Raw(b, d) * Mask(d)
  }

  lemma ShlMember(x: Bits, k: nat, q: Square)
    ensures q in Shl(x, k) <==> q >= k && q - k in x
  {
    if q >= k && q - k in x {
      var j: Square := q - k;
      assert j in x && j + k < 64;
    }
  }

  lemma ShrMember(x: Bits, k: nat, q: Square)
    ensures q in Shr(x, k) <==> q + k < 64 && q + k in x
  {
    if q + k < 64 && q + k in x {
      var j: Square := q + k;
      assert j in x && j >= k;
    }
  }

  /** The raw shift moves each bit by the offset of its direction, losing the bits it pushes off the word. */
  lemma RawMember(x: Bits, d: Direction, q: Square)
    ensures q in Raw(x, d) <==> 0 <= q - Offset(d) < 64 && q - Offset(d) in x
  {
    match d
    case Up => ShlMember(x, 8, q);
    case UpRight => ShlMember(x, 7, q);
    case Right => ShrMember(x, 1, q);
    case DownRight => ShrMember(x, 9, q);
    case Down => ShrMember(x, 8, q);
    case DownLeft => ShrMember(x, 7, q);
    case Left => ShlMember(x, 1, q);
    case UpLeft => ShlMember(x, 9, q);
  }

  /** A bit meets a mask in itself or not at all. */
  lemma MaskOne(q: Square, m: Bits)
    ensures {q} * m == if q in m then {q} else {}
  {}

  /** x << k of one bit: the bit k places up, or nothing past 63. */
  lemma ShlOneOff(q: Square, k: nat)
    ensures Shl({q}, k) == if q + k < 64 then {q + k} else {}
  {
    if q + k < 64 { ShlOne(q, k); }
  }

  /** x >> k of one bit: the bit k places down, or nothing below 0. */
  lemma ShrOneOff(q: Square, k: nat)
    ensures Shr({q}, k) == if q >= k then {q - k} else {}
  {
    if q >= k { ShrOne(q, k); }
  }

  lemma TransferUpSquare(q: Square)
    ensures HasNeighbour(q, Up) ==> Transfer({q}, Up) == {Neighbour(q, Up)}
    ensures !HasNeighbour(q, Up) ==> Transfer({q}, Up) == {}
  {
    ShlOneOff(q, 8);
    if q + 8 < 64 { MaskOne(q + 8, MASK_UP); }
  }

  lemma TransferUpRightSquare(q: Square)
    ensures HasNeighbour(q, UpRight) ==> Transfer({q}, UpRight) == {Neighbour(q, UpRight)}
    ensures !HasNeighbour(q, UpRight) ==> Transfer({q}, UpRight) == {}
  {
    ShlOneOff(q, 7);
    if q + 7 < 64 { MaskOne(q + 7, MASK_UP_RIGHT); }
  }

  lemma TransferRightSquare(q: Square)
    ensures HasNeighbour(q, Right) ==> Transfer({q}, Right) == {Neighbour(q, Right)}
    ensures !HasNeighbour(q, Right) ==> Transfer({q}, Right) == {}
  {
    ShrOneOff(q, 1);
    if q >= 1 { MaskOne(q - 1, MASK_RIGHT); }
  }

  lemma TransferDownRightSquare(q: Square)
    ensures HasNeighbour(q, DownRight) ==> Transfer({q}, DownRight) == {Neighbour(q, DownRight)}
    ensures !HasNeighbour(q, DownRight) ==> Transfer({q}, DownRight) == {}
  {
    ShrOneOff(q, 9);
    if q >= 9 { MaskOne(q - 9, MASK_DOWN_RIGHT); }
  }

  lemma TransferDownSquare(q: Square)
    ensures HasNeighbour(q, Down) ==> Transfer({q}, Down) == {Neighbour(q, Down)}
    ensures !HasNeighbour(q, Down) ==> Transfer({q}, Down) == {}
  {
    ShrOneOff(q, 8);
    if q >= 8 { MaskOne(q - 8, MASK_DOWN); }
  }

  lemma TransferDownLeftSquare(q: Square)
    ensures HasNeighbour(q, DownLeft) ==> Transfer({q}, DownLeft) == {Neighbour(q, DownLeft)}
    ensures !HasNeighbour(q, DownLeft) ==> Transfer({q}, DownLeft) == {}
  {
    ShrOneOff(q, 7);
    if q >= 7 { MaskOne(q - 7, MASK_DOWN_LEFT); }
  }

  lemma TransferLeftSquare(q: Square)
    ensures HasNeighbour(q, Left) ==> Transfer({q}, Left) == {Neighbour(q, Left)}
    ensures !HasNeighbour(q, Left) ==> Transfer({q}, Left) == {}
  {
    ShlOneOff(q, 1);
    if q + 1 < 64 { MaskOne(q + 1, MASK_LEFT); }
  }

  lemma TransferUpLeftSquare(q: Square)
    ensures HasNeighbour(q, UpLeft) ==> Transfer({q}, UpLeft) == {Neighbour(q, UpLeft)}
    ensures !HasNeighbour(q, UpLeft) ==> Transfer({q}, UpLeft) == {}
  {
    ShlOneOff(q, 9);
    if q + 9 < 64 { MaskOne(q + 9, MASK_UP_LEFT); }
  }

  /**
   * A single bit moves to the neighbouring square, or is dropped when that
   * square is off the board: the masks leave no wrap-around.
   */
  lemma TransferSquare(q: Square, d: Direction)
    ensures HasNeighbour(q, d) ==> Transfer({q}, d) == {Neighbour(q, d)}
    ensures !HasNeighbour(q, d) ==> Transfer({q}, d) == {}
  {
    match d
    case Up => TransferUpSquare(q);
    case UpRight => TransferUpRightSquare(q);
    case Right => TransferRightSquare(q);
    case DownRight => TransferDownRightSquare(q);
    case Down => TransferDownSquare(q);
    case DownLeft => TransferDownLeftSquare(q);
    case Left => TransferLeftSquare(q);
    case UpLeft => TransferUpLeftSquare(q);
  }

  /** Hence a single bit stays a single bit or falls off the board. */
  lemma TransferSingle(b: Bits, d: Direction)
    requires Single(b)
    ensures Transfer(b, d) == {} || Single(Transfer(b, d))
  {
    SingleIsLowest(b);
    TransferSquare(Lowest(b), d);
  }

  /** Every bit of a transferred board is the neighbour of a bit of the board. */
  lemma TransferPreimage(x: Bits, d: Direction, n: Square) returns (q: Square)
    requires n in Transfer(x, d)
    ensures q in x && HasNeighbour(q, d) && Neighbour(q, d) == n
  {
    RawMember(x, d, n);
    q := n - Offset(d);
    RawMember({q}, d, n);
    assert n in Transfer({q}, d);
    TransferSquare(q, d);
  }

  // ---------------------------------------------------------------------
  // count_ones
  // ---------------------------------------------------------------------

  /** u64::count_ones: the number of one bits. */
  function Pop(x: Bits): nat
  {
    |x|
  }

  /** The count of a union of disjoint boards is the sum of their counts. */
  lemma PopDisjoint(a: Bits, b: Bits)
    requires a * b == {}
    ensures Pop(a + b) == Pop(a) + Pop(b)
  {}
}
