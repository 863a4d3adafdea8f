/**
 * The engine's side of the wire (main.rs `main` after the connection is
 * made): reading the START line, the ACK and MOVE lines, and the loop that
 * waits for a game, plays its own plies and replays the opponent's.  A
 * received line is a string whose characters are its bytes; the move the
 * search decides on is a parameter, and the console output is left out.
 */
module EngineClient {
  import opened EngineBits
  import opened EngineRules
  import RefereeSession
  import RefereeRules

  // ---------------------------------------------------------------------
  // concat
  // ---------------------------------------------------------------------

  const H32: int := 0x8000_0000
  const M32: int := 0x1_0000_0000

  /** An i32 result of wrapping arithmetic (a release build wraps on overflow). */
  function Wrap32(x: int): (r: int)
    ensures -H32 <= r < H32
  {
    (x + H32) % M32 - H32
  }

  /** The i32 value of x is y when they differ by a multiple of 2^32 and y is in range. */
  lemma WrapUnique(x: int, y: int, k: int)
    requires -H32 <= y < H32 && x == y + k * M32
    ensures Wrap32(x) == y
  {}

  lemma WrapOf(x: int)
    ensures x == Wrap32(x) + ((x + H32) / M32) * M32
  {}

  /** Wrapping after each step of a sum or product is wrapping at the end. */
  lemma WrapStep(a: int, d: int)
    ensures Wrap32(Wrap32(Wrap32(a) * 10) + d) == Wrap32(a * 10 + d)
  {
    WrapOf(a);
    var y := Wrap32(a);
    var k := (a + H32) / M32;
    WrapOf(y * 10);
    var z := Wrap32(y * 10);
    var j := (y * 10 + H32) / M32;
    WrapOf(z + d);
    var w := Wrap32(z + d);
    var l := (z + d + H32) / M32;
    assert a * 10 + d == w + (l + j + 10 * k) * M32;
    WrapUnique(a * 10 + d, w, l + j + 10 * k);
  }

  /** The decimal value of a digit string, each byte counted as its code minus that of '0'. */
  function Value(s: string): int
  {
    if s == [] then 0 else Value(s[..|s| - 1]) * 10 + (s[|s| - 1] as int - 48)
  }

  /** concat: the decimal value of the bytes, in i32 arithmetic. */
  method Concat(vec: string) returns (acc: int)
    ensures acc == Wrap32(Value(vec))
  {
    acc := 0;
    for i := 0 to |vec|
      invariant acc == Wrap32(Value(vec[..i]))
    {
      assert vec[..i + 1][..i] == vec[..i];
      WrapStep(Value(vec[..i]), vec[i] as int - 48);
      acc := Wrap32(acc * 10);
      acc := Wrap32(acc + (vec[i] as int - 48));
    }
    assert vec[..|vec|] == vec;
  }

  /** The decimal digits of a number, as the referee writes it. */
  function Decimal(n: nat): (s: string)
    ensures |s| > 0 && forall i | 0 <= i < |s| :: '0' <= s[i] <= '9'
  {
    if n < 10 then [('0' as int + n) as char] else Decimal(n / 10) + [('0' as int + n % 10) as char]
  }

  /** The digits read back to their number; hence concat reads back every i32 that is not negative. */
  lemma {:induction false} DecimalValue(n: nat)
    ensures Value(Decimal(n)) == n
    ensures n < H32 ==> Wrap32(Value(Decimal(n))) == n
  {
    if n >= 10 {
      DecimalValue(n / 10);
      var s := Decimal(n);
      assert s[..|s| - 1] == Decimal(n / 10);
    }
    if n < H32 {
      WrapUnique(n, n, 0);
    }
  }

  // ---------------------------------------------------------------------
  // Scanning a line
  // ---------------------------------------------------------------------

  /** What the engine makes of a line: a value, or a panic (an index past the end, an unexpected line). */
  datatype Outcome<T> = Ok(value: T) | Panic

  /** The first position at or after i whose byte is in `stops`; None when the line ends first. */
  function FirstOf(s: string, i: nat, stops: set<char>): (r: RefereeSession.Option<nat>)
    ensures r.Some? ==> i <= r.value < |s| && s[r.value] in stops
    ensures r.Some? ==> forall k | i <= k < r.value :: s[k] !in stops
    ensures r.None? ==> forall k | i <= k < |s| :: s[k] !in stops
    decreases |s| - i
  {
    if i >= |s| then RefereeSession.None
    else if s[i] in stops then RefereeSession.Some(i)
    else FirstOf(s, i + 1, stops)
  }

  /** The stop found by FirstOf is the first one from i on. */
  lemma {:induction false} FirstOfAt(s: string, i: nat, j: nat, stops: set<char>)
    requires i <= j < |s| && s[j] in stops && forall k | i <= k < j :: s[k] !in stops
    ensures FirstOf(s, i, stops) == RefereeSession.Some(j)
    decreases j - i
  {
    if i < j {
      FirstOfAt(s, i + 1, j, stops);
    }
  }

  /** The scanning loops of main and read_start: step on while the byte is not a stop, panicking past the end. */
  method Scan(s: string, i: nat, stops: set<char>) returns (r: Outcome<nat>)
    ensures FirstOf(s, i, stops).None? ==> r == Panic
    ensures FirstOf(s, i, stops).Some? ==> r == Ok(FirstOf(s, i, stops).value)
  {
    var j := i;
    while j < |s| && s[j] !in stops
      invariant i <= j && FirstOf(s, j, stops) == FirstOf(s, i, stops)
      decreases |s| - j
    {
      j := j + 1;
    }
    if j >= |s| {
      return Panic;
    }
    return Ok(j);
  }

  // ---------------------------------------------------------------------
  // read_start
  // ---------------------------------------------------------------------

  /** What START tells the engine: its own colour, the opponent's name and the time left. */
  datatype Start = Start(myColor: int, opponentName: string, leftTime: int)

  /**
   * read_start: after the leading 'S', the first 'B' or 'W' gives the colour;
   * six bytes on ("BLACK " or "WHITE ") the name runs to the next space and
   * the time to the newline.  A line not starting with 'S', or one that ends
   * before a scan finds its stop, makes the engine panic.
   */
  function StartOf(line: string): Outcome<Start>
  {
    if |line| == 0 || line[0] != 'S' then Panic
    else match FirstOf(line, 1, {'B', 'W'})
      case None => Panic
      case Some(c) =>
        match FirstOf(line, c + 6, {' '})
        case None => Panic
        case Some(e) =>
          match FirstOf(line, e + 1, {'\n'})
          case None => Panic
          case Some(n) => Ok(Start(if line[c] == 'B' then BLACK else WHITE, line[c + 6..e], Wrap32(Value(line[e + 1..n]))))
  }

  method ReadStart(buffer: string) returns (r: Outcome<Start>)
    ensures r == StartOf(buffer)
  {
    if |buffer| == 0 || buffer[0] != 'S' {
      return Panic;
    }
    var c := Scan(buffer, 1, {'B', 'W'});
    if c.Panic? {
      return Panic;
    }
    var myColor := if buffer[c.value] == 'B' then BLACK else WHITE;
    var e := Scan(buffer, c.value + 6, {' '});
    if e.Panic? {
      return Panic;
    }
    var opponentName := buffer[c.value + 6..e.value];
    var n := Scan(buffer, e.value + 1, {'\n'});
    if n.Panic? {
      return Panic;
    }
    var leftTime := Concat(buffer[e.value + 1..n.value]);
    return Ok(Start(myColor, opponentName, leftTime));
  }

  /** The START line of the protocol: colour word, name and time, space separated. */
  function StartText(black: bool, name: string, time: nat): string
  {
    "START " + (if black then "BLACK" else "WHITE") + " " + name + " " + Decimal(time) + "\n"
  }

  /** The colour word of a START line is at position 6, the first 'B' or 'W' after the 'S'. */
  lemma StartColour(black: bool, name: string, time: nat)
    ensures var line := StartText(black, name, time);
      line[0] == 'S' && line[6] == (if black then 'B' else 'W') && FirstOf(line, 1, {'B', 'W'}) == RefereeSession.Some(6)
  {
    var line := StartText(black, name, time);
    assert line[..7] == "START " + [if black then 'B' else 'W'];
    FirstOfAt(line, 1, 6, {'B', 'W'});
  }

  /** The name of a START line runs from position 12 to the next space. */
  lemma StartName(black: bool, name: string, time: nat)
    requires ' ' !in name
    ensures var line := StartText(black, name, time);
      var e := 12 + |name|;
      e < |line| && line[12..e] == name && FirstOf(line, 12, {' '}) == RefereeSession.Some(e)
  {
    var line := StartText(black, name, time);
    var e := 12 + |name|;
    assert line == "START " + (if black then "BLACK" else "WHITE") + " " + name + (" " + Decimal(time) + "\n");
    assert line[12..e] == name && line[e] == ' ';
    assert forall k | 12 <= k < e :: line[k] == name[k - 12];
    FirstOfAt(line, 12, e, {' '});
  }

  /** The time of a START line runs from after the name's space to the newline. */
  lemma StartTime(black: bool, name: string, time: nat)
    ensures var line := StartText(black, name, time);
      var e := 12 + |name|;
      var n := e + 1 + |Decimal(time)|;
      line[e + 1..n] == Decimal(time) && FirstOf(line, e + 1, {'\n'}) == RefereeSession.Some(n)
  {
    var line := StartText(black, name, time);
    var digits := Decimal(time);
    var e := 12 + |name|;
    var n := e + 1 + |digits|;
    assert line == ("START " + (if black then "BLACK" else "WHITE") + " " + name + " ") + digits + "\n";
    assert line[e + 1..n] == digits && line[n] == '\n';
    assert forall k | e + 1 <= k < n :: line[k] == digits[k - e - 1];
    FirstOfAt(line, e + 1, n, {'\n'});
  }

  /** read_start reads back every START line whose name has no space and whose time fits an i32. */
  lemma StartRoundTrip(black: bool, name: string, time: nat)
    requires ' ' !in name && time < H32
    ensures StartOf(StartText(black, name, time)) == Ok(Start(if black then BLACK else WHITE, name, time))
  {
    StartColour(black, name, time);
    StartName(black, name, time);
    StartTime(black, name, time);
    DecimalValue(time);
  }

  lemma SixMillion()
    ensures Decimal(6000000) == "6000000"
  {
    assert Decimal(6) == "6";
    assert Decimal(60) == "60";
    assert Decimal(600) == "600";
    assert Decimal(6000) == "6000";
    assert Decimal(60000) == "60000";
    assert Decimal(600000) == "600000";
  }

  lemma StartTextBlack()
    ensures StartText(true, "user", 6000000) == "START BLACK user 6000000\n"
  {
    SixMillion();
  }

  lemma StartTextWhite()
    ensures StartText(false, "user", 6000000) == "START WHITE user 6000000\n"
  {
    SixMillion();
  }

  /**
   * The referee's START line reaches the engine as the colour the local
   * player did not choose, the name "user" and 6000000 milliseconds.
   */
  lemma RefereeStart(choice: string)
    requires RefereeSession.StartLine(choice).Some?
    ensures StartOf(RefereeSession.StartLine(choice).value) ==
      Ok(Start(if choice == "w" then BLACK else WHITE, "user", 6000000))
  {
    StartTextBlack();
    StartTextWhite();
    StartRoundTrip(choice == "w", "user", 6000000);
  }

  // ---------------------------------------------------------------------
  // MOVE and ACK lines
  // ---------------------------------------------------------------------

  /**
   * The square of an opponent's MOVE line: after the first space, 'P' is a
   * pass (no bit) and anything else the two bytes point_to_bit reads; a line
   * that ends first makes the engine panic.
   */
  function MoveOf(line: string): Outcome<Bits>
  {
    match FirstOf(line, 1, {' '})
    case None => Panic
    case Some(j) =>
      if j + 1 >= |line| then Panic
      else if line[j + 1] == 'P' then Ok({})
      else if j + 2 >= |line| then Panic
      else Ok(PointToBit(line[j + 1], line[j + 2]))
  }

  method ReadMove(buffer: string) returns (r: Outcome<Bits>)
    ensures r == MoveOf(buffer)
  {
    var j := Scan(buffer, 1, {' '});
    if j.Panic? {
      return Panic;
    }
    var i := j.value + 1;
    if i >= |buffer| {
      return Panic;
    }
    if buffer[i] == 'P' {
      return Ok({});
    }
    if i + 1 >= |buffer| {
      return Panic;
    }
    return Ok(PointToBit(buffer[i], buffer[i + 1]));
  }

  /** The name bit_to_point gives a square. */
  function NameOf(q: Square): string
  {
    [Letter((63 - q) % 8), FromDigit((63 - q) / 8 + 1)]
  }

  lemma NameOfBit(q: Square)
    ensures ValidName(NameOf(q)[0], NameOf(q)[1])
    ensures PointToBit(NameOf(q)[0], NameOf(q)[1]) == {q}
  {}

  /** The MOVE line the engine sends for its decision: PASS for no bit, else the name of the lowest bit. */
  function MoveText(bit: Bits): string
  {
    if bit == {} then "MOVE PASS\n" else "MOVE " + NameOf(Lowest(bit)) + "\n"
  }

  /** Every MOVE line the engine sends reads back to the move it decided, when that is one square or a pass. */
  lemma MoveRoundTrip(bit: Bits)
    requires bit == {} || Single(bit)
    ensures MoveOf(MoveText(bit)) == Ok(bit)
  {
    var line := MoveText(bit);
    assert FirstOf(line, 1, {' '}) == RefereeSession.Some(4) by {
      assert line[1] == 'O' && line[2] == 'V' && line[3] == 'E' && line[4] == ' ';
    }
    if bit != {} {
      SingleIsLowest(bit);
      NameOfBit(Lowest(bit));
    }
  }

  /** The referee's encoder reads the name of a square as its column and row counted from 1. */
  lemma EncodeName(q: Square)
    ensures RefereeSession.Encoder(NameOf(q)) == RefereeRules.Point(Column(q) + 1, Row(q) + 1)
  {}

  /** The referee's encoder puts an engine MOVE on the same square. */
  lemma MoveEncodes(q: Square)
    ensures RefereeSession.Encoder(RefereeSession.MoveToken(MoveText({q}))) ==
      RefereeRules.Point(Column(q) + 1, Row(q) + 1)
  {
    var line := MoveText({q});
    assert Lowest({q}) == q;
    assert line == "MOVE " + NameOf(q) + "\n";
    assert RefereeSession.MoveToken(line) == line[5..7] == NameOf(q);
    EncodeName(q);
  }

  /** The time left of an ACK line: the bytes from position 4 to the newline. */
  function AckTimeOf(line: string): Outcome<int>
  {
    match FirstOf(line, 4, {'\n'})
    case None => Panic
    case Some(n) => Ok(Wrap32(Value(line[4..n])))
  }

  method ReadAck(buffer: string) returns (r: Outcome<int>)
    ensures r == AckTimeOf(buffer)
  {
    var n := Scan(buffer, 4, {'\n'});
    if n.Panic? {
      return Panic;
    }
    var t := Concat(buffer[4..n.value]);
    return Ok(t);
  }

  /** The referee's ACK line gives the engine 6000000 milliseconds. */
  lemma RefereeAck()
    ensures AckTimeOf("ACK 6000000\n") == Ok(6000000)
  {
    var line := "ACK 6000000\n";
    SixMillion();
    assert line == "ACK " + Decimal(6000000) + "\n";
    assert line[4..11] == Decimal(6000000);
    FirstOfAt(line, 4, 11, {'\n'});
    DecimalValue(6000000);
  }

  // ---------------------------------------------------------------------
  // The main loop
  // ---------------------------------------------------------------------

  /** Running the loop, returned after BYE, or stopped by a panic. */
  datatype Status = Running | Exited | Panicked

  /** The loop's variables: what START and ACK set, the history of positions and the position. */
  datatype Client = Client(status: Status, isWaiting: bool, myColor: int, opponentName: string,
                           leftTime: int, history: seq<Info>, info: Info, sent: seq<string>)

  /** The state main enters the loop with, after sending OPEN. */
  function Initial(name: string): Client
  {
    Client(Running, true, BLACK, "", 0, [], StartInfo(), ["OPEN " + name + "\n"])
  }

  /** The move applied on both sides of the loop: the position is pushed, placed and swapped, whatever place returns. */
  function Replay(c: Client, bit: Bits): Client
  {
    c.(history := c.history + [c.info], info := Swapped(PlaceSpec(c.info, bit).after))
  }

  /** The waiting state: BYE returns, START starts a fresh game, anything else panics. */
  function OnWaiting(c: Client, line: string): Client
  {
    if |line| == 0 then c.(status := Panicked)
    else if line[0] == 'B' then c.(status := Exited)
    else if line[0] == 'S' then
      match StartOf(line)
      case Panic => c.(status := Panicked)
      case Ok(st) => c.(myColor := st.myColor, opponentName := st.opponentName, leftTime := st.leftTime,
                        history := [], info := StartInfo(), isWaiting := false)
    else c.(status := Panicked)
  }

  /** The engine's own ply: it sends its move; END returns to waiting, ACK replays the move, anything else panics. */
  function OnOwnTurn(c: Client, bit: Bits, reply: string): Client
  {
    var c1 := c.(sent := c.sent + [MoveText(bit)]);
    if |reply| == 0 then c1.(status := Panicked)
    else if reply[0] == 'E' then c1.(isWaiting := true)
    else if reply[0] == 'A' then
      match AckTimeOf(reply)
      case Panic => c1.(status := Panicked)
      case Ok(t) => Replay(c1.(leftTime := t), bit)
    else c1.(status := Panicked)
  }

  /** The opponent's ply: MOVE replays the move, END returns to waiting, anything else panics. */
  function OnOpponentTurn(c: Client, line: string): Client
  {
    if |line| == 0 then c.(status := Panicked)
    else if line[0] == 'M' then
      match MoveOf(line)
      case Panic => c.(status := Panicked)
      case Ok(bit) => Replay(c, bit)
    else if line[0] == 'E' then c.(isWaiting := true)
    else c.(status := Panicked)
  }

  /** Whose ply the loop body plays: set by the colour START gave and the side to move. */
  predicate OwnTurn(c: Client)
  {
    !c.isWaiting && c.info.nowTurn == c.myColor
  }

  /** A game position as the loop keeps it: the sides apart and one of the two colours to move. */
  predicate Sound(c: Client)
  {
    Disjoint(c.info) && (c.info.nowTurn == BLACK || c.info.nowTurn == WHITE) &&
    (c.myColor == BLACK || c.myColor == WHITE)
  }

  /** START resets the game: empty history, the start position with black to move, and the colour read. */
  lemma StartResets(c: Client, line: string)
    requires OnWaiting(c, line).status == Running && !OnWaiting(c, line).isWaiting
    ensures var d := OnWaiting(c, line);
      StartOf(line).Ok? && d.history == [] && d.info == StartInfo() &&
      d.info.nowTurn == BLACK && d.info.nowIndex == 1 && d.myColor == StartOf(line).value.myColor
    ensures c.status == Running ==> |line| > 0 && line[0] == 'S'
  {}

  /** Only BYE ends the loop from the waiting state, and only START leaves it running. */
  lemma WaitingLines(c: Client, line: string)
    requires c.status == Running
    ensures OnWaiting(c, line).status == Exited <==> |line| > 0 && line[0] == 'B'
    ensures OnWaiting(c, line).status == Running <==> |line| > 0 && line[0] == 'S' && StartOf(line).Ok?
  {}

  /**
   * A replayed ply keeps the position sound and hands the move to the other
   * side: one square more is taken when the move was legal, none on a pass
   * or a refused move, and the position before it is kept in the history.
   */
  lemma ReplayPly(c: Client, bit: Bits)
    requires Sound(c) && (bit == {} || Single(bit))
    ensures var d := Replay(c, bit);
      Sound(d) && d.info.nowTurn == -c.info.nowTurn &&
      d.history == c.history + [c.info] && d.myColor == c.myColor
    ensures var d := Replay(c, bit);
      Pop(d.info.player) + Pop(d.info.opponent) ==
        Pop(c.info.player) + Pop(c.info.opponent) + (if PlaceSpec(c.info, bit).code == PLACE_ERR || bit == {} then 0 else 1)
  {
    PlaceRefused(c.info, bit);
    if bit != {} && bit <= Legal(c.info.player, c.info.opponent) {
      PlaceMove(c.info, bit);
    }
  }

  /**
   * After the engine's own ply the opponent is to move, and after the
   * opponent's ply the engine is; END always returns to waiting.
   */
  lemma PliesAlternate(c: Client, bit: Bits, line: string)
    requires Sound(c) && c.status == Running && !c.isWaiting && (bit == {} || Single(bit))
    ensures OwnTurn(c) && OnOwnTurn(c, bit, line).status == Running ==>
      OnOwnTurn(c, bit, line).isWaiting || (Sound(OnOwnTurn(c, bit, line)) && !OwnTurn(OnOwnTurn(c, bit, line)))
    ensures !OwnTurn(c) && OnOpponentTurn(c, line).status == Running ==>
      OnOpponentTurn(c, line).isWaiting || (Sound(OnOpponentTurn(c, line)) && OwnTurn(OnOpponentTurn(c, line)))
    ensures |line| > 0 && line[0] == 'E' ==> OnOwnTurn(c, bit, line).isWaiting && OnOpponentTurn(c, line).isWaiting
  {
    if |line| > 0 && line[0] == 'A' && AckTimeOf(line).Ok? {
      ReplayPly(c.(sent := c.sent + [MoveText(bit)], leftTime := AckTimeOf(line).value), bit);
    }
    if |line| > 0 && line[0] == 'M' && MoveOf(line).Ok? {
      var b := MoveOf(line).value;
      assert b == {} || Single(b);
      ReplayPly(c, b);
    }
  }

  /**
   * main's loop as an object: the board is one BoardInfo updated in place by
   * place and swap; the history receives clones of it.
   */
  class Engine {
    var status: Status
    var isWaiting: bool
    var myColor: int
    var opponentName: string
    var leftTime: int
    var history: seq<Info>
    var sent: seq<string>
    const board: BoardInfo

    function State(): Client
      reads this, board
    {
      Client(status, isWaiting, myColor, opponentName, leftTime, history, board.Snapshot(), sent)
    }

    /** main up to the loop: OPEN is sent, the defaults are set and the board is at the start position. */
    constructor (name: string)
      ensures State() == Initial(name)
    {
      status, isWaiting, myColor, opponentName, leftTime, history := Running, true, BLACK, "", 0, [];
      sent := ["OPEN " + name + "\n"];
      board := new BoardInfo(StartInfo());
    }

    /** The pushed clone, place and swap shared by both plies. */
    method Play(bit: Bits)
      modifies this, board
      ensures State() == Replay(old(State()), bit)
    {
      history := history + [board.Snapshot()];
      var _ := board.Place(bit);
      board.Swap();
    }

    /** The waiting branch of the loop. */
    method ReceiveWaiting(line: string)
      requires status == Running && isWaiting
      modifies this, board
      ensures State() == OnWaiting(old(State()), line)
    {
      if |line| == 0 {
        status := Panicked;
      } else if line[0] == 'B' {
        status := Exited;
      } else if line[0] == 'S' {
        var st := ReadStart(line);
        if st.Panic? {
          status := Panicked;
          return;
        }
        myColor, opponentName, leftTime := st.value.myColor, st.value.opponentName, st.value.leftTime;
        history := [];
        board.Assign(StartInfo());
        isWaiting := false;
      } else {
        status := Panicked;
      }
    }

    /** The engine's own ply: `bit` is what the search decided. */
    method PlayOwn(bit: Bits, reply: string)
      requires status == Running && !isWaiting && board.nowTurn == myColor
      modifies this, board
      ensures State() == OnOwnTurn(old(State()), bit, reply)
    {
      if bit == {} {
        sent := sent + ["MOVE PASS\n"];
      } else {
        var c1, c2 := BitToPoint(bit);
        NameOfBit(Lowest(bit));
        PointToBitInjective(c1, c2, NameOf(Lowest(bit))[0], NameOf(Lowest(bit))[1]);
        sent := sent + ["MOVE " + [c1, c2] + "\n"];
      }
      if |reply| == 0 {
        status := Panicked;
      } else if reply[0] == 'E' {
        isWaiting := true;
      } else if reply[0] == 'A' {
        var t := ReadAck(reply);
        if t.Panic? {
          status := Panicked;
          return;
        }
        leftTime := t.value;
        Play(bit);
      } else {
        status := Panicked;
      }
    }

    /** The opponent's ply. */
    method ReceiveOpponent(line: string)
      requires status == Running && !isWaiting && board.nowTurn != myColor
      modifies this, board
      ensures State() == OnOpponentTurn(old(State()), line)
    {
      if |line| == 0 {
        status := Panicked;
      } else if line[0] == 'M' {
        var bit := ReadMove(line);
        if bit.Panic? {
          status := Panicked;
          return;
        }
        Play(bit.value);
      } else if line[0] == 'E' {
        isWaiting := true;
      } else {
        status := Panicked;
      }
    }
  }
}
