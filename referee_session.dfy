/** The referee's side of the wire (interface.py `main`): the choice of colours, the
    `encoder` of two-character cell names, and one ply at a time of the loop that
    alternates the engine's ply (a received `MOVE` line, answered with `ACK` or
    `END`/`BYE`) with the local player's ply (the commands `p`, `u`, `x` or a cell
    name, answered with `MOVE`, `UNDO` or `END`/`BYE`). Socket reads and `input()`
    become the parameters of the step methods; what is sent is appended to `sent`. */
module RefereeSession {
  import opened RefereeRules
  import opened RefereeBoard

  predicate IsDigit(c: char)
  {
    '0' <= c <= '9'
  }

  /** encoder: the letter gives the column (`ord(s[0]) - ord('A') + 1`) and the digit the
      row; a token too short for a second character, or whose second character is not a
      digit, gives the sentinel Point(0, 0). */
  function Encoder(s: string): (p: Point)
    ensures Playable(p) <==> |s| >= 2 && 'A' <= s[0] <= 'H' && '1' <= s[1] <= '8'
    ensures (|s| < 2 || !IsDigit(s[1])) ==> p == Point(0, 0)
  {
    if |s| < 2 || !IsDigit(s[1]) then Point(0, 0)
    else Point(s[0] as int - 'A' as int + 1, s[1] as int - '0' as int)
  }

  /** The two-character name of a playable cell: column letter A..H, row digit 1..8. */
  function CellName(p: Point): (s: string)
    requires Playable(p)
    ensures |s| == 2 && 'A' <= s[0] <= 'H' && '1' <= s[1] <= '8'
  {
    [('A' as int + p.x - 1) as char, ('0' as int + p.y) as char]
  }

  /** encoder reads back the name of every playable cell. */
  lemma EncoderName(p: Point)
    requires Playable(p)
    ensures Encoder(CellName(p)) == p
  {
  }

  /** A token that encoder maps onto the board starts with that cell's name. */
  lemma NameEncoder(s: string)
    requires Playable(Encoder(s))
    ensures CellName(Encoder(s)) == s[..2]
  {
  }

  /** The sentinel and every other token outside the board are refused by move. */
  lemma EncoderRefused(s: Position, tok: string)
    requires Framed(s.grid)
    ensures CanMove(s, Encoder(tok)) ==> |tok| >= 2 && 'A' <= tok[0] <= 'H' && '1' <= tok[1] <= '8'
    ensures !CanMove(s, Point(0, 0))
  {
  }

  /** `c.upper()` for the ASCII letters; every other character is left as it is. */
  function UpperCase(c: char): (u: char)
    ensures 'a' <= c <= 'z' ==> 'A' <= u <= 'Z' && u as int == c as int - 32
    ensures !('a' <= c <= 'z') ==> u == c
  {
    if 'a' <= c <= 'z' then (c as int - 32) as char else c
  }

  /** `inp[0].upper() + inp[1]`: the token moved to and echoed for a local cell name. */
  function Token(inp: string): (t: string)
    requires |inp| >= 2
    ensures |t| == 2 && t[1] == inp[1]
  {
    [UpperCase(inp[0]), inp[1]]
  }

  /** The START line for the colour answer: `my_color` names the engine's colour, so the
      answer "b" (the local player takes black) sends WHITE; any other answer ends main.
      What the engine reads from it is stated by EngineClient.RefereeStart. */
  function StartLine(choice: string): (r: Option<string>)
    ensures r.Some? <==> choice == "b" || choice == "w"
  {
    if choice == "b" then Some("START WHITE user 6000000\n")
    else if choice == "w" then Some("START BLACK user 6000000\n")
    else None
  }

  datatype Option<T> = None | Some(value: T)

  /** A received line counts as a ply only when it starts with "MOVE ". */
  predicate IsMoveLine(line: string)
  {
    |line| >= 5 && line[..5] == "MOVE "
  }

  /** `recv_line[5:7]`: the cell token of a MOVE line, shortened when the line is. */
  function MoveToken(line: string): string
    requires |line| > 5
  {
    line[5..if |line| < 7 then |line| else 7]
  }

  /** The position after a received line: a MOVE line plays its cell or passes through
      Board's move and move_pass, which refuse what is not allowed; any other line changes
      nothing. */
  ghost function PeerEffect(s: Position, line: string): (t: Position)
    requires PositionOK(s)
    ensures !IsMoveLine(line) ==> t == s
  {
    if !IsMoveLine(line) || |line| == 5 then s
    else if line[5] == 'P' then (if CanPass(s) then AfterPass(s) else s)
    else if CanMove(s, Encoder(MoveToken(line))) then AfterMove(s, Encoder(MoveToken(line)))
    else s
  }

  /** A MOVE line naming a cell the engine may play moves there. */
  lemma PeerMoveLine(s: Position, p: Point)
    requires PositionOK(s) && CanMove(s, p)
    ensures PeerEffect(s, "MOVE " + CellName(p) + "\n") == AfterMove(s, p)
  {
    var line := "MOVE " + CellName(p) + "\n";
    assert line[..5] == "MOVE " && MoveToken(line) == CellName(p);
    EncoderName(p);
  }

  /** A MOVE line whose token is not the name of a playable cell changes nothing. */
  lemma PeerBadToken(s: Position, line: string)
    requires PositionOK(s) && IsMoveLine(line) && |line| > 5 && line[5] != 'P'
    requires !Playable(Encoder(MoveToken(line)))
    ensures PeerEffect(s, line) == s
  {
  }

  /** Where main is: waiting for the engine's line, about to start the local ply, reading
      local commands, ended by END/BYE or exit, or stopped by an uncaught IndexError. */
  datatype Phase = PeerTurn | LocalTurn | Input | Finished | Crashed

  class Session {
    const board: Board
    var phase: Phase
    /** Every line sent to the engine, in order. */
    var sent: seq<string>

    ghost predicate Valid()
      reads this, board
    {
      board.Valid()
    }

    /** main up to the loop: the colour question, START, a fresh Board; the engine moves
        first when it plays black. An answer other than "b" or "w" ends main at once. */
    constructor (choice: string)
      ensures Valid() && IsInitial(board.Current()) && board.updatelog == []
      ensures StartLine(choice).None? ==> phase == Finished && sent == []
      ensures StartLine(choice).Some? ==> sent == [StartLine(choice).value]
      ensures choice == "w" ==> phase == PeerTurn
      ensures choice == "b" ==> phase == LocalTurn
    {
      board := new Board();
      var start := StartLine(choice);
      if start.None? {
        phase := Finished;
        sent := [];
      } else {
        sent := [start.value];
        phase := if choice == "w" then PeerTurn else LocalTurn;
      }
    }

    /** The engine's ply: a MOVE line is played (or passed) on the board, whatever move or
        move_pass answers; then END and BYE end the game if it is over, and ACK is sent
        otherwise. The line "MOVE " alone stops main at `recv_line[5]`. */
    method OnPeerLine(line: string)
      requires Valid() && phase == PeerTurn
      modifies this`phase, this`sent, board
      ensures Valid()
      ensures phase == Crashed <==> line == "MOVE "
      ensures phase == Crashed ==> unchanged(board) && sent == old(sent)
      ensures !IsMoveLine(line) ==> unchanged(board)
      ensures phase != Crashed ==> board.Current() == PeerEffect(old(board.Current()), line)
      ensures phase != Crashed ==> (phase == Finished <==> GameOver(board.Current()))
      ensures phase == Finished ==> sent == old(sent) + ["END\n", "BYE\n"]
      ensures phase != Crashed && phase != Finished ==> phase == LocalTurn && sent == old(sent) + ["ACK 6000000\n"]
    {
      if |line| >= 5 && line[..5] == "MOVE " {
        if |line| == 5 {
          phase := Crashed;
          return;
        }
        PlayPeerMove(line);
      }
      var over := board.IsGameOver();
      if over {
        sent := sent + ["END\n", "BYE\n"];
        phase := Finished;
      } else {
        sent := sent + ["ACK 6000000\n"];
        phase := LocalTurn;
      }
    }

    /** The board update of a MOVE line with a token: move for a cell, move_pass for 'P'. */
    method PlayPeerMove(line: string)
      requires Valid() && IsMoveLine(line) && |line| > 5
      modifies board
      ensures Valid()
      ensures board.Current() == PeerEffect(old(board.Current()), line)
    {
      if line[5] != 'P' {
        var _ := board.Move(Encoder(line[5..if |line| < 7 then |line| else 7]));
      } else {
        var _ := board.MovePass();
      }
    }

    /** The start of the local ply: with no cached legal cell the referee sends MOVE PASS
        and passes for the local player; otherwise it reads commands. */
    method BeginLocal()
      requires Valid() && phase == LocalTurn
      modifies this`phase, this`sent, board
      ensures Valid()
      ensures CanPass(old(board.Current())) ==>
        board.Current() == AfterPass(old(board.Current())) && sent == old(sent) + ["MOVE PASS\n"] && phase == PeerTurn
      ensures !CanPass(old(board.Current())) ==> unchanged(board) && sent == old(sent) && phase == Input
    {
      if |board.movablePos[board.turns]| == 0 {
        sent := sent + ["MOVE PASS\n"];
        var _ := board.MovePass();
        phase := PeerTurn;
      } else {
        phase := Input;
      }
    }

    /** One command of the local ply:
        - "p" passes when move_pass allows it, and then either ends the game or stops at
          `inp[1]` while building the echo;
        - "u" calls undo twice and sends UNDO only when the second call succeeds;
        - "x" sends END and BYE and exits;
        - a shorter command stops main at `inp[0]` or `inp[1]`;
        - any other command is moved to through encoder; a refused cell asks again, and an
          accepted one is echoed by name unless the game is over. */
    method OnInput(inp: string)
      requires Valid() && phase == Input
      modifies this`phase, this`sent, board
      ensures Valid()
      ensures inp == "p" && !CanPass(old(board.Current())) ==> unchanged(board) && sent == old(sent) && phase == Input
      ensures inp == "p" && CanPass(old(board.Current())) ==> board.Current() == AfterPass(old(board.Current()))
      ensures inp == "p" && CanPass(old(board.Current())) ==>
        if GameOver(board.Current()) then phase == Finished && sent == old(sent) + ["END\n", "BYE\n"]
        else phase == Crashed && sent == old(sent)
      ensures inp == "u" ==> phase == Input
      ensures inp == "u" ==> var n := |old(board.updatelog)|;
        board.updatelog == old(board.updatelog)[..n - Min(2, n)] && board.hist == old(board.hist)[..n + 1 - Min(2, n)]
      ensures inp == "u" ==> sent == old(sent) + (if |old(board.updatelog)| >= 2 then ["UNDO\n"] else [])
      ensures inp == "x" ==> unchanged(board) && phase == Finished && sent == old(sent) + ["END\n", "BYE\n"]
      ensures inp != "p" && inp != "u" && inp != "x" && |inp| < 2 ==> unchanged(board) && sent == old(sent) && phase == Crashed
      ensures |inp| >= 2 && !CanMove(old(board.Current()), Encoder(Token(inp))) ==>
        unchanged(board) && sent == old(sent) && phase == Input
      ensures |inp| >= 2 && CanMove(old(board.Current()), Encoder(Token(inp))) ==>
        var p := Encoder(Token(inp));
        board.Current() == AfterMove(old(board.Current()), p) &&
        if GameOver(board.Current()) then phase == Finished && sent == old(sent) + ["END\n", "BYE\n"]
        else phase == PeerTurn && sent == old(sent) + ["MOVE " + CellName(p) + "\n"]
    {
      if inp == "p" {
        InputPass();
      } else if inp == "u" {
        InputUndo();
      } else if inp == "x" {
        sent := sent + ["END\n", "BYE\n"];
        phase := Finished;
      } else if |inp| < 2 {
        phase := Crashed;
      } else {
        InputMove(inp);
      }
    }

    /** The "p" command: a refused pass asks again; an accepted one ends the game or stops main. */
    method InputPass()
      requires Valid() && phase == Input
      modifies this`phase, this`sent, board
      ensures Valid()
      ensures !CanPass(old(board.Current())) ==> unchanged(board) && sent == old(sent) && phase == Input
      ensures CanPass(old(board.Current())) ==> board.Current() == AfterPass(old(board.Current()))
      ensures CanPass(old(board.Current())) ==>
        if GameOver(board.Current()) then phase == Finished && sent == old(sent) + ["END\n", "BYE\n"]
        else phase == Crashed && sent == old(sent)
    {
      var ok := board.MovePass();
      if !ok {
        return;
      }
      var over := board.IsGameOver();
      if over {
        sent := sent + ["END\n", "BYE\n"];
        phase := Finished;
      } else {
        phase := Crashed;
      }
    }

    /** The "u" command: two undo calls, UNDO sent when the second one succeeds. */
    method InputUndo()
      requires Valid() && phase == Input
      modifies this`sent, board
      ensures Valid() && phase == Input
      ensures var n := |old(board.updatelog)|;
        board.updatelog == old(board.updatelog)[..n - Min(2, n)] && board.hist == old(board.hist)[..n + 1 - Min(2, n)]
      ensures sent == old(sent) + (if |old(board.updatelog)| >= 2 then ["UNDO\n"] else [])
    {
      var _ := board.Undo();
      var ok := board.Undo();
      if ok {
        sent := sent + ["UNDO\n"];
      }
    }

    /** A cell command: moved to through encoder; a refused cell asks again, and an accepted one
        is echoed by name unless the game is over. */
    method InputMove(inp: string)
      requires Valid() && phase == Input && |inp| >= 2
      modifies this`phase, this`sent, board
      ensures Valid()
      ensures !CanMove(old(board.Current()), Encoder(Token(inp))) ==>
        unchanged(board) && sent == old(sent) && phase == Input
      ensures CanMove(old(board.Current()), Encoder(Token(inp))) ==>
        var p := Encoder(Token(inp));
        board.Current() == AfterMove(old(board.Current()), p) &&
        if GameOver(board.Current()) then phase == Finished && sent == old(sent) + ["END\n", "BYE\n"]
        else phase == PeerTurn && sent == old(sent) + ["MOVE " + CellName(p) + "\n"]
    {
      var tok := [UpperCase(inp[0]), inp[1]];
      var ok := board.Move(Encoder(tok));
      if !ok {
        return;
      }
      var over := board.IsGameOver();
      if over {
        sent := sent + ["END\n", "BYE\n"];
        phase := Finished;
      } else {
        NameEncoder(tok);
        sent := sent + ["MOVE " + tok + "\n"];
        phase := PeerTurn;
      }
    }
  }

  function Min(a: int, b: int): int
  {
    if a < b then a else b
  }
}
