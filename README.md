# Reversi: referee and engine

This project models the two programs of a small Reversi (Othello) system and proves properties of the model.

- **The referee** (`interface.py`) is a Python program. It keeps the board on a 10×10 grid with a wall frame. It caches the legal moves of every turn and logs each move so that moves can be undone. It runs a game against the engine over a line protocol: `START`, `MOVE`, `ACK`, `UNDO`, `END`, `BYE`.
- **The engine** (`src/main.rs`) is a Rust program. It keeps a position as two 64-bit bitboards. It computes legal moves with shift-and-mask runs, places a disc by walking the eight directions, and answers the referee's lines from a receive loop.

The model has seven modules:

| module | file | models |
|---|---|---|
| `RefereeRules` | referee_rules.dfy | The grid and its cells (`Wall`, `Empty`, `White`, `Black`). The direction masks. The legality and flipping rules as functions. The move record. Disc counts. The initial position. The history chain that undo walks back. |
| `RefereeBoard` | referee_board.dfy | `Board`: a class with the source's fields `board`, `turns`, `currentcolor`, `updatelog`, `movableDir`, `movablePos` and `colorstorage`. Each method updates them in place. A ghost history `hist` holds the position before each log record, and `Valid()` keeps the per-turn caches sound across moves, passes and undos. |
| `RefereeSession` | referee_session.dfy | `encoder`. The colour prompt. The handling of the engine's lines. The local player's commands (`p`, `u`, `x`, a cell). A `Session` class with the phase of the main loop and the lines sent. |
| `EngineBits` | engine_bits.dfy | A `u64` bitboard as the set of its one bits. `point_to_bit`, `bit_to_point` and `transfer`. |
| `EngineRules` | engine_rules.dfy | `BoardInfo` (a class), `make_legal_board`, `place`, `swap`, `get_result`, `eval_perfect`, `eval_win`, `choose_evaluator`. |
| `EngineLegal` | engine_legal.dfy | Why `make_legal_board`'s runs find exactly the squares where `place` flips something. |
| `EngineClient` | engine_client.dfy | `concat` with 32-bit wrap-around; `read_start`. The parsing of `MOVE` and `ACK`. The receive loop of `main` as a state machine, and an `Engine` class running it. |

The two halves are connected:
- `EngineClient.RefereeStart` shows that the engine reads the `START` line the referee sends.
- `EngineClient.MoveEncodes` shows that the engine's `MOVE` line names the same cell for the referee's `encoder`.

## Model

| member | source | states |
|---|---|---|
| RefereeRules.Mobility | interface.py:79-81 | An occupied square gives no direction (`NONE`). |
| RefereeRules.MobilityFlags | interface.py:79-153 | Bit d of the mask is set exactly when the square is empty and a run of opponent discs in direction d ends on a disc of the mover. The mask is non-zero exactly when the square is empty and some direction flanks. |
| RefereeRules.FlagsFlank | interface.py:169-248 | For a cached non-`NONE` mask, each direction's bit is set exactly when that direction flanks, so `flipDiscs` walks exactly the flanking directions. |
| RefereeRules.Isolated | interface.py:85-151 | A square with no opponent disc among its eight neighbours has no direction. |
| RefereeRules.Run | interface.py:86-89 | The opponent discs walked over from a square in one direction form a ray-shaped run (`IsRun`) that stops inside the frame. |
| RefereeRules.FlipRun | interface.py:186-248 | The squares one direction flips are the squares 1..n steps away, all playable opponent discs. The run is non-empty exactly when the direction flanks, and the square after it holds the mover's disc. |
| RefereeRules.FlipsUpTo | interface.py:186-248 | Every square flipped in the first n directions is a playable opponent disc. |
| RefereeRules.FlipsUpToRays | interface.py:186-248 | Every flipped square lies on the ray of one of the directions walked. |
| RefereeRules.FlipsUpToNoDup | interface.py:186-248 | No square is flipped twice, and the placed square is not among the flips. |
| RefereeRules.MoveRecord | interface.py:171-248 | The update list holds the placed disc first, then every flipped square in the mover's colour. Its length is one plus the number of flips, and all its squares are playable. |
| RefereeRules.PlaceChangesRecord | interface.py:173-248 | Placing changes exactly the squares in the record, each to the mover's colour. The frame stays. |
| RefereeRules.UnplacePlace | interface.py:326-328 | Emptying the record's first square and giving the rest back to the opponent restores the grid before the move. |
| RefereeRules.CountsTotal | interface.py:74 | On a framed grid, white + empty + black is 64. |
| RefereeRules.PlaceCounts | interface.py:250-254 | A move of record length n adds n discs of the mover's colour, removes n − 1 opponent discs and removes one empty square. |
| RefereeRules.LegalListMembers | interface.py:155-165 | A square is in the legal list exactly when it is playable with a non-`NONE` mask. The list is in the scan's column-major order with no repeats. |
| RefereeRules.LegalUpToOrder | interface.py:158-164 | The prefix scanned so far holds only earlier squares, in strictly increasing scan order. |
| RefereeRules.LegalListEmpty | interface.py:155-165 | The legal list is empty exactly when the colour has no move anywhere. |
| RefereeRules.AfterMoveOK | interface.py:276-291 | A legal move from a sound position is made before turn 60 and gives a sound position. |
| RefereeRules.InitialCounts | interface.py:57-67 | The initial grid has 2 white, 60 empty and 2 black squares. |
| RefereeRules.InitialMobility | interface.py:64-67 | Black can move at a square of the initial grid exactly when it is (3,4), (4,3), (5,6) or (6,5). |
| RefereeRules.InitialLegal | interface.py:64-77 | Black's first legal list is `[(3,4), (4,3), (5,6), (6,5)]`. |
| RefereeRules.InitialPositionOK | interface.py:55-77 | The initial position is sound. It has those counts and that list, and black cannot pass. |
| RefereeRules.ChainExtend | interface.py:256 | A logged step appends to the chain of positions that undo walks back. |
| RefereeRules.LoggedPass | interface.py:300-302 | An empty record is a legal pass, and the position after it is the pass's result. |
| RefereeRules.FirstRecordIsMove | interface.py:293-306 | The first record is never a pass, because the initial position has moves. |
| RefereeRules.ChainTurnZero | interface.py:308-310 | `turns` is 0 exactly when the log is empty, so undo's `turns == 0` guard is the empty-log guard. |
| RefereeBoard.NewGrid | interface.py:56-67 | The grid has its wall frame, and the four centre discs are on empty playable squares. |
| RefereeBoard.Board.constructor | interface.py:55-77 | The board is in the initial position with an empty log and `colorstorage == [2, 60, 2]`. Its turn-0 cache lists the four opening moves; every later turn's list is empty. |
| RefereeBoard.Board.WalkOver | interface.py:86-90 | The walk over opponent discs stops inside the frame on a square that is not the opponent's. That square is the mover's exactly when the ray ends on one. |
| RefereeBoard.Board.Flanking | interface.py:85-91 | The result is whether the direction flanks. |
| RefereeBoard.Board.CheckMobility | interface.py:79-153 | The returned mask is `Mobility(board, p, c)`. |
| RefereeBoard.Board.InitMovable | interface.py:155-165 | This turn's list becomes the legal list of the side to move. This turn's mask layer holds every playable square's mask. No other turn's cache changes. |
| RefereeBoard.Board.ScanColumn | interface.py:158-165 | One column of the scan extends the list by that column's legal squares and stores their masks. |
| RefereeBoard.FlipLine | interface.py:186-191 | One direction's loop paints that direction's run and appends it to the update list. |
| RefereeBoard.FlipAll | interface.py:171-248 | The eight direction blocks give the grid after the move and the complete move record. |
| RefereeBoard.Board.FlipDiscs | interface.py:167-256 | The board becomes the grid after the move, and the log gains the move record. `colorstorage` is recounted by the record's length. |
| RefereeBoard.PlaceTally | interface.py:250-254 | The recount is the tally of the new grid. |
| RefereeBoard.UncountRecount | interface.py:330-333 | Undo's count update reverses the move's. |
| RefereeBoard.Board.IsGameOver | interface.py:258-274 | The game is over exactly when turn 60 is reached, or neither side can move. On a valid board this is `GameOver` of the current position. |
| RefereeBoard.Board.Move | interface.py:276-291 | The move succeeds exactly when it is playable from the current position with a non-`NONE` mask. On success the position is the move's result and the log gains its record. On refusal nothing changes. |
| RefereeBoard.Board.MovePass | interface.py:293-306 | A pass succeeds exactly when the side to move has no move. The colour flips and an empty record is logged; on refusal nothing changes. |
| RefereeBoard.RestoreDiscs | interface.py:326-328 | The grid becomes the record undone. |
| RefereeBoard.UndoLogged | interface.py:323-333 | Undoing a logged move gives back the previous position and its counts. |
| RefereeBoard.Board.Undo | interface.py:308-335 | Undo succeeds exactly when `turns > 0`, which is exactly when the log is not empty. It drops the last record and the last position. On refusal nothing changes. |
| RefereeBoard.Board.UndoPass | interface.py:312-321 | Undoing a pass returns to the position before it, with that turn's cache cleared. |
| RefereeBoard.Board.UndoMove | interface.py:312-333 | Undoing a move returns to the position, counts and caches before it. |
| RefereeBoard.MoveKeeps | interface.py:284-289 | A move keeps the cache, count and history invariant. |
| RefereeBoard.PassKeeps | interface.py:300-304 | A pass keeps the cache, count and history invariant. |
| RefereeBoard.MoveThenUndo | interface.py:276-335 | A move followed by an undo leaves position, counts, log and history as they were. |
| RefereeBoard.StorageTotal | interface.py:250-254 | On a valid board, `colorstorage` always sums to 64. Moves update it at lines 250-254 and undos at 330-333. |
| RefereeSession.Encoder | interface.py:35-42 | The result is a playable cell exactly when the text starts with a letter A–H and a digit 1–8. With no second character or a non-digit there, it is (0,0). |
| RefereeSession.CellName | interface.py:502 | The echoed name is two characters, a letter A–H and a digit 1–8. |
| RefereeSession.EncoderName | interface.py:35-42 | Encoding a cell's name gives back the cell. The echo at line 502 sends that name. |
| RefereeSession.NameEncoder | interface.py:35-42 | A text that encodes to a playable cell begins with that cell's name. |
| RefereeSession.EncoderRefused | interface.py:276-282 | Only a proper cell name can give an accepted move. (0,0), the result for unreadable text, is never accepted. |
| RefereeSession.UpperCase | interface.py:488 | `a`–`z` become `A`–`Z`; anything else is kept. |
| RefereeSession.Token | interface.py:488 | The token is two characters and keeps the input's second character. |
| RefereeSession.StartLine | interface.py:385-420 | A START line exists exactly for the answers `b` and `w`. |
| RefereeSession.PeerEffect | interface.py:433-441 | A line that does not start with `MOVE ` leaves the position unchanged. |
| RefereeSession.PeerMoveLine | interface.py:433-436 | The engine's `MOVE` line for a legal cell plays that move. |
| RefereeSession.PeerBadToken | interface.py:433-436 | A `MOVE` line naming no cell leaves the position unchanged. |
| RefereeSession.Session.constructor | interface.py:385-427 | An invalid colour ends the program with nothing sent. `b` or `w` sends the START line. With `w` the engine moves first; with `b` the local player does. |
| RefereeSession.Session.OnPeerLine | interface.py:431-455 | `MOVE ` with nothing after it crashes and leaves everything. Otherwise the board takes the line's effect. The game ends with END and BYE exactly when the position is over; otherwise ACK is sent and the local player is next. |
| RefereeSession.Session.PlayPeerMove | interface.py:433-439 | The board takes the effect of the MOVE line. |
| RefereeSession.Session.BeginLocal | interface.py:459-465 | With no legal move the referee passes for the player and sends `MOVE PASS`. Otherwise nothing changes and it waits for input. |
| RefereeSession.Session.OnInput | interface.py:466-503 | Commands: `p` passes or is refused; `u` undoes two plies and sends UNDO when possible; `x` ends. A legal cell is played, then END/BYE or its echo is sent. An illegal cell re-prompts. Input shorter than two characters crashes. A successful pass that does not end the game crashes on the echo. |
| RefereeSession.Session.InputPass | interface.py:468-503 | The `p` command alone, with the same cases. |
| RefereeSession.Session.InputUndo | interface.py:472-479 | The log and history lose up to two entries; UNDO is sent exactly when there were two to undo. |
| RefereeSession.Session.InputMove | interface.py:488-503 | The typed cell is played when legal, with END/BYE or the echo after it. Otherwise nothing changes. |
| EngineBits.Lowest | src/main.rs:143-147 | The lowest one bit: it is present and no present bit is lower. |
| EngineBits.Index | src/main.rs:120-137 | A valid square name has a bit position below 64. |
| EngineBits.RowShift | src/main.rs:134-135 | The row shift is a multiple of 8 below 64. For a digit 1–8 it is 8·(digit − 1). |
| EngineBits.PointToBit | src/main.rs:120-137 | Every character pair gives exactly one bit, 63 minus the column and row shifts. A valid name gives bit 63 − (column + 8·row). |
| EngineBits.PointToBitA1 | src/main.rs:121-122 | A1 is the most significant bit. |
| EngineBits.PointToBitInjective | src/main.rs:120-137 | Distinct valid names give distinct bits. |
| EngineBits.BitToPoint | src/main.rs:140-160 | For a non-zero board it returns a valid name whose bit is the board's lowest one bit. |
| EngineBits.NameRoundTrip | src/main.rs:120-160 | `bit_to_point(point_to_bit(c1, c2))` gives back a valid name. |
| EngineBits.BitRoundTrip | src/main.rs:120-160 | `point_to_bit(bit_to_point(b))` gives back a single bit `b`. |
| EngineBits.Row | src/main.rs:120-137 | Every bit position is 63 − (column + 8·row) with column and row in 0..7. |
| EngineBits.Neighbour | src/main.rs:231-243 | A step moves the column and the row by the direction's offsets. |
| EngineBits.NeighbourBack | src/main.rs:231-243 | Stepping back the opposite way returns to the square. |
| EngineBits.StepsNeighbour | src/main.rs:231-243 | A square has a neighbour in a direction exactly when the board does not end there. Each step uses one of at most seven. |
| EngineBits.TransferSquare | src/main.rs:231-243 | `transfer` of one square gives its neighbour in that direction, or 0 at the board's edge. |
| EngineBits.TransferSingle | src/main.rs:231-243 | `transfer` of one bit gives one bit or none. |
| EngineBits.TransferPreimage | src/main.rs:231-243 | Every square in a transfer is the neighbour of a square of the source. |
| EngineBits.PopDisjoint | src/main.rs:842-844 | `count_ones` of a disjoint union is the sum. |
| EngineRules.StartInfo | src/main.rs:1160-1165 | The start position has disjoint boards with two discs each. |
| EngineRules.FillRun | src/main.rs:170-174 | The six-step widening loop computes the run of opponent discs next to the player's discs. |
| EngineRules.MakeBlockLegal | src/main.rs:170-176 | One direction's block gives that direction's legal squares. |
| EngineRules.MakeLegalBoard | src/main.rs:163-228 | The legal board is `Legal(player, opponent)`, and it never marks an occupied square. |
| EngineRules.LegalEmpty | src/main.rs:167-176 | Legal squares are empty. |
| EngineLegal.WidenMeets | src/main.rs:170-174 | A square is in the widened run exactly when a chain of opponent discs joins it to a player disc within the run's length. |
| EngineLegal.BlockMeets | src/main.rs:170-176 | A square is legal for a block exactly when it is empty and its neighbour starts such a chain. |
| EngineLegal.DirFlipsMeets | src/main.rs:271-286 | Place's walk in a direction flips something exactly when the neighbour is an opponent disc and the opponent run reaches a player disc. |
| EngineLegal.ChainReaches | src/main.rs:170-176 | Legality's chain and place's walk describe the same runs from opposite ends. |
| EngineLegal.BlockIffDir | src/main.rs:163-228 | A square is legal for direction g exactly when it is empty and place flips something in the opposite direction. |
| EngineLegal.FlipsByDirection | src/main.rs:271-287 | A square is flipped exactly when one of the eight walks flips it. |
| EngineLegal.LegalByBlock | src/main.rs:163-228 | A square is legal exactly when one of the eight blocks marks it. |
| EngineLegal.LegalIffFlips | src/main.rs:163-290 | For disjoint boards, a square is in `make_legal_board` exactly when it is empty and placing there flips at least one disc. |
| EngineRules.WalkFrom | src/main.rs:273-280 | The while loop collects the run of opponent discs from the square next to the move, and stops on the square after it. |
| EngineRules.CollectFlips | src/main.rs:271-287 | The for loop's `rev` is all the discs the move flips. |
| EngineRules.WalkInOpponent | src/main.rs:276-279 | A walk from one square collects only opponent discs. |
| EngineRules.FlipsInOpponent | src/main.rs:271-287 | Every flipped disc is an opponent disc. |
| EngineRules.PlaceRefused | src/main.rs:246-299 | `place` returns `PLACE_ERR` exactly for a pass while a move exists, or a move off the legal board. Then, and for any pass, the position is unchanged. |
| EngineRules.PassCode | src/main.rs:251-265 | A legal pass gives `GAME_SET` exactly when the opponent cannot move either; otherwise `CONTINUE`. |
| EngineRules.MoveBits | src/main.rs:288-289 | The XOR updates add the move and the flips to the player and take the flips from the opponent. The boards stay disjoint. |
| EngineRules.MoveCounts | src/main.rs:288-289 | The player gains 1 + flips discs and the opponent loses the flips. |
| EngineRules.PlaceMove | src/main.rs:270-300 | A legal move gives the player `p ∪ bit ∪ rev` and the opponent `o − rev`. The boards stay disjoint, the counts change by the flips, and `now_index` increments. The result is `GAME_SET` exactly when the index passes 60; otherwise `CONTINUE`. |
| EngineRules.SwapTwice | src/main.rs:312-317 | `swap` exchanges the boards and negates the side to move. Swapping twice is the identity. |
| EngineRules.EvalPerfectMove | src/main.rs:842-844 | A legal move raises the disc difference by 1 + 2·flips. |
| EngineRules.EvalWin | src/main.rs:847-850 | The result is 1, 0 or −1 exactly when the player has more, equal or fewer discs. |
| EngineRules.EvalRelations | src/main.rs:842-850 | `eval_win` is the sign of `eval_perfect`. Both change sign under `swap`. |
| EngineRules.GetResult | src/main.rs:320-337 | The black and white counts come from the boards by whose turn it is. `superior` is BLACK, NONE or WHITE exactly when black has more, equal or fewer discs. |
| EngineRules.ResultSwap | src/main.rs:312-337 | `get_result` does not change under `swap`. |
| EngineRules.ChooseEvaluator | src/main.rs:1018-1026 | With at most 16 plies left: perfect. With 17–18: win. Otherwise: normal. |
| EngineRules.BoardInfo.constructor | src/main.rs:41-46 | The object holds the given position. |
| EngineRules.BoardInfo.Assign | src/main.rs:1160-1165 | The object now holds the given position. |
| EngineRules.BoardInfo.Place | src/main.rs:246-301 | The return code and the new position are `place`'s, as the specification function `PlaceSpec` gives them. |
| EngineRules.BoardInfo.Swap | src/main.rs:312-317 | The new position is the swapped old one. |
| EngineClient.Wrap32 | src/main.rs:1043-1050 | The wrapped value is an `i32`. |
| EngineClient.WrapStep | src/main.rs:1046-1047 | Wrapping after every step equals wrapping once at the end. |
| EngineClient.Concat | src/main.rs:1043-1050 | The result is the decimal value of the digits, wrapped to 32 bits. |
| EngineClient.DecimalValue | src/main.rs:1043-1050 | `concat` of a number's decimal text gives the number back. Values below 2^31 are not wrapped. |
| EngineClient.FirstOf | src/main.rs:1056-1058 | The scan stops at the first stop character at or after `i`, or finds none. |
| EngineClient.Scan | src/main.rs:1056-1079 | The `while buffer[i] != …` loop finds the first stop character, and panics (runs off the buffer) when there is none. |
| EngineClient.ReadStart | src/main.rs:1053-1082 | The parsed colour, name and time are `StartOf(buffer)`, or a panic when the line is not START or is cut short. |
| EngineClient.StartRoundTrip | src/main.rs:1053-1082 | A START line built from a colour, a name without spaces and a time below 2^31 parses back to those three. |
| EngineClient.RefereeStart | src/main.rs:1053-1082 | The referee's START line gives BLACK after the answer `w` and WHITE after `b`, with name `user` and time 6000000. |
| EngineClient.ReadMove | src/main.rs:1228-1238 | The parsed move is `MoveOf(buffer)`: empty for PASS, otherwise `point_to_bit` of the two characters after the space. |
| EngineClient.NameOfBit | src/main.rs:140-160 | The name the engine sends for a square is valid and maps back to that square. |
| EngineClient.MoveRoundTrip | src/main.rs:1228-1238 | A `MOVE` line the engine sends is read back as the same move, or as PASS. |
| EngineClient.MoveEncodes | src/main.rs:1188-1193 | The referee's `encoder` reads the engine's `MOVE` line as the cell (column + 1, row + 1). |
| EngineClient.ReadAck | src/main.rs:1203-1210 | The time read from `ACK` is `AckTimeOf(buffer)`. |
| EngineClient.RefereeAck | src/main.rs:1203-1210 | The referee's `ACK 6000000` gives 6000000. |
| EngineClient.StartResets | src/main.rs:1153-1167 | START starts a game: empty history, the start position with black to move, and the colour the line names. |
| EngineClient.WaitingLines | src/main.rs:1147-1172 | While waiting, the loop exits exactly on `B…`. It starts a game exactly on a well-formed `S…`. Everything else panics. |
| EngineClient.ReplayPly | src/main.rs:1240-1248 | A replayed ply pushes the old position, passes the turn and keeps the position sound. It adds one disc exactly for an accepted move. The own-turn ACK branch at lines 1212-1220 does the same. |
| EngineClient.PliesAlternate | src/main.rs:1174-1258 | After each ply still running, the turn has passed to the other side or the game returned to waiting. END always returns to waiting. |
| EngineClient.Engine.constructor | src/main.rs:1120-1143 | The loop starts waiting, with black and the start position, after sending `OPEN name`. |
| EngineClient.Engine.Play | src/main.rs:1212-1220 | The history gains the old position, and the position is placed and then swapped, whatever `place` returned. |
| EngineClient.Engine.ReceiveWaiting | src/main.rs:1147-1172 | The new state is `OnWaiting` of the line. |
| EngineClient.Engine.PlayOwn | src/main.rs:1174-1224 | The new state is `OnOwnTurn` of the chosen move and the reply. |
| EngineClient.Engine.ReceiveOpponent | src/main.rs:1225-1258 | The new state is `OnOpponentTurn` of the line. |

## Left out

- RefereeSession.Session: `recv(4096)` is modelled as delivering exactly one protocol line. The content of the OPEN line is never read, as in the source. Sockets, ports, the `subprocess` that starts the engine, and printing are left out.
- RefereeSession.Session: Python exceptions (an `IndexError` on a short line or input, `sys.exit`) all end in the `Crashed` or `Finished` phase. Which exception it was is not modelled.
- RefereeSession.Encoder: Python's `int(str[1])` also accepts non-ASCII Unicode decimal digits such as fullwidth `３`. The model reads only `0`–`9`, so such input gives (0,0). It also takes `int` of a digit directly, without stripping whitespace.
- RefereeSession.UpperCase: only ASCII `a`–`z` are upper-cased. Python's `str.upper` also maps other letters, some of them to two characters.
- RefereeBoard.Board.MovePass: the guard `self.isGameOver == True` compares a bound method with `True`, which is always false, so the model drops it.
- RefereeBoard.Board: `liberty` (interface.py:75, 177-184) is updated but never read, so it is not modelled. `printBoard` and `gameover`'s printing are left out, as is the tkinter window.
- RefereeBoard.Board: the counts, grid and masks are unbounded integers, sequences and `bv8` masks; nothing in the source overflows.
- EngineBits: a `u64` bitboard is the set of its one bits. `count_ones` is the set's cardinality, and the hex masks are sets of squares. Every mask's hex value is given in a comment next to it.
- EngineBits.RowShift: the model uses the release build's shift, whose amount is masked to its low six bits (`& 63`). A debug build panics on a shift of 64 or more, or a negative one, which a row character outside `1`–`8` produces.
- EngineBits.PointToBit: same release-build shift as `RowShift`. An unknown column letter leaves the column shift at 0, as in the source.
- EngineBits.BitToPoint: has `requires num != {}`. For 0 the source loops without end (main.rs:143-147), and the loop never reaches its `panic!` arm at main.rs:156. The engine calls it only with a chosen move.
- EngineRules: `now_index` is an `i8` in the source and an unbounded `int` here; it stays within 1..61 in a game.
- EngineRules.WalkFrom: the walk is bounded by a fuel of seven steps. A walk from a neighbour square always leaves the board within seven steps, so the bound never cuts a walk short, and the loop itself runs on the source's condition.
- EngineRules: `decide`, `negamax`, `evaluate`, `eval_normal`, `eval_by_pointtable` and `count_openness` (the search and its evaluation) are left out, along with the printing functions `print_board_info`, `print_board_info_simply`, `game_start` and `game_set`. `EngineClient.Engine.PlayOwn` takes the chosen move as a parameter.
- EngineRules: `is_game_over` (main.rs:304-309) is used only by the search, so it is left out.
- EngineRules: `eval_perfect` is modelled as the function `EvalPerfect`, with only its relations proved (`EvalPerfectMove`, `EvalRelations`).
- EngineClient.Concat: the model uses the release build's 32-bit wrap-around on overflow. A debug build panics.
- EngineClient: bytes are modelled as characters. The argument parsing (`-H`, `-p`, `-n`), the TCP connection, `read_tcp`/`write_tcp` and all printing are left out. A panic is the `Panicked` status; an index past the buffer's end is a panic.
