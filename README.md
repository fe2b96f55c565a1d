# GameState rule engine, modelled in Dafny

This project models the rule engine of a small two-player board game. The engine is the `GameState` class in `gamelogic.js`. It keeps four things:

- a 5×5 board whose cells are empty or hold a piece id;
- the turn token, `'A'` or `'B'`;
- a fixed roster of three ids per player: `PA1`, `HA1`, `HA2` for A and `PB1`, `HB1`, `HB2` for B;
- an append-only history of move descriptions.

A `move(playerId, character, direction)` call makes six checks in a fixed order:

1. the turn;
2. that the piece is in the mover's roster;
3. that the piece is on the board;
4. the direction code, applied with the owner's forward sign;
5. that the destination is on the board;
6. the per-piece rule.

Only a call that passes all six changes anything. It captures an opposing piece on the destination and moves the piece there. It then appends a log line, switches the turn and checks for a win.

The project has three files:

- `rules.dfy` (module `Rules`) holds the pure part:
  - the pieces, directions and board as values;
  - the row-major scan `Find`;
  - the bounds and per-piece checks;
  - win detection;
  - `Step`, the effect of one `move` call on a snapshot of the state.
- `game_state.dfy` (module `Engine`) holds the class `GameState`. Its fields are an `array2` board, the current turn and the history. Each method is proved to change the class exactly as `Rules` says.
  - `Move` leaves the state equal to `Step(old state)` and returns `Step`'s outcome.
  - `FindCharacterPosition` is the nested scan, proved equal to `Find`.
- `properties.dfy` (module `Properties`) holds the lemmas about `Step`:
  - the check order;
  - rejections change nothing;
  - the per-piece rule;
  - the `PB1` crash;
  - the effect of an accepted move;
  - the occupancy invariants;
  - who wins;
  - the turn and history invariants over any run of requests;
  - concrete opening moves.

The model follows what the code does. Where the code differs from the game's stated design, it models the code:

- **Piece type.** The type is the first two characters of the id, so the tags are `PA`, `HA`, `PB` and `HB`. No piece ever has the diagonal tag `H2`, so every diagonal code is rejected for every piece.
- **`PB1` crashes.** The direction table has no `PB` key. For `PB1`, the `includes` call on the missing entry throws before anything is written. This is the `Crash` outcome, and the state stays as it was.
- **Heroes never move F or B.** The destination is one row away, but the hero rule demands two.
- **Own pieces are overwritten.** A move onto one's own piece is not refused: the piece on the destination is overwritten and leaves the board.
- **The winner is always the mover.** The winner is computed after the turn switch, as the side not on turn, and that is the side that just moved.
- **No lock after a win.** Moves are still accepted after the game is reported over.

## Model

| member | source | states |
|---|---|---|
| Rules.ParseDir | gamelogic.js:46-56 | a decoded direction is the one whose code is the given string; see `ParseDirRoundTrip` for the converse |
| Rules.Owned | gamelogic.js:33 | a result is a piece of the mover's roster whose id is `character`; no result means no roster id equals `character` |
| Rules.FindFrom | gamelogic.js:111-120 | scanning from a cell returns the first cell at or after it, in row-major order, that holds the id; no result means no such cell exists |
| Rules.Find | gamelogic.js:111-120 | the result is the first matching cell in row-major order; the result is empty exactly when no cell holds the id |
| Rules.FirstAtIsFind | gamelogic.js:111-120 | any cell that is a first match is exactly what the scan returns |
| Rules.SetCell | gamelogic.js:127 | writing one cell sets that cell and leaves the other 24 unchanged |
| Engine.GameState.constructor | gamelogic.js:2-10 | a fresh game is the initial state: the starting board, A to move, empty history |
| Engine.GameState.InitializeBoard | gamelogic.js:12-26 | the new board is 5×5 and equals the starting layout cell for cell |
| Engine.GameState.FindCharacterPosition | gamelogic.js:111-120 | the nested loop returns exactly `Find` on the current board and writes nothing |
| Engine.GameState.CaptureCharacter | gamelogic.js:126-128 | the board becomes the old board with that one cell emptied |
| Engine.GameState.SwitchTurn | gamelogic.js:130-132 | the turn passes to the other player; board and history are unchanged |
| Engine.GameState.Move | gamelogic.js:28-82 | the new board, turn and history and the returned outcome are exactly those of `Step` on the old state |
| Engine.GameState.MoveFrom | gamelogic.js:42-64 | once turn, ownership and position have been checked, the rest of `move` agrees with `Step` |
| Engine.GameState.Commit | gamelogic.js:66-81 | after every check has passed, the capture, relocation, log line, turn switch and win check agree with `Apply` |
| Properties.OccupiedSetCell | gamelogic.js:127 | writing a cell changes the number of occupied cells by the difference in that cell's occupancy |
| Properties.IdInjective | gamelogic.js:5-8 | two pieces have the same id string exactly when they are the same piece |
| Properties.MovePreservesAtMostOnce | gamelogic.js:71-72 | moving a piece between two cells keeps every id on at most one cell |
| Properties.MoveDisplaces | gamelogic.js:71-72 | a piece that stood on the destination differs from the mover and is no longer on the board |
| Properties.FirstAtByRows | gamelogic.js:111-120 | a cell whose id is absent from the earlier rows and the earlier part of its own row is what the scan finds |
| Properties.AcceptedPath | gamelogic.js:29-64 | an accepted call passed each of the six checks, and its effect is `Apply` on the found piece, cell and destination |
| Properties.ChecksPassed | gamelogic.js:29-64 | conversely, a call that passes all six checks has the effect of `Apply` |
| Properties.CharacterMoveRefused | gamelogic.js:62-63 | a call that passes every check but the per-piece rule is refused with the state unchanged |
| Properties.ParseDirRoundTrip | gamelogic.js:46-56 | each of the eight codes decodes to its direction, and a string decodes to a direction only if it is that direction's code |
| Properties.OwnedIff | gamelogic.js:33 | `includes` picks piece `x` exactly when `x` is in the roster and its id is the given string |
| Properties.InitialPlacement | gamelogic.js:2-26 | at the start, A is on turn, the history is empty, each of the six ids is found on its starting cell, and the game is not over |
| Properties.InitialRowA | gamelogic.js:16-18 | `PA1`, `HA1` and `HA2` are found at row 4, columns 0, 1 and 2 |
| Properties.InitialRowB | gamelogic.js:21-23 | `PB1`, `HB1` and `HB2` are found at row 0, columns 0, 1 and 2 |
| Properties.InitialOccupancy | gamelogic.js:12-26 | every other starting cell is empty, no id is on two cells, and exactly six cells are occupied |
| Properties.RejectionChangesNothing | gamelogic.js:29-64 | every rejection and the crash leave board, turn and history as they were; a call is accepted exactly when the history grows by one |
| Properties.CheckOrderOwner | gamelogic.js:29-40 | each of the first three errors is returned exactly when its check fails after the earlier ones passed |
| Properties.CheckOrderDirection | gamelogic.js:46-60 | an unknown code and an off-board destination are reported exactly when their check is the first to fail |
| Properties.PieceRule | gamelogic.js:84-109 | the rule throws exactly for `PB1`; it passes exactly for L/R with any other piece and for F/B with `PA1`, so diagonals and hero F/B always fail |
| Properties.PawnBCrashes | gamelogic.js:85-93 | B's `PB1` with any in-bounds direction crashes and changes nothing |
| Properties.AcceptedMoveShape | gamelogic.js:46-106 | an accepted move is one of the mover's pieces other than `PB1`, going L, R, F or B; only `PA1` goes F or B; the move is exactly one orthogonal cell |
| Properties.AcceptedEffect | gamelogic.js:66-75 | after an accepted move the source is empty and the destination holds the piece; every other cell is unchanged; one line `"<player>'s <id> moved <code>"` is appended; the turn flips |
| Properties.DisplacedPieceLeavesBoard | gamelogic.js:66-72 | whatever stood on the destination, an opponent's piece or the mover's own, is no longer on the board |
| Properties.OccupancyCount | gamelogic.js:66-72 | an accepted move lowers the occupied count by one exactly when the destination was occupied, by either side; no call ever raises it |
| Properties.AtMostOncePreserved | gamelogic.js:66-72 | every call keeps each id on at most one cell |
| Properties.WinnerIsMover | gamelogic.js:77-79 | after an accepted move, game over is reported exactly when some roster has left the board; the mover's roster never has, so the winner is the mover |
| Properties.StepCounts | gamelogic.js:74-75 | one call adds a history line and flips the turn if it is accepted, and otherwise does neither |
| Properties.StepBoard | gamelogic.js:66-72 | one call keeps ids unique and never adds an occupied cell |
| Properties.RunCounts | gamelogic.js:74-75 | over any run of calls, the history grows by the number of accepted calls, and the turn has flipped once for each of them |
| Properties.RunBoard | gamelogic.js:66-72 | over any run of calls, ids stay unique and the occupied count never grows |
| Properties.GameInvariants | gamelogic.js:2-10 | from a fresh game, the history length is the number of accepted calls; A is on turn exactly after an even number of them; ids stay unique; at most six cells are occupied |
| Properties.PawnForwardBoard | gamelogic.js:71-72 | moving `PA1` from (4,0) to (3,0) gives the expected board; on it `PA1` is at (3,0), `PB1` is still at (0,0), and the game is not over |
| Properties.PawnForwardLogLine | gamelogic.js:74 | the log line of that opening move is `A's PA1 moved F` |
| Properties.OpeningInputs | gamelogic.js:33-56 | the opening calls' ids and codes decode as expected, and their steps land on the expected cells for A |
| Properties.PawnForwardChecks | gamelogic.js:29-64 | A's opening `PA1 F` passes every check |
| Properties.OpeningPawnForward | gamelogic.js:28-82 | A's opening `PA1 F` succeeds, leaves the expected board with B on turn, and logs one line |
| Properties.PawnBFirstMoveCrashes | gamelogic.js:93 | B's reply `PB1 F` crashes and leaves the state unchanged |
| Properties.OpeningWrongSide | gamelogic.js:29-35 | at the start, B moving is refused as out of turn, and A moving `PB1` is refused as not A's piece |
| Properties.OpeningHeroForward | gamelogic.js:97-101 | A's `HA1 F` is refused by the per-piece rule, and the state is unchanged |
| Properties.OpeningHeroDiagonal | gamelogic.js:86-95 | A's `HA2 FL` is refused by the per-piece rule, and the state is unchanged |
| Properties.OpeningUnknownDirection | gamelogic.js:55 | an unknown code such as `X` is refused as an invalid direction |
| Properties.OpeningOffBoard | gamelogic.js:58-59 | A's `PA1 B` from row 4 leaves the board and is refused as out of bounds |

## Left out

- The server and client (`server.js`, `client/app.js`) are not part of this model: the HTTP/WebSocket transport, client ids made from `Math.random`, broadcasting, JSON framing, and the UI and its display-only move table. A request reaches the model as three strings: `playerId`, `character` and `direction`.
- Error messages are modelled as error kinds. The wording of the template strings is not modelled.
- The success result carries `gameState: this`; the model returns only the outcome, and the state is read from the object. JSON serialisation is not modelled.
- The `TypeError` that `PB1` raises is the outcome `Crash`. The exception and its propagation to the caller are not modelled.
- The `players` field is never written, so it is the constant function `Rules.Roster` and not a class field.
- `Rules.Destination` takes the forward sign from the player on turn, not from the `playerId` string. The two are equal whenever the computation is reached, because the turn check comes first.
- `Rules.Step` and `Rules.Apply` have contracts that state only well-formedness. Their behaviour is stated by the `Properties` lemmas and by `Engine.GameState.Move`.
- `Engine.GameState.Move`, `Engine.GameState.MoveFrom` and `Engine.GameState.Commit` are one method, `move`, in the source. It is split in three so that each proof stays small; the writes and their order are unchanged.
- `isValidCharacterMove` and `isGameOver` are functions of the board (`Rules.IsValidCharacterMove`, `Rules.IsGameOver`), not methods of the class. They read state and write nothing.
- The board is a fixed 5×5 `array2` allocated by the constructor. Aliasing of the board with other objects is not modelled, because nothing else holds it.
