# Tic-tac-toe board, modelled in Dafny

This project models `App\Board` from app/Board.php. It is the state machine
behind a small tic-tac-toe web service. A board holds:

- a 3x3 grid of cells, each 0 (free), 1 or 2;
- the player expected to move next, starting at 1;
- the winner: 0 while the game runs, 1 or 2 once a player holds a line, -1 for a draw;
- a per-player "mate" counter;
- the error code and message of the last move attempt.

A move attempt runs three steps:

1. It validates the attempt in a fixed order. The codes are 2 (game over),
   3 (wrong player), 4 (off the board) and 5 (cell taken).
2. It writes the cell.
3. It rescans the whole grid with nested loops that accumulate signed
   per-line counts. The rescan decides the turn, the winner and the mate
   counter of the next player.

`__toString` selects which keys the serialised record holds.

The project has four modules: `Rules`, `Transitions`, `Game` and `Scenarios`.

**Rules** (rules.dfy) holds the pure side of the game:

- the grid, and the eight lines as a datatype;
- the cell lookup `CheckSquare`;
- the declarative specifications the loops are proved against: `LineOf`
  (some line holds three marks of a player), `Full`, `Outcome` (the winner
  after a move) and `MateValue` (the mate counter, pair of lines by pair);
- the signed counts the loops accumulate (`RowSum`, `ColSum`, `DiagLrSum`,
  `DiagRlSum`) and the scan predicates over them (`WinScan`, `MateScan`,
  `RowsFilled`), with the lemmas that connect the two views;
- the validation order, `ErrorCode`.

**Transitions** (transitions.dfy) treats the board as values:

- `BoardState` is the value of the six fields;
- `Step` is one move attempt, and `Play` is the first `n` attempts of a list;
- `Reachable` is what holds of every state a new board can reach.

The lemmas here state what move attempts preserve and what they change.

**Game** (board.dfy) holds the class `Board`. Its fields are updated in
place by the methods `IsValid`, `SetMove` and `CalcStatus`, as in the
source. The rescan's loops are the methods `ScanRow` (inner loop),
`ScorePair` (the win and mate if-chain) and `ScanLines` (outer loop). Each
is proved against the functions in `Rules`. `Board.Move` is proved to
perform exactly `Step` on the fields, and to keep `Valid()`, which is
`Reachable` of the fields.

**Scenarios** (scenarios.dfy) holds the runner's loop (`Run`), the three
games the command-line runner ships with, and the first move of the
controller test.

Two points of the source shape the model:

- PHP arrays are values, so the grid is a `seq<seq<int>>` field. The mate
  counters are a `map<int, int>`: empty on a new board, keyed by 1 and 2
  after the first accepted move.
- `getOtherPlayer` throws for arguments outside {1, 2}. It is only ever
  called with the player expected next, so the model requires `IsPlayer`
  of its argument.

## Model

| member | source | states |
|---|---|---|
| Rules.OtherPlayer | app/Board.php:39-45 | the opponent of a player is a player and differs from it |
| Rules.OtherPlayerInvolutive | app/Board.php:39-45 | taking the opponent twice gives the player back |
| Rules.CheckSquare | app/Board.php:132-140 | 1 exactly when `p` owns the cell, -1 exactly when the opponent does, 0 exactly when it is free |
| Rules.Place | app/Board.php:117-120 | writing `p` into (x, y) changes that cell to `p`, keeps every other cell and keeps the grid well formed |
| Rules.PlaceIsUpdate | app/Board.php:119 | Place is the nested in-place assignment `status[x][y] = p` |
| Rules.LineOfSomeLine | app/Board.php:178-222 | LineOf holds exactly when some valid line is complete for the player |
| Rules.LineOfAfterPlace | app/Board.php:117-120 | a mark of `p` cannot complete a line of another player |
| Rules.CheckSquareOpposite | app/Board.php:132-140 | the lookup from the opponent's side is the negation |
| Rules.LineSumCells | app/Board.php:183-191 | a line's accumulated count is the sum of CheckSquare over its three cells |
| Rules.SumMeaning | app/Board.php:193-195 | a count of 3 means the line is complete for the player; a count of 2 means two marks and a free cell |
| Rules.SignedCountsOpposite | app/Board.php:187-190 | the two players' counts on a line are opposite |
| Rules.RowsFilledFull | app/Board.php:174-186 | the row-by-row scan for a free cell decides Full |
| Rules.MateTerm | app/Board.php:193-202 | a pair of lines changes the mate counter by -1, 0 or 1, and by no more than 0 when the mover completed one of them |
| Rules.MateValue | app/Board.php:193-219 | the next player's mate counter lies in [-4, 4] |
| Rules.WinScanMeaning | app/Board.php:193-211 | the scan meets a count of 3 for the mover exactly when the mover holds a line |
| Rules.MateStepMeaning | app/Board.php:193-202 | the count arithmetic for one pair of lines equals the declarative MateTerm |
| Rules.MateScanMeaning | app/Board.php:178-219 | the counter the row/column loop and the diagonal step accumulate equals MateValue |
| Rules.CountInUpdate | app/Board.php:119 | overwriting one entry changes the count of a value by the entry removed and the entry written |
| Rules.CountUpdate | app/Board.php:119 | replacing one row changes the count of a value by the difference of the two rows' counts |
| Rules.PlaceCounts | app/Board.php:101-119 | writing `p` into a free cell adds one mark of `p` and leaves the count of the other player's marks |
| Rules.CountInZeros | app/Board.php:27-29 | a row of free cells holds no marks |
| Rules.CountZeros | app/Board.php:24-30 | a grid of free cells holds no marks |
| Rules.ErrorCode | app/Board.php:83-107 | 0 exactly when the move is legal; 2 exactly when the game is over; 3 exactly when it runs and the player is not the expected one; 4 exactly when additionally the cell is off the board; 5 exactly when additionally the cell is taken |
| Transitions.MateMapEntries | app/Board.php:172 | after a move the counters are keyed by exactly 1 and 2, the mover's is 0, and their sum is the next player's counter |
| Transitions.Step | app/Board.php:56-66 | one move attempt keeps the grid well formed and the player to move valid |
| Transitions.InitialReachable | app/Board.php:8-16 | a new board satisfies the reachable-state invariant |
| Transitions.StepReachable | app/Board.php:56-66 | every attempt preserves the invariant: the grid is well formed; the 1-marks equal the 2-marks, or exceed them by one when 2 is to move; the player to move holds no line; the winner agrees with the lines and with Full; the message belongs to the code; the mate counters are those of the last accepted move |
| Transitions.RejectedKeepsBoard | app/Board.php:56-60 | a rejected attempt leaves grid, next player, winner and mate counters unchanged, and records its code and message |
| Transitions.AcceptedWritesOneCell | app/Board.php:56-66 | an accepted attempt writes the mover into the cell (x, y), which was free, changes no other cell, hands the turn to the other player and clears the error |
| Transitions.AcceptedWinner | app/Board.php:171-223 | after an accepted move the winner is the mover exactly when the mover holds a line, -1 exactly when the grid is full without such a line, 0 otherwise |
| Transitions.StepKeepsMarks | app/Board.php:101-120 | no attempt changes a taken cell |
| Transitions.OnlyMoverWins | app/Board.php:193-211 | an attempt can change the winner only to the player who moved, or to -1 |
| Transitions.TerminalAbsorbs | app/Board.php:83-87 | once the game is over every attempt fails with code 2 and "Game already terminated", and the board stays as it is |
| Transitions.MateBounds | app/Board.php:172-219 | in a reachable state with counters, they are keyed by 1 and 2, the last mover's is 0 and the next player's lies in [-4, 4] |
| Transitions.Play | app/Console/Commands/RunGameCommand.php:86-87 | a sequence of attempts keeps the grid well formed and the player to move valid |
| Transitions.PlayReachable | app/Board.php:56-66 | every state reached by any sequence of attempts satisfies the invariant |
| Transitions.PlayKeepsMarks | app/Board.php:101-120 | a written cell keeps its mark through any later attempts, so it never becomes free again |
| Transitions.PlayAfterEnd | app/Board.php:83-87 | after the game is over any sequence of attempts leaves grid, next player, winner and counters as they are, and the last attempt fails with code 2 |
| Game.ScanRow | app/Board.php:180-191 | the inner loop finds whether row x is full and computes the signed counts of row x and column x for both players |
| Game.ScorePair | app/Board.php:193-202 | the if-chain notes a win exactly when a count of the mover is 3, and changes the mate counter by MateStep of the counts |
| Game.ScanLines | app/Board.php:174-208 | the outer loop computes WinScan, MateScan and RowsFilled over all three indices, and the two diagonals' counts for both players |
| Game.Board.constructor | app/Board.php:14-16 | a new board is the initial state: empty grid, player 1 to move, no winner, no counters, no error; it satisfies Valid |
| Game.Board.InitStatus | app/Board.php:22-31 | the nested loops build the empty grid and change no other field |
| Game.Board.Move | app/Board.php:56-66 | the fields become Step of the old fields; the result is true exactly when the attempt was accepted; Valid is kept |
| Game.Board.IsValid | app/Board.php:78-108 | records ErrorCode and its message, changes no other field, and answers whether the code is 0 |
| Game.Board.SetMove | app/Board.php:117-120 | the grid becomes Place of the old grid and no other field changes |
| Game.Board.CalcStatus | app/Board.php:168-224 | the turn passes to the other player, the winner becomes Outcome of the grid, the counters become 0 for the mover and MateValue for the next player; grid and error are kept |
| Game.Board.Output | app/Board.php:231-253 | the record lists board and next, then err and msg exactly when the code is positive, then winner exactly when the winner is not 0, then mate exactly when the counters sum to more than 0, each key once and in that order; board holds the grid, next the next player, err the code, msg the message, winner the winner and mate the counters |
| Game.PlainRecord | app/Board.php:231-253 | with no error, no winner and counters summing to at most 0 the record is exactly the grid and the next player |
| Scenarios.Run | app/Console/Commands/RunGameCommand.php:86-87 | attempting every move of a list in order on a board leaves its fields equal to Play of the list and keeps Valid |
| Scenarios.FirstMoveOk | tests/GameControllerTest.php:35-39 | on a new board, player 1 taking (1, 1) is accepted and the record is exactly the grid and the next player, 2 |
| Scenarios.CentreOpening | tests/GameControllerTest.php:37 | player 1 opening in the centre of an empty grid is accepted: the centre holds 1, player 2 is to move, there is no winner and the counters sum to 0 |
| Scenarios.WrongPlayerFirst | app/Board.php:89-93 | on a new board player 2 may not open: code 3 and message, board still empty |
| Scenarios.WinByOneGame | app/Console/Commands/RunGameCommand.php:46-54 | the seven moves of the first game end with player 1 holding the bottom row, winner 1, no error |
| Scenarios.WinByTwoGame | app/Console/Commands/RunGameCommand.php:55-63 | the second game ends with winner 2 after six moves; the seventh is refused with code 2 and leaves the grid unchanged |
| Scenarios.DrawGame | app/Console/Commands/RunGameCommand.php:64-74 | the nine moves of the third game fill the grid without a line: winner -1 |

## Left out

- The HTTP controller and its cache, id generation and status codes
  (app/Http/Controllers/GameController.php) are not part of this model.
- The command-line runner's HTTP calls, console output and grid drawing
  are left out. Only its move lists and its loop over them are modelled.
- The JSON text `__toString` returns is not modelled. The model builds the
  ordered key/value record it is encoded from.
- Game.Board.Output: the mate sum `array_sum` is taken over the keys 1 and
  2 only, because the counters never hold another key.
- Rules.OtherPlayer: the error PHP's `match` throws for a player outside
  {1, 2} is a precondition, because no call can pass such a player.
- Game.Board.CalcStatus: the source writes `winner` and the next player's
  mate counter into the fields while it scans. The model returns them from
  the scan and stores them once at the end. This changes nothing, because
  the only reads of the mate counter during the scan are its own
  increments and decrements (app/Board.php:196, 201, 213, 218), which the
  scan performs on a local counter, and `winner` is first read at
  app/Board.php:221, after the loops.
- Game.ScanLines: the per-player count arrays `$cntRow`, `$cntCol`,
  `$cntDiagLr` and `$cntDiagRl` are two integers each, one per player. The
  loop bodies are helper methods (`ScanRow`, `ScorePair`).
- Scenarios.WinByOneGame, Scenarios.WinByTwoGame, Scenarios.DrawGame: the
  shipped games are stated as chains of `Step` on values, not through
  `Run` on a board.
