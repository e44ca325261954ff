# chesstempo game session, modelled in Dafny

This project models the game session of chesstempo: a Temporal workflow that
plays one game of chess between a user and a machine player. The workflow
picks the user's colour, builds the game from an optional FEN and decides who
moves first. It then runs a loop. On the machine's turn it asks the "play"
activity for a move and applies it. On the user's turn it blocks until a
"move" or "resign" signal arrives. The loop hands the turn over after every
iteration that did not fail, and it stops once the chess library reports an
outcome. An "info" query returns a `GameInfo` view of the game at any time.

The chess library is an uninterpreted oracle: `Chess.Rules<G, M>` is a record
of total functions over an abstract game state `G` and move type `M`. These
functions cover applying a move string, the outcome and the method that
produced it, resigning, the FEN, the board drawing, the legal moves and their
UCI text, and parsing a FEN. What the workflow engine delivers from outside
is an explicit input, `Loop.Env`. It holds the activity results in the order
they come back and the signals in the order the selector hands them out.
Signals that arrive during the machine's turn wait in their channel, so there
are two queues. The random colour pick is a parameter `draw` in {0, 1}.

Modules follow the parts of `game/game.go`:

- `Wrappers`, `Errors`, `Json`: Option/Result, the error values, and the JSON
  blob handed to an `UnmarshalJSON` method (a string, null, or anything else).
- `Turns`: the `Turn` type, `Shift`, `String`, `MarshalJSON`, `UnmarshalJSON`.
- `Colors`: the `Color` type, `MarshalJSON`, `UnmarshalJSON` and the
  lower-casing it relies on.
- `Chess`: the oracle.
- `Info`: `GameInfo`, `validMoves`, `NewInfoFromGame`.
- `Setup`: `GameWorkflowParams`, `PickColor`, the first turn.
- `Loop`: the game loop as a pure step function `Step`, the loop `Run`, and
  the facts about them.
- `Workflow`: `GameWorkflow` from parameters to return value, and the query.

Behaviour of the code that the model keeps on purpose:

- Resigning shifts the turn once before the loop exits. The resign handler
  never sets the move request, so no error is raised and the shift runs. A
  finished game after a resignation by the user therefore reports the
  machine's turn.
- An empty move string applies nothing and still shifts the turn.
- A rejected user move is not an error of the workflow. The loop simply
  waits for the next signal, with the game and turn unchanged.
- A failed machine move ends the workflow with the error, whether the
  activity failed or the library rejected the move it chose. The returned
  view still shows the machine's turn.
- JSON `null` decodes to the zero value: NoColor for a colour, User for a
  turn. This is because `json.Unmarshal` of null into a string leaves it
  empty.

A failed machine move is not kept as a state for later queries to report:
`GameWorkflow` returns the error (game/game.go:212-214). Only the user can
resign, and the resignation is recorded for the user's colour
(game/game.go:196).

## Model

| member | source | states |
|---|---|---|
| Json.DecodeString | game/game.go:90-93 | a JSON string gives its text, null gives the empty string, and anything else is the only error case |
| Turns.Shift | game/game.go:115-117 | flips the low bit of the turn's code; User becomes Machine and Machine becomes User |
| Turns.ShiftTwice | game/game.go:115-117 | shifting twice gives back the original turn |
| Turns.ShiftNParity | game/game.go:115-117 | after n shifts the turn is the original when n is even and the other side when n is odd |
| Turns.TurnString | game/game.go:142-150 | every turn has a non-empty name, and the name is "User" exactly for User |
| Turns.TurnMarshal | game/game.go:119-121 | a turn encodes as a JSON string |
| Turns.TurnUnmarshal | game/game.go:123-140 | only the exact string "Machine" decodes to Machine; every other string and null decode to User; a non-string blob is an error |
| Turns.TurnRoundTrip | game/game.go:119-150 | decoding the encoding of a turn gives back the same turn |
| Colors.ColorMarshal | game/game.go:85-87 | a colour encodes as a non-empty JSON string |
| Colors.Lower | game/game.go:97 | lower-casing keeps the length and lower-cases each character on its own |
| Colors.ColorUnmarshal | game/game.go:89-105 | a non-string blob is the only error; null decodes to NoColor |
| Colors.LowerIsWord | game/game.go:97 | a string lower-cases to a lower-case word exactly when it spells that word in some mix of cases |
| Colors.ColorDecodeIgnoresCase | game/game.go:95-104 | "white" or "w" in any case gives White, "black" or "b" in any case gives Black, every other string gives NoColor, and none is an error |
| Colors.ColorRoundTrip | game/game.go:85-105 | decoding the encoding of a colour gives back the same colour |
| Chess.MoveStr | game/game.go:223 | applying a move fails exactly when the library rejects it, and the error names the move |
| Info.EncodeMoves | game/game.go:273-276 | one UCI string per move, in the same order, each encoded from the game's position |
| Info.ValidMoves | game/game.go:268-279 | the legal moves of the side to move, one string each, in the library's order |
| Info.NewInfoFromGame | game/game.go:50-66 | the legal moves are listed exactly when it is the user's turn and left nil otherwise; FEN, outcome, method, board, turn and colour are copied from the game and the arguments |
| Setup.PickColor | game/game.go:20-36 | an explicit colour is kept unchanged; otherwise the result is White for draw 0 and Black for draw 1, and it is never NoColor; the FEN is untouched |
| Setup.PickColorOnce | game/game.go:25-35 | picking again after a pick changes nothing, whatever the new draw |
| Setup.FirstTurn | game/game.go:174-178 | the machine moves first exactly when the user's colour is Black |
| Loop.MachinesMove | game/game.go:240-253 | an activity error is returned as the error; otherwise the chosen move is applied, and fails if the library rejects it |
| Loop.Step | game/game.go:203-232 | an iteration blocks exactly when the side to move has no input; otherwise it consumes one input; only the machine's turn can abort; a rejected move leaves the session unchanged and happens only on the user's turn; every other iteration shifts the turn exactly once; the colour never changes |
| Loop.Run | game/game.go:202-236 | the loop finishes exactly when the outcome is no longer NoOutcome; a failure happens only on the machine's turn and with no outcome; a blocked loop has no input for the side to move; a game that is already over returns at once; the colour is kept |
| Loop.History | game/game.go:203-232 | there is at most one iteration per input given |
| Loop.HistoryWithinConsumed | game/game.go:203-232 | there is at most one iteration, and so at most one shift of the turn, per input the loop consumed |
| Loop.RunTurnParity | game/game.go:218-231 | the final turn is the first turn shifted once per iteration that was not a rejected move, and every consumed input accounts for exactly one iteration or for the abort |
| Loop.StepAppend | game/game.go:186-200 | an iteration that has its input behaves the same whatever further input is queued behind it |
| Loop.RunExtends | game/game.go:185-236 | later input never changes a loop that has finished or failed, and a blocked loop resumes from where it stopped |
| Loop.RejectedMoveChangesNothing | game/game.go:218-229 | on the user's turn a non-empty rejected move keeps game and turn, and the loop continues on the next signal with the same session |
| Loop.AcceptedMoveShiftsTurn | game/game.go:218-231 | on the user's turn an accepted move is applied and the turn becomes Machine |
| Loop.ResignShiftsTurn | game/game.go:192-197 | resigning records the user's resignation and shifts the turn to Machine; if that sets an outcome the loop finishes there |
| Loop.EmptyMoveShiftsTurn | game/game.go:220-231 | an empty move string applies nothing and still shifts the turn to Machine |
| Loop.MachineMoveShiftsTurn | game/game.go:207-215 | an applied machine move hands the turn to the user |
| Loop.MachineFailureStops | game/game.go:212-214 | a failed machine move ends the loop with its error; the turn stays Machine, the game is unchanged and no later input is read |
| Workflow.Start | game/game.go:156-178 | the only set-up error is a non-empty FEN the library rejects; the game comes from the FEN or the standard start; the colour is never NoColor and is the requested one when given; the machine moves first exactly for Black |
| Workflow.Query | game/game.go:180-183 | the query view shows the session's outcome, turn and colour, and lists moves exactly on the user's turn |
| Workflow.GameWorkflow | game/game.go:153-237 | a normal return always has an outcome; an error return after set-up is on the machine's turn with no outcome and no moves listed; a running game has no outcome; the colour is never NoColor and is the requested one when given |
| Workflow.BlackWaitsForMachine | game/game.go:174-183 | a user playing Black first sees the machine's turn with no moves, and after one applied machine move sees the user's turn with the legal moves |
| Workflow.ResignAtOnce | game/game.go:192-236 | resigning at once as White ends the workflow normally, with the turn on the machine and no moves listed |

## Left out

- Temporal mechanics: `workflow.SideEffect`, the selector and signal channels, the query registration, activity options and timeouts, logging, replay and durability. The inputs they deliver are the `Env` queues. The selector tries its cases in the order they were added, so a pending resignation (game/game.go:192) is taken before a pending move (game/game.go:198) whatever order they arrived in; the model lets `Env.signals` be in any order, which includes that one.
- The random draw in `PickColor` and the wall clock that seeds it: the draw is a parameter.
- The chess library (FEN parsing, `MoveStr`, `Outcome`, `Method`, `Resign`, `ValidMoves`, UCI encoding, board drawing) is an uninterpreted oracle. So no chess fact is proved, including that an outcome, once set, stays set.
- The "play" activity and the Stockfish bot behind it (game/bot.go): activity results are inputs, and the FEN the activity receives is not modelled.
- The JSON byte syntax and escaping: a blob is a JSON string, null, or something else.
- Decoding the move signal's payload into a string: a move signal carries its string.
- `Turn` is a byte in the source. Only the codes 0 and 1 are ever built, so the model's `Turn` has two values, and the "" returned by `String` for other codes is not modelled.
- Colors.Lower: matches Go's `strings.ToLower` on ASCII and on U+0130 and U+212A, the only characters Go lower-cases to ASCII; every other character is left unchanged instead of lower-cased. This does not affect which colour a string decodes to.
- `Color.String` and `Color.Chess` are conversions to the library's colour and are used only through the oracle.
- HTTP routing and handlers, process start-up, the worker, the Python and TypeScript clients and the embedded assets are outside the game session.
