# Gradient Reversi: rules, records, matches, frames

A Dafny model of the Gradient Reversi server and its rules engine, with proofs of what they are built
to guarantee. `dafny verify dfyconfig.toml` checks all of it.

**The rules engine** (`Protocol`, `Rules`, `Moves`, `Random`, `Games`, `Events`, `Winners`, `Termination`). The engine's
loops are methods, each proved to compute a function of its input; the laws of the game are proved
about those functions. A placement is simultaneous in every order of its conversions. Legality looks
at neither colour nor player, and from that the main theorem follows: no game ever runs out of moves
before the sixtieth, so that a pass is never accepted, and a game is over exactly when the board is full.
From states that no game reaches, runs still end. Events carry the board from state to state, refusals name
their first reason, and the winner is the side that the pieces lean to, however they are counted.

**The contract** (`Contract`). The server's validator and the engine's, written independently, agree;
the engine's answers keep the contract with one exact exception.

**Records** (`Text`, `Grammar`, `Language`, `Harness`, `Record`, `RoundTrip`,
`SpacedTimes`, `Diagnostics`, `Verdicts`, `Converse`). A record is a small
program in seven words. The line patterns, the scanner, the decoder, the harness's accumulator machine
with its replay loop, the replayer and the encoder are modelled character by character. What a live game
writes replays strictly to the same states, every accepted record can be written again, the records
that live play could have written are exactly told apart from those it could not, and a diagnostic of
the interpreter is taken back to the record's own line. The line language is given as shapes, and every source
gets the verdict that its lines and its replay deserve.

**Matches** (`Rooms`, `RoomRuns`, `Agreement`, `CatchingUp`, `Notices`, `Server`, `Matches`). A room is a class with seats, a
phase, the authoritative state and every channel it ever handed out. Its operations hold its lock
throughout, so that each is one atomic step. The theorems are about every sequence of operations:
clients agree on the game in spite of dropped events and reconnections, every match that finishes is
saved, and every match in play can be finished. When a client that missed events has caught up is
proved as an equivalence, and what each operation tells whom is proved word for word.

**Many callers at once** (`Managers`, `Interleavings`, `Routing`, `ManagedRooms`). Join, Leave and Submit of the manager are
several critical sections each. The class `Manager` runs them in a row; `Interleavings` runs the
sections of any number of callers in any order, on the same section functions, and proves what the
registry of rooms keeps; `Routing` proves where newcomers, returning players and submissions end up.
`ManagedRooms` carries the theorems about matches over to the rooms of such runs.

**The socket** (`Utf8`, `WebSocket`, `RateLimiting`). The frame reader and writer of sections 5.2, 5.3,
5.5 and 5.6 of RFC 6455, UTF-8 after section 3 of RFC 3629, and the token bucket over real time.

## Conventions

- Numbers of JSON are mathematical integers; 32-bit and 8-bit ranges are checked where the source
  checks them. A string that is none of a type's words is kept, as the `Other...` case of the type.
- Errors are their codes. A refusal is an answer with the state it carries; a failure of the runner
  is a separate answer.
- `hide` statements keep proofs small; they hide definitions from the verifier and prove nothing.

## What the proofs show about the code

- `Rules.CheckState` and `Contract.ValidatorsAgree`: both checks accept a playing state that counts two
  passes, and an accepted pass then leaves the contract (`Contract.OverrunExample`). No game reaches such
  a state, and with one more bound the contract is closed (`Contract.SoundStatesKeepContract`).
- The harness skips the request gate, so that records exist which replay and which no live game could
  have written, whatever ids its commands had (`Converse.LightMayOpenARecord`);
  `Converse.ReplayIsLiveIff` says exactly which.
- A start or end time that ends in white space loses it when its record is written again
  (`RoundTrip.ReencodedRecordReplays`), and there are accepted records with such a time
  (`SpacedTimes.SpacedRecordsExist`). The server's own times have none.
- `writeFrame` lets a payload of 65536 bytes through and announces it as empty (`WebSocket.LengthLost`,
  `WebSocket.LongestTextIsLost`).
- Without `Manager.Close`, the cleaning up after a failed Join never finds anything to do
  (`Interleavings.FailedJoinRemovesNothing`).
- docs/contracts/protocol.md promises that a client which missed an event catches up with the next accepted
  command. It does iff its buffer has room then (`CatchingUp.AcceptedCatchesUpIff`), and after the last
  command there is none: with sixteen events waiting at the sixtieth move the final state and the end of
  the match are dropped, and only the opponent's departure makes up for it
  (`CatchingUp.FinalStateCanBeLost`, `CatchingUp.DepartureCatchesUp`).
- The example record in docs/contracts/game-record.md notes 61 moves for a full board; a complete game has
  sixty (`Games.WholeGame`). The count is a comment, which no reader checks (`Grammar.EndReadsBack`),
  though what is written there is right (`RoundTrip.RecordTellsTotals`).

## Model

| member | source | states |
|---|---|---|
| `Rules.WalkLine` | rules/game/rules.nako3:45-65 | The walk in one direction meets exactly the run of pieces next to the cell, nearest first, and stops at the first empty cell or the edge |
| `Rules.RayFromLine` | rules/game/rules.nako3:62-71 | A run of at least two gives a ray whose last piece is the fixed end and whose other pieces are the targets; a shorter run gives none |
| `Rules.CaptureLines` | rules/game/rules.nako3:45-73 | The nested loop collects, in the order of the eight directions, one ray for each direction with a run of two or more |
| `Rules.ListLegalMoves` | rules/game/rules.nako3:75-88 | The scan over the 64 cells gives the row-major list of the empty cells that have a ray |
| `Rules.IsFull` | rules/game/rules.nako3:90-95 | Full iff no cell is empty |
| `Rules.ComputeWinner` | rules/game/rules.nako3:97-107 | The loop finds the winner of every board, who is the side that `Winners.VerdictOf` names |
| `Rules.ConvertRay` | rules/game/rules.nako3:222-231 | The inner loop writes each target of a ray from the old board's colours and reports each change |
| `Rules.ConvertTargets` | rules/game/rules.nako3:217-231 | Written in place on one copy, all rays together give the board on which every target took its colour from the old board |
| `Rules.ApplyPlace` | rules/game/rules.nako3:204-266 | The loops and assignments compute the placement; `Events.EventDescribesMove` and `Events.StateAfterMove` say what it is |
| `Rules.ApplyPass` | rules/game/rules.nako3:268-296 | Refused while there is a legal move; otherwise the pass that `Events.EventDescribesPass` describes |
| `Rules.CreateGame` | rules/game/rules.nako3:180-202 | The new game as one state: the centre block, the first draw, the legal cells |
| `Rules.CheckState` | rules/game/rules.nako3:109-165 | The cascade of guards accepts a state iff it is valid as a whole |
| `Rules.EvaluateRequest` | rules/game/rules.nako3:298-348 | The gate: which code each bad request gets, in the order of the guards, and otherwise the new game, placement or pass |
| `Moves.LegalIff` | rules/game/rules.nako3:45-88 | A cell is legal iff it is empty and in some direction the next two cells are occupied; colours and players play no part |
| `Moves.LegalMovesIs` | rules/game/rules.nako3:75-88 | The list is strictly row-major, so without duplicates, and holds a cell iff the cell is legal |
| `Moves.RaysAreApart` | rules/game/rules.nako3:45-73 | The rays from one cell never share a cell, and none holds the cell itself |
| `Moves.MoveHitsIndependent` | rules/game/rules.nako3:217-231 | The targets of one move are distinct, and no fixed end is a target |
| `Moves.PlaceIsSimultaneous` | rules/game/rules.nako3:217-231 | Every cell of the board after a placement: the placed colour, the floored mean of three colours as they were before, or its old value |
| `Moves.ConvertedCell` | rules/game/rules.nako3:225-229 | A cell inside a run takes the floored mean of the placed colour, the far end and itself |
| `Moves.InPlaceIsRecolor` | rules/game/rules.nako3:222-231 | Converting one after another on the board being written, reading back what was written, gives the simultaneous result |
| `Moves.AnyOrderInPlace` | rules/game/rules.nako3:217-231 | And so does every order of directions and targets |
| `Random.DrawInRange` | rules/game/rules.nako3:18-28 | A draw stays in 32 bits, its product is below 2^53 and so exact in a double, and it yields a colour in 0..255 |
| `Random.PreviousOfNext` | rules/game/rules.nako3:18-24 | The generator has an inverse: no two states have the same successor |
| `Random.NextOfPrevious` | rules/game/rules.nako3:18-24 | And the inverse is one on the other side: every 32-bit state is a successor |
| `Random.DistinctSeedsStayDistinct` | rules/game/rules.nako3:188-196 | Different seeds give different generator states after every number of draws |
| `Games.PlacedBoardPieces` | rules/game/rules.nako3:217-231 | A placement adds one piece, removes none, and keeps colours in 0..255 |
| `Games.OutOfMovesIsFull` | rules/game/rules.nako3:45-95 | With the centre occupied, no legal move iff no empty cell |
| `Games.NewGameInGame` | rules/game/rules.nako3:180-202 | A new game satisfies the invariant of games |
| `Games.InGameIsValid` | rules/game/rules.nako3:109-165 | Every state of a game passes the engine's own validity check |
| `Games.AcceptedIffListed` | rules/game/rules.nako3:204-249 | In a game a command is accepted iff it is a well-formed placement by the player to move, for this turn, on a listed cell |
| `Games.StepStaysInGame` | rules/game/rules.nako3:298-348 | One command, accepted or not, keeps the invariant |
| `Games.GameInvariant` | rules/game/rules.nako3:298-348 | After any commands from a new game the invariant holds, with one draw for each accepted command |
| `Games.WholeGame` | rules/game/rules.nako3:180-348 | Turn number = accepted commands = pieces - 4; finished iff sixty were accepted iff the board is full; until then there is a legal move, and then the sum of the 64 colours decides |
| `Games.PassNeverAccepted` | rules/game/rules.nako3:268-275 | In every state a game reaches, a pass is refused |
| `Games.NeverStuck` | rules/game/rules.nako3:204-249 | Until the sixtieth move some command is accepted |
| `Games.EveryGameCanFinish` | rules/game/rules.nako3:204-266 | Every accepted beginning of a game can be played on to its end |
| `Games.RandomIsIndependentOfPlay` | rules/game/rules.nako3:240-242 | The generator after k accepted commands is k + 1 draws from the seed, whatever was played |
| `Games.AcceptConsumesTurn` | rules/game/rules.nako3:329-336 | An accepted command names the current turn and uses it up, from any state |
| `Games.AcceptedNameTheirTurns` | rules/game/rules.nako3:298-348 | The accepted commands of a run carry consecutive turn numbers |
| `Games.RedeliveryIsHarmless` | rules/game/rules.nako3:298-348 | A second delivery of an accepted command, at any later time, is refused and changes nothing that follows |
| `Games.AcceptedAlone` | rules/game/rules.nako3:298-348 | Running only the accepted commands accepts them all and ends in the same state |
| `Games.FirstDraw` | rules/game/main.nako3:17-42 | Seed 1: the two draws of the engine's self-test |
| `Games.OpeningMoves` | rules/game/main.nako3:20-20 | The legal cells of a new game are the twelve around the centre |
| `Games.FirstMove` | rules/game/main.nako3:37-38 | Seed 1, first move at (2, 2): the two colours of the self-test |
| `Games.LightDiagonal` | rules/game/rules.nako3:180-202 | The four pieces of a new game by colour, and moves that convert each of the two light ones |
| `Games.EdgeMove` | rules/game/main.nako3:61-84 | The edge move of the self-test over 30, 60, 90: both targets use the colours before the move |
| `Games.EightDirections` | rules/game/main.nako3:86-111 | The self-test with eight runs: each near piece becomes 60 |
| `Events.EventDescribesMove` | rules/game/rules.nako3:216-265 | From any state: the event names the mover, the turn, the cell and the placed colour; its changes are the cells inside the runs, each once and in the order of the directions, and writing them and the placed piece onto the old board gives the new one |
| `Events.StateAfterMove` | rules/game/rules.nako3:236-249 | From any state: the other player's turn, no passes in a row, the next draw, and the end exactly when the last empty cell is filled |
| `Events.EventDescribesPass` | rules/game/rules.nako3:268-295 | From any state: an accepted pass had no legal cell, changes no cell, hands the turn over, and ends the game if it is the second in a row |
| `Events.TwoPassesEnd` | rules/game/rules.nako3:268-296 | Where nobody can move the two passes are accepted, the first leaves the game open and the second ends it on the same board |
| `Events.EventsCarryTheBoard` | rules/game/rules.nako3:251-264 | Over any run from any state: a client that writes down the events of the accepted commands has the engine's board |
| `Events.RefusalsAreReasoned` | rules/game/rules.nako3:326-347 | In a game after n accepted commands each refused command gets the code of its first reason, with the state unchanged and no event |
| `Events.RequestVerdict` | rules/game/rules.nako3:298-325 | Exactly which requests get each code of a request as a whole, and that every other answer carries a state |
| `Winners.CountedInAnyOrder` | rules/game/rules.nako3:97-104 | The board's colours counted in any order: as many as its pieces, leaning as much to either side |
| `Winners.VerdictOf` | rules/game/rules.nako3:97-107 | On every board dark wins iff the pieces, in any order, lean below the middle taken together |
| `Winners.UnanimousBoards` | rules/game/rules.nako3:97-107 | Colours up to 127 only make dark the winner, from 128 only light |
| `Winners.LighterStaysLight` | rules/game/rules.nako3:97-107 | Making pieces lighter never takes the victory from light |
| `Winners.MirroredVerdict` | rules/game/rules.nako3:105-107 | Mirroring every colour at the middle swaps the winner, but for the exact middle, which is light's both ways |
| `Winners.WinnerOfAGame` | rules/game/rules.nako3:244-247 | After sixty accepted commands the winner is the side that the 64 pieces lean to |
| `Termination.StepUsesUp` | rules/game/rules.nako3:204-296 | From any valid state with at most one pass counted while playing, an accepted command keeps that bound and uses up at least one of what remains |
| `Termination.RunsEnd` | rules/game/rules.nako3:204-296 | So every run, of any length, accepts at most empty cells + 2 commands |
| `Contract.ValidatorsAgree` | server/internal/protocol/validate.go:88-136 | The engine's check and the server's check, written apart, accept the same states |
| `Contract.ApplyKeepsContract` | server/internal/protocol/validate.go:180-217 | On a request the server accepts the engine refuses only for one of six reasons of the game, with the state unchanged; its answer keeps the contract iff no third pass is counted |
| `Contract.SoundStatesKeepContract` | server/internal/runtime/runtime.go:103-132 | With the bound on passes every answer passes the server's check, and the bound is kept |
| `Contract.OverrunExample` | server/internal/protocol/validate.go:104-104 | The bound is needed: a state both checks accept, a pass the engine accepts, and an answer the server refuses |
| `Contract.NewGameKeepsContract` | server/internal/runtime/runtime.go:183-186 | A new game is answered, in contract, for every 32-bit seed and non-empty id |
| `Contract.RequestKeepsContract` | server/internal/protocol/validate.go:7-44 | Every request in range that the server accepts is answered in contract iff it is no overrunning pass, and refused only for a reason of the game with its state unchanged |
| `Text.DecimalReadsBack` | server/internal/replay/encode.go:77-82 | The digits printed for a number denote that number again |
| `Text.DecimalInjective` | server/internal/match/manager.go:141-142 | Different numbers are written differently |
| `Text.SplitLines` | server/internal/replay/decode.go:78-79 | Writing lines and splitting the text gives the lines back |
| `Text.SplitJoined` | server/internal/replay/decode.go:235-235 | Two texts joined by a line end split into the lines of both |
| `Grammar.VersionReadsBack` | server/internal/replay/encode.go:72-74 | The version line is read as the version it declares |
| `Grammar.StartReadsBack` | server/internal/replay/encode.go:77-82 | The start line is read as its id and seed, for every valid id and every seed |
| `Grammar.PlaceReadsBack` | server/internal/replay/encode.go:87-96 | A placement line is read as its player, cell and note |
| `Grammar.PassReadsBack` | server/internal/replay/encode.go:99-104 | A pass line is read as its player's pass |
| `Grammar.EndReadsBack` | server/internal/replay/encode.go:107-112 | The end line is read as its winner, whatever counts it notes |
| `Grammar.NoteReadsBack` | server/internal/replay/decode.go:17-29 | The note of a placement is found and read as its colour and count |
| `Grammar.TotalsReadBack` | server/internal/replay/encode.go:107-113 | The comment of the end line reads as the number of moves, the sum of the colours and the number of pieces, in this order |
| `Grammar.SampleLines` | rules/replay/sample-game.nako3:1-68 | The header, version, start and end lines and two placements built for the sample game are those of the file, letter by letter |
| `Language.LineSays` | server/internal/replay/decode.go:16-27 | For every text: it reads as a given line iff it has that line's shape, so that no text has two meanings |
| `Language.BadLinesSayNothing` | server/internal/replay/decode.go:110-120 | A text is refused iff it has no shape at all |
| `Grammar.TimeReadsBack` | server/internal/replay/encode.go:57-69 | A time in a header comment is read as itself, if it holds no pattern white space |
| `Harness.MoveRoundTrip` | server/internal/replay/record.go:67-91 | A move made a command for any turn and read back is the same move |
| `Harness.ReplayIds` | server/internal/replay/record.go:67-81 | The commands made from moves have different ids for different turns, the first of them replay-1 |
| `Harness.Interpreter.AddMove` | rules/replay/harness.nako3:32-37 | Appends one move without cells for the named player |
| `Harness.Interpreter.AddPlacement` | rules/replay/harness.nako3:40-45 | Appends one placement |
| `Harness.Interpreter.Execute` | rules/replay/harness.nako3:49-79 | One line of a record changes the globals as its word says; comments change nothing |
| `Harness.Interpreter.ExecuteAll` | rules/replay/harness.nako3:25-79 | The lines in order leave the accumulated globals |
| `Harness.Interpreter.Output` | rules/replay/harness.nako3:100-148 | The replay loop reports the globals and one frame for each state, up to the first refusal |
| `Harness.FailureStays` | rules/replay/harness.nako3:130-137 | After a refusal nothing is replayed any more |
| `Harness.SameMoveSameState` | rules/replay/harness.nako3:83-93 | The harness's own command ids change nothing but the event's id |
| `Harness.ReplayRefinesLive` | rules/replay/harness.nako3:100-148 | For every sequence the gate accepts from a new game, the harness reports no failure and its n + 1 frames are the live states one by one |
| `Record.ScanSource` | server/internal/replay/decode.go:75-136 | The scanning loop: the outline, or the first line that is none |
| `Record.ReplaySource` | server/internal/replay/replay.go:116-171 | The replay loop with its options: limit, strict notes, required end |
| `Record.BuildRecord` | server/internal/replay/replay.go:50-69 | The contract's game record of a replay |
| `Record.BoardTotals` | server/internal/replay/encode.go:116-129 | The accumulated colour sum and piece count |
| `Record.EncodeResult` | server/internal/replay/encode.go:131-189 | The text written for a replayed game, line by line, or no text |
| `RoundTrip.LineBookkeeping` | server/internal/replay/decode.go:75-136 | For every source the scan accepts: moves are numbered consecutively on strictly increasing lines, their text is found at those lines, and the i-th is the harness's i-th move |
| `RoundTrip.LocatedLineIsItsOwn` | server/internal/replay/decode.go:235-235 | A line of the combined program maps to the record's line with the same text if it is one of the record's, and to none otherwise |
| `Diagnostics.DiagnosticAtOf` | server/internal/replay/decode.go:306-307 | The pattern finds the line number in every diagnostic of the interpreter's form |
| `Diagnostics.FailureIsLocated` | server/internal/replay/decode.go:311-331 | A diagnostic, with anything before it that opens no bracket, is located at the record's own line, or at none if it is about the harness or the added call |
| `Diagnostics.OtherMessagesBlameNoLine` | server/internal/replay/decode.go:311-315 | A message in another form names no line |
| `Verdicts.DecodeVerdict` | server/internal/replay/decode.go:75-304 | Every source: a line without meaning is a syntax error on the first such line; otherwise it decodes iff its start, end and version lines, its seed and its id are right, and else the code says what is not |
| `Verdicts.HarnessMovesAreGood` | server/internal/replay/decode.go:286-301 | No source gives the harness a malformed move |
| `Verdicts.IllegalMoveIsLocated` | server/internal/replay/replay.go:174-195 | A refused move is reported with its number, the engine's code in the state before it, and the very line of the source that says it |
| `Verdicts.NotesAreRead` | server/internal/replay/decode.go:120-131 | Each move line holds the note of its text, and none when there is none to read |
| `Verdicts.StrictVerdict` | server/internal/replay/replay.go:116-172 | A source whose moves the engine accepts: mismatch on the first line whose note disagrees with the replay, else unfinished, else mismatch of the winner, else accepted, each exactly when |
| `Verdicts.PartialReplays` | server/internal/replay/replay.go:108-172 | A replay up to a move shows the first frames of the whole one; without strictness notes and end do not matter |
| `RoundTrip.ReplayFacts` | rules/replay/harness.nako3:113-144 | Every replay of well-formed moves gives states in range and frames with consecutive turns |
| `RoundTrip.ReadsRecord` | server/internal/replay/decode.go:75-136 | The text of any recorded game scans without error into its own outline |
| `RoundTrip.RecordDecodes` | server/internal/replay/decode.go:199-304 | The text of any recorded game decodes into its own script |
| `RoundTrip.RecordTellsTotals` | server/internal/replay/encode.go:107-127 | The last line of a finished record tells its winner, the moves made, and the sum and number of the pieces on the board |
| `RoundTrip.WrittenRecordReplays` | server/internal/replay/encode.go:131-213 | The text of any recorded game replays strictly to the same id, seed, winner, moves, states and notes; times come back trimmed at their ends |
| `RoundTrip.CarriedEncodes` | server/internal/replay/encode.go:131-213 | The encoder writes exactly the lines of the game a replay carries |
| `RoundTrip.LiveGameIsRecorded` | rules/replay/harness.nako3:100-148 | Any commands the gate accepts from a new game are a recorded game whose frames are the live states |
| `RoundTrip.AcceptedRecordCarries` | server/internal/replay/replay.go:99-101 | Any text the strict replay accepts, in whoever's writing, carries a recorded and finished game |
| `RoundTrip.ReencodedRecordReplays` | server/internal/replay/encode.go:131-213 | Any accepted record, encoded again, is accepted again; it is the same game iff neither time ends in white space that trimming a line removes |
| `SpacedTimes.TrailingSpaceIsLost` | server/internal/replay/decode.go:79-93 | For every finished recorded game: a comment with a time that ends in an ideographic space makes an accepted record which, encoded again, is not the same |
| `SpacedTimes.SpacedRecordsExist` | server/internal/replay/decode.go:79-93 | Such accepted records exist for every valid id and every seed |
| `Converse.GateAndHarness` | rules/replay/harness.nako3:124-129 | The gate accepts a record's move iff the harness does and it is a placement by the player to move |
| `Converse.ReplayIsAcceptedIff` | rules/replay/harness.nako3:83-148 | The commands the harness makes of a record's moves pass the gate one by one iff the moves replay and are placements by dark and light in turn |
| `Converse.LiveMovesInTurn` | rules/game/rules.nako3:343-347 | Whatever ids its commands have, a live game's accepted moves are placements by dark and light in turn |
| `Converse.ReplayIsLiveIff` | rules/replay/harness.nako3:100-148 | Some commands, whatever their ids, make a record's moves a live game iff the moves replay and are placements by dark and light in turn |
| `Converse.LightMayOpenARecord` | rules/replay/harness.nako3:64-66 | The condition is needed: a record that light opens replays, and no commands whatever make its moves a live game |
| `Converse.RecordPlaysAgain` | server/internal/replay/record.go:155-170 | The moves taken out of an accepted replay's game record are the script's, and its commands lead the engine to the final state iff the players move in turn |
| `Rooms.Room.Send` | server/internal/match/room.go:101-110 | One event into a connected seat's open channel, or dropped when sixteen are waiting |
| `Rooms.Room.SendAll` | server/internal/match/room.go:113-123 | One event to each connected seat, with that seat in it |
| `Rooms.Room.SendOthers` | server/internal/match/room.go:212-219 | One event to each connected seat of another player |
| `Rooms.Room.Join` | server/internal/match/room.go:134-196 | The new room and the result of joining, in every case |
| `Rooms.Room.Submit` | server/internal/match/room.go:225-276 | The new room and the answer to a command, in every case |
| `Rooms.Room.Leave` | server/internal/match/room.go:280-315 | The new room and whether it is empty; `Notices.DepartureIsTold` says what the opponent is told |
| `Rooms.Room.Close` | server/internal/match/room.go:319-333 | The room closed, each open channel told and closed once |
| `Rooms.Room.Release` | server/internal/match/room.go:336-347 | Every seat off its channel, each channel closed once |
| `RoomRuns.EngineInRoom` | server/internal/match/room.go:247-262 | In a room the runner answers a well-formed command with what the engine says and an accepted state stays in the game |
| `RoomRuns.JoinKeepsOk` | server/internal/match/room.go:134-196 | Joining keeps the room's invariant |
| `RoomRuns.SubmitKeepsOk` | server/internal/match/room.go:225-276 | A submission keeps it |
| `RoomRuns.LeaveKeepsOk` | server/internal/match/room.go:280-315 | Leaving keeps it |
| `RoomRuns.CloseKeepsOk` | server/internal/match/room.go:319-347 | Closing keeps it |
| `RoomRuns.Life` | server/internal/match/room.go:81-347 | After any operations: at most two seats with distinct players, light only with dark, connected iff the seat's channel is open and no other's, the phase that the seats determine unless closed, no open channel without a seat, no buffer over its bound, and a state that is one of the room's own game |
| `RoomRuns.StepGrows` | server/internal/match/room.go:101-123 | An operation only appends to channels, and what it appends carries the state after it |
| `Agreement.SubmitIsStepOrNothing` | server/internal/match/room.go:225-276 | A submission makes the move that the engine alone would make, by the seated player whose turn it is, or changes nothing |
| `Agreement.SubmitAcceptsIff` | server/internal/match/room.go:229-262 | A submission is accepted iff the engine runs, the match is open, the command is well formed and for the sender's own seat, and the engine accepts it |
| `Agreement.StateIsTheLedgersGame` | server/internal/match/room.go:225-276 | The room's state is the new game after the accepted commands, all of which the engine accepts |
| `Agreement.ClientsAgree` | server/internal/match/room.go:101-130 | Over all channels ever handed out, equal turn numbers mean equal states, turns never decrease within a channel, and each state is the game after that many accepted commands |
| `Agreement.ReconnectStartsWithState` | server/internal/match/room.go:142-157 | A returning player's new channel starts with the current state |
| `Agreement.MatchStarts` | server/internal/match/room.go:173-195 | The second player starts the game, and both seats are told if their buffers have room |
| `Agreement.AcceptedIsDelivered` | server/internal/match/room.go:262-268 | An accepted command reaches every connected seat whose buffer has room, as the new state with its event |
| `CatchingUp.CaughtUpIff` | docs/contracts/protocol.md:97-99 | Over every life of a room: a channel ends with the room's state iff something was sent to it since the last accepted command or the start of the match |
| `CatchingUp.AcceptedCatchesUpIff` | server/internal/match/room.go:101-110 | An accepted command catches a connected client up, whatever it had missed, iff its buffer has room then |
| `CatchingUp.ClosedSendsNothing` | server/internal/match/room.go:229-235 | In a closed room nothing but a departure sends anything |
| `CatchingUp.LeftBehindForGood` | server/internal/match/room.go:134-347 | A client that a closed room has left behind stays behind whatever happens, as long as nobody leaves |
| `CatchingUp.DepartureCatchesUp` | server/internal/match/room.go:310-314 | The opponent's departure carries the state to a client whose buffer has room |
| `CatchingUp.FinalStateCanBeLost` | server/internal/match/room.go:262-273 | In every room, for every seed, there is a match whose final state one open channel never gets as long as nobody leaves |
| `Notices.FirstIsToldToWait` | server/internal/match/room.go:159-171 | The first player takes the dark seat with a new channel that holds exactly the notice to wait |
| `Notices.DepartureIsTold` | server/internal/match/room.go:280-315 | The other player gets exactly one more event, that the opponent left, with the state, unless the buffer is full; play is suspended |
| `Notices.LeaverIsCutOff` | server/internal/match/room.go:289-295 | The leaver's channel is closed as it is, with nothing more sent |
| `Notices.ReturnIsTold` | server/internal/match/room.go:142-157 | The other player gets exactly one more event, that the opponent returned, with the state |
| `Notices.MoveIsTold` | server/internal/match/room.go:262-275 | An accepted command sends every connected player the new state with the engine's event, and after the last one the end of the match, in this order and nothing else |
| `Notices.ClosingIsTold` | server/internal/match/room.go:319-354 | Closing an open room tells every connected player and then closes the channel |
| `Notices.RefusedByRoom` | server/internal/match/room.go:225-261 | What every refused submission is answered, the engine's failure included, with the room unchanged |
| `Notices.RefusedSubmissions` | server/internal/match/room.go:225-261 | Over whole lives: a refused submission gets the code of the first reason that applies, the room's, the server's or the engine's, with the room's state |
| `Agreement.ClosedForEver` | server/internal/match/room.go:138-140 | Once closed a room stays closed, with the same state |
| `Agreement.ClosedChannelsAreSilent` | server/internal/match/room.go:336-347 | Once closed a channel stays closed and gets nothing more |
| `Server.SaveMatch` | server/main.go:971-1025 | Builds the source, replays it strictly, compares the final states, and encodes the result, failing where any of these does |
| `Server.RoomRecord.Submit` | server/main.go:949-969 | Records exactly the accepted commands, and saves once, when the match finishes |
| `Matches.FinishedGameSaves` | server/main.go:971-1025 | Saving a finished game never fails, and the text stored is the source that was replayed |
| `Matches.SavedGameIsTheRecord` | server/internal/replay/replay.go:50-75 | The contract's record read from a saved text is the match field by field: id, seed, times, winner, commands, final state |
| `Matches.EveryFinishedMatchSaves` | server/main.go:949-1025 | Over every life of a room: the record holds exactly the accepted commands, and it is saved iff the match has finished, in a text that replays strictly to it state by state and ends at the time of the move that finished it |
| `Matches.SomebodyCanMove` | server/internal/match/room.go:225-276 | In an open match, after whatever has happened, some player has a command that the room accepts |
| `Matches.MatchCanFinish` | server/main.go:949-969 | Every match in play can be played on, by submissions alone, until it has sixty moves, has finished and is saved with the time of the last of them |
| `Matches.LedgerReplays` | server/main.go:949-969 | At every moment the recorded moves replay, frame by frame, to the room's state |
| `Matches.RoomNamesAreIds` | server/internal/match/manager.go:141-142 | The names of rooms are valid ids of records, and distinct |
| `Managers.Manager.ChooseRoom` | server/internal/match/manager.go:121-146 | The player's own room, else an open waiting room, else a new one |
| `Managers.Manager.SitIn` | server/internal/match/manager.go:98-98 | The room's own join, other rooms untouched |
| `Managers.Manager.EndJoin` | server/internal/match/manager.go:104-109 | The table entry, and no waiting room once it is full |
| `Managers.Manager.Release` | server/internal/match/manager.go:149-160 | A room without seats is taken away |
| `Managers.Manager.Join` | server/internal/match/manager.go:86-118 | The whole Join without interference |
| `Managers.Manager.StandUp` | server/internal/match/manager.go:196-199 | The room's own leave, other rooms untouched |
| `Managers.Manager.EndLeave` | server/internal/match/manager.go:201-217 | An emptied room is taken away with every entry that leads to it |
| `Managers.Manager.Leave` | server/internal/match/manager.go:186-218 | The whole Leave without interference |
| `Managers.Manager.Submit` | server/internal/match/manager.go:165-182 | A command goes to the room its player is entered in, and nowhere else; `Routing.SubmissionIsRouted` says which room that is |
| `Interleavings.JoinEffect` | server/internal/match/room.go:134-196 | What a Join may change: only its own player comes online, only in an open room |
| `Interleavings.LeaveEffect` | server/internal/match/room.go:280-315 | What a Leave may change: only its own player goes offline, and the room closes exactly when that leaves nobody online |
| `Interleavings.NextKeepsInv` | server/internal/match/manager.go:86-218 | Every critical section of Join, Leave and Submit, and every receipt, keeps the invariant of the registry |
| `Interleavings.After` | server/internal/match/manager.go:86-218 | The invariant holds after any sections in any order |
| `Interleavings.NoPlayerInTwoRooms` | server/internal/match/manager.go:86-218 | No player is seated in two registered rooms |
| `Interleavings.OneRoomWaits` | server/internal/match/manager.go:121-146 | At most one open registered room has a free seat, and it is the waiting one |
| `Interleavings.RoomsAreInUse` | server/internal/match/manager.go:186-218 | A registered room has somebody online, unless its first Join or its deleting Leave is under way |
| `Interleavings.NothingIsLeftBehind` | server/internal/match/manager.go:201-217 | With nothing under way, registered iff somebody is online; and when all have left, no room and no table entry remains |
| `Interleavings.LeaveFindsItsPlace` | server/internal/match/manager.go:187-194 | A player who has joined is found, online, when leaving |
| `Interleavings.LeaveTakesEffect` | server/internal/match/manager.go:196-199 | A Leave under way finds its seat in a still registered room and puts its player offline, whatever ran in between |
| `Interleavings.JoinFailsIff` | server/internal/match/manager.go:89-102 | A Join fails iff the room is closed, the player is online there already, or a newcomer is the second player and no game can be started; so never for want of a seat |
| `Interleavings.FailedJoinRemovesNothing` | server/internal/match/manager.go:149-160 | A failed Join never takes a room away |
| `Routing.SubmissionIsRouted` | server/internal/match/manager.go:165-182 | In every reachable world a submission gets to a room only if its player has a seat in that registered room, and always then unless the player is just joining |
| `Routing.HalfJoinedMaySubmit` | server/internal/match/manager.go:104-109 | Between taking a seat and being entered in the table, only who had joined that room before gets through |
| `Routing.DueCommandIsPlayed` | server/internal/match/manager.go:165-182 | A command that an open match waits for gets to its room and becomes its next move, and nothing else in the world changes |
| `Routing.NewcomerIsPaired` | server/internal/match/manager.go:86-146 | From every reachable world with no other Join under way: a newcomer joins the room that waits, and its match starts |
| `Routing.NewcomerWaits` | server/internal/match/manager.go:86-146 | And where no open room has a free seat, waits in the next room, in the dark seat, told so |
| `Routing.ReturnerComesBack` | server/internal/match/manager.go:86-130 | Who has a place in an open room and is away gets the own seat back in the same match, and nothing else changes |
| `ManagedRooms.EveryRoomIsALife` | server/internal/match/manager.go:86-218 | Every room the manager makes, in any run, is a room after some operations of its own, under one of the manager's names |
| `ManagedRooms.ManagedClientsAgree` | server/internal/match/room.go:101-130 | So in every run equal turn numbers mean equal states over all channels of a room, and turns never decrease within one |
| `ManagedRooms.ManagedMatchesSave` | server/main.go:949-1025 | And the record of every such room's operations, at whatever times, holds the accepted commands and is saved iff the match has finished |
| `Utf8.ValidIsEncoded` | server/main.go:654-654 | What passes the check is the encoding of Unicode scalar values |
| `Utf8.EncodedIsValid` | server/main.go:654-654 | Every encoding of scalar values passes it |
| `WebSocket.MaskedTwice` | server/main.go:651-653 | Masking twice gives the data back |
| `WebSocket.ReadIsEncoding` | server/main.go:604-658 | What is read is a permitted frame, and the bytes read are its shortest encoding under their own mask |
| `WebSocket.EncodingReads` | server/main.go:604-658 | Every masked shortest encoding of a permitted frame is read as that frame, whatever follows |
| `WebSocket.ReadingIsCanonical` | server/main.go:604-658 | A byte string reads as a frame iff the frame is permitted and the string is one of its encodings |
| `WebSocket.VerdictStands` | server/main.go:604-658 | Any verdict but a want of bytes stands, whatever comes later |
| `WebSocket.PartOfAFrameWaits` | server/main.go:604-650 | No proper prefix of an encoding is read or refused |
| `WebSocket.TooLargeIff` | server/main.go:617-639 | A frame is too large iff a well-formed beginning announces more than the limit in the shortest form |
| `WebSocket.HelloVectors` | server/main.go:604-684 | The masked and the unmasked Hello of section 5.7 of RFC 6455 |
| `WebSocket.LongLengthVector` | server/main.go:617-636 | Extended lengths are read high byte first |
| `WebSocket.StreamReads` | server/main.go:872-880 | Concatenated encodings are read back as the list of their frames |
| `WebSocket.WrittenReadsBack` | server/main.go:660-684 | A written frame, once masked, reads back iff it has fewer than 65536 bytes |
| `WebSocket.LengthLost` | server/main.go:675-675 | A frame of 65536 bytes is written with length 0, and what was written is refused |
| `WebSocket.LongestTextIsLost` | server/main.go:661-675 | There is such a frame: a text of 65536 letters is permitted, written, and not read back |
| `WebSocket.TruncationLosesLittle` | server/main.go:811-821 | A well-formed reason stays well formed, within 123 bytes, and loses at most three bytes to that |
| `WebSocket.CloseFrameIsPermitted` | server/main.go:803-807 | A close frame may be sent iff its reason is well formed or too long |
| `WebSocket.CloseFrameCarries` | server/main.go:803-807 | A close frame carries the code in its first two bytes, high byte first, and then the shortened reason |
| `WebSocket.ShortenCloseReason` | server/main.go:811-821 | The shrinking loop finds the longest well-formed prefix of at most 123 bytes |
| `WebSocket.WsSocket.ReadFull` | server/main.go:606-608 | Takes exactly the bytes asked for, or all there are and fails |
| `WebSocket.WsSocket.Read` | server/main.go:604-658 | The reader's result and what stays unread, in every case |
| `WebSocket.WsSocket.Unmask` | server/main.go:651-653 | The loop takes the mask off in place |
| `WebSocket.WsSocket.Write` | server/main.go:660-684 | Appends the frame's bytes to the output, or nothing |
| `RateLimiting.AlwaysOk` | server/main.go:319-329 | After any calls the tokens stay within 0 and the burst |
| `RateLimiting.ClockKept` | server/main.go:320-323 | The time of the last refill is the latest reading, though the clock steps back |
| `RateLimiting.RefillsAddUp` | server/main.go:320-323 | Refilling at two readings is refilling once at the later, in whatever order they come: no time is lost |
| `RateLimiting.TokensAreConserved` | server/main.go:319-329 | Exactly: granted + left + lost to the burst = held + rate * time, over any calls |
| `RateLimiting.NoTokenIsWithheld` | server/main.go:319-329 | A client that loses nothing to the burst and ends refused has been granted every whole token |
| `RateLimiting.GrantsArePaid` | server/main.go:319-329 | What is granted comes out of the tokens held and of the time that passes |
| `RateLimiting.WindowBound` | server/main.go:319-329 | Over any stretch of calls, from any state, at most burst + rate * (latest reading - first reading) are granted |
| `RateLimiting.BurstPasses` | server/main.go:314-329 | At one moment exactly as many are granted as there are whole tokens |
| `RateLimiting.PacedCallsPass` | server/main.go:319-329 | Calls at least 1 / rate apart are all granted |
| `RateLimiting.RateLimiter.constructor` | server/main.go:314-316 | A new limiter is full, and within its bounds for every configured rate and burst |
| `RateLimiting.RateLimiter.TryTake` | server/main.go:319-329 | The verdict and the new bucket of one call, of which `RateLimiting.TokensAreConserved` accounts for every fraction |

## Left out

- Fractional numbers and missing fields of JSON, its parser, and the `null` of an empty list: a state is a value with all its fields.
- The wording of error messages, of the reasons in events and of the interpreter's diagnostics.
- The order in which a broadcast visits the two seats: seats are visited dark first, and no property depends on it.
- Processes, time limits and standard error of the engine: a runner either answers as the engine does or fails, and either may happen at any call.
- The Nadesiko language beyond the seven words: a record is run line by line after the scanner has accepted it, and a seed beyond the double's exact range is not rounded.
- Text that is not well-formed Unicode inside records, and regular expressions in general: each pattern is its own recogniser.
- Turn numbers beyond 64 bits or the double's exact range.
- `Manager.Close`, and the room count that `handleMatch` checks before it calls Join: neither is atomic with what it guards.
- A replay that runs out of time while a match is being saved: saving uses the engine without limits.
- Rounding of the token bucket's floating-point numbers, and the saturation of time differences.
- The store of records, the replay and local-game services, HTTP, the upgrade handshake, origins, the configuration, keep-alive and shutdown.
- The browser client, which draws the states it is given.
