/** The version 1 contract types shared by the rules engine and the server.
    Strings that the contract enumerates become datatypes with one extra constructor
    for every other string, so that the validators still have something to refuse. */
module Protocol {
  import opened Options

  const VERSION := "1"
  const BOARD_CELLS := 64

  datatype Player = Dark | Light | OtherPlayer(name: string) {
    predicate Valid() {
      Dark? || Light?
    }

    function Opponent(): Player {
      if Dark? then Light else Dark
    }
  }

  datatype Phase = Playing | Finished | OtherPhase(name: string)

  datatype Action = NewGameAction | ApplyCommandAction | OtherAction(name: string)

  datatype CommandType = PlaceType | PassType | OtherType(name: string)

  datatype EventType = Placed | Passed | OtherEvent(name: string)

  datatype ErrorCode =
    | InvalidJson | UnsupportedVersion | InvalidRequest | InvalidState | InvalidCommand
    | InvalidCoordinate | Occupied | IllegalMove | NotYourTurn | StaleTurn
    | PassNotAllowed | GameFinished | OtherCode(name: string)

  /** None is an empty cell, Some(c) a piece of colour c. */
  type Cell = Option<int>

  /** Row-major cells: (row, col) is at index row * 8 + col. */
  type Board = seq<Cell>

  datatype Position = Position(row: int, col: int)

  datatype State = State(
    version: string,
    gameId: string,
    board: Board,
    turnNumber: int,
    currentPlayer: Player,
    nextColor: int,
    rngState: int,
    consecutivePasses: int,
    phase: Phase,
    winner: Option<Player>,
    legalMoves: seq<Position>)

  datatype Command = Command(
    commandId: string,
    kind: CommandType,
    player: Player,
    expectedTurn: int,
    row: Option<int>,
    col: Option<int>)

  datatype Change = Change(row: int, col: int, color: int)

  datatype Event = Event(
    commandId: string,
    kind: EventType,
    player: Player,
    turnNumber: int,
    row: Option<int>,
    col: Option<int>,
    placedColor: Option<int>,
    changes: seq<Change>)

  datatype Request = Request(
    version: string,
    action: Action,
    gameId: string,
    seed: Option<int>,
    state: Option<State>,
    command: Option<Command>)

  datatype Response = Response(
    version: string,
    ok: bool,
    state: Option<State>,
    event: Option<Event>,
    error: Option<ErrorCode>)

  predicate InBounds(row: int, col: int) {
    0 <= row < 8 && 0 <= col < 8
  }

  function Index(row: int, col: int): int {
    row * 8 + col
  }

  predicate IsColor(v: int) {
    0 <= v <= 255
  }

  predicate IsUint32(v: int) {
    0 <= v <= 4294967295
  }

  function NewGameRequest(gameId: string, seed: int): Request {
    Request(VERSION, NewGameAction, gameId, Some(seed), None, None)
  }

  function ApplyCommandRequest(s: State, c: Command): Request {
    Request(VERSION, ApplyCommandAction, "", None, Some(s), Some(c))
  }
}
