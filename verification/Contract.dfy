/** The server's own contract validator, server/internal/protocol/validate.go, beside the
    engine's, and the engine run as the server sees it. */
module Contract {
  import opened Options
  import opened Protocol
  import opened Rules
  import opened Moves
  import opened Games
  import opened Termination
  import Random

  // ----- the validators: None is acceptance, otherwise the first failing check -----------

  function CommandError(c: Command): Option<ErrorCode> {
    if c.commandId == "" then Some(InvalidCommand)
    else if !c.player.Valid() then Some(InvalidCommand)
    else if c.expectedTurn < 0 then Some(InvalidCommand)
    else
      match c.kind
      case PlaceType =>
        if c.row.None? || c.col.None? then Some(InvalidCommand)
        else if !InBounds(c.row.value, c.col.value) then Some(InvalidCoordinate)
        else None
      case PassType => if c.row.Some? || c.col.Some? then Some(InvalidCommand) else None
      case OtherType(_) => Some(InvalidCommand)
  }

  function StateError(s: State): Option<ErrorCode> {
    if s.version != VERSION then Some(UnsupportedVersion)
    else if s.gameId == "" then Some(InvalidState)
    else if |s.board| != BOARD_CELLS then Some(InvalidState)
    else if s.turnNumber < 0 then Some(InvalidState)
    else if !s.currentPlayer.Valid() then Some(InvalidState)
    else if s.consecutivePasses < 0 || s.consecutivePasses > 2 then Some(InvalidState)
    else if s.phase.OtherPhase? then Some(InvalidState)
    else if exists i :: 0 <= i < |s.legalMoves| && !InBounds(s.legalMoves[i].row, s.legalMoves[i].col)
      then Some(InvalidState)
    else
      match s.phase
      case Playing => if s.winner.Some? then Some(InvalidState) else None
      case Finished =>
        if s.winner.None? then Some(InvalidState)
        else if !s.winner.value.Valid() then Some(InvalidState)
        else if |s.legalMoves| != 0 then Some(InvalidState)
        else None
      case OtherPhase(_) => None
  }

  function EventError(e: Event): Option<ErrorCode> {
    if e.commandId == "" then Some(InvalidCommand)
    else if !e.player.Valid() then Some(InvalidCommand)
    else if e.turnNumber < 1 then Some(InvalidCommand)
    else
      match e.kind
      case Placed =>
        if e.row.None? || e.col.None? then Some(InvalidCommand)
        else if !InBounds(e.row.value, e.col.value) then Some(InvalidCoordinate)
        else if e.placedColor.None? then Some(InvalidCommand)
        else if exists i :: 0 <= i < |e.changes| && !InBounds(e.changes[i].row, e.changes[i].col)
          then Some(InvalidCoordinate)
        else None
      case Passed =>
        if e.row.Some? || e.col.Some? || e.placedColor.Some? || |e.changes| > 0
        then Some(InvalidCommand) else None
      case OtherEvent(_) => Some(InvalidCommand)
  }

  function RequestError(r: Request): Option<ErrorCode> {
    if r.version != VERSION then Some(UnsupportedVersion)
    else
      match r.action
      case NewGameAction =>
        if r.gameId == "" then Some(InvalidRequest)
        else if r.seed.None? then Some(InvalidRequest)
        else if r.state.Some? || r.command.Some? then Some(InvalidRequest)
        else None
      case ApplyCommandAction =>
        if r.state.None? then Some(InvalidRequest)
        else if r.command.None? then Some(InvalidRequest)
        else if r.gameId != "" || r.seed.Some? then Some(InvalidRequest)
        else if StateError(r.state.value).Some? then StateError(r.state.value)
        else CommandError(r.command.value)
      case OtherAction(_) => Some(InvalidRequest)
  }

  function ResponseError(r: Response): Option<ErrorCode> {
    if r.version != VERSION then Some(UnsupportedVersion)
    else if r.ok then
      if r.error.Some? then Some(InvalidRequest)
      else if r.state.None? then Some(InvalidState)
      else if StateError(r.state.value).Some? then StateError(r.state.value)
      else if r.event.Some? then EventError(r.event.value)
      else None
    else if r.error.None? then Some(InvalidRequest)
    else if r.error.value.OtherCode? then Some(InvalidRequest)
    else if r.event.Some? then Some(InvalidRequest)
    else if r.state.Some? then StateError(r.state.value)
    else None
  }

  // ----- the ranges that decoding into the server's integer types enforces -------------

  predicate StateTyped(s: State) {
    Colored(s.board) && IsColor(s.nextColor) && IsUint32(s.rngState)
  }

  predicate EventTyped(e: Event) {
    && (e.placedColor.Some? ==> IsColor(e.placedColor.value))
    && forall i :: 0 <= i < |e.changes| ==> IsColor(e.changes[i].color)
  }

  predicate RequestTyped(r: Request) {
    (r.seed.Some? ==> IsUint32(r.seed.value)) && (r.state.Some? ==> StateTyped(r.state.value))
  }

  predicate ResponseTyped(r: Response) {
    (r.state.Some? ==> StateTyped(r.state.value)) && (r.event.Some? ==> EventTyped(r.event.value))
  }

  /** What the server accepts as a response: it decodes and passes the validator. */
  predicate GoodResponse(r: Response) {
    ResponseTyped(r) && ResponseError(r).None?
  }

  // ----- the engine behind the server's runner -----------------------------------------

  datatype RunnerAnswer = Failed | Answer(response: Response)

  /** server/internal/runtime: refuse a bad request without starting the engine, and treat a
      response that does not keep the contract as a failure of the runner. */
  function RunEngine(r: Request): RunnerAnswer {
    match RequestError(r)
    case Some(code) => Answer(Rejected(code, None))
    case None =>
      var response := Evaluate(Some(r));
      if GoodResponse(response) then Answer(response) else Failed
  }

  // ----- closure -----------------------------------------------------------------------

  /** The two validators, written independently, accept the same states. */
  lemma ValidatorsAgree(s: State)
    ensures StateValid(s) <==> StateTyped(s) && StateError(s).None?
  {
  }

  /** The one way a contract-keeping request leads the engine out of the contract: a pass that
      the engine accepts in a playing state that already counts two passes. */
  predicate PassOverrun(s: State, c: Command) {
    && |s.board| == BOARD_CELLS
    && s.phase == Playing && s.consecutivePasses == 2
    && c.kind == PassType && c.expectedTurn == s.turnNumber && c.player == s.currentPlayer
    && LegalMoves(s.board) == []
  }

  lemma {:induction false} ChangesInRange(b: Board, color: int, hits: seq<Hit>)
    requires |b| == BOARD_CELLS && Colored(b) && IsColor(color)
    requires forall h :: h in hits ==> HitOk(b, h)
    ensures var changes := ChangesOf(b, color, hits);
            |changes| == |hits| && forall i :: 0 <= i < |changes| ==>
              InBounds(changes[i].row, changes[i].col) && IsColor(changes[i].color)
  {
    if |hits| > 0 {
      ChangesInRange(b, color, hits[..|hits| - 1]);
      assert HitOk(b, hits[|hits| - 1]);
    }
  }

  predicate IsGameReason(code: ErrorCode) {
    code in {Occupied, IllegalMove, NotYourTurn, StaleTurn, PassNotAllowed, GameFinished}
  }

  lemma PlaceKeepsContract(s: State, c: Command)
    requires StateValid(s) && s.phase == Playing && CommandError(c).None? && c.kind == PlaceType
    ensures GoodResponse(Place(s, c))
    ensures !Place(s, c).ok ==> Place(s, c).error in {Some(Occupied), Some(IllegalMove)}
  {
    hide LegalMoves, PieceCount, PlacedBoard, Rays, NextRandom, ColorOf, ChangesOf, MoveHits, ColorSum;
    var row, col := c.row.value, c.col.value;
    if Place(s, c).ok {
      PlacedBoardPieces(s.board, row, col, s.nextColor);
      ChangesInRange(s.board, s.nextColor, MoveHits(s.board, row, col));
      Random.DrawInRange(s.rngState);
      ListedInBounds(PlacedBoard(s.board, row, col, s.nextColor));
    }
  }

  lemma ListedInBounds(b: Board)
    requires |b| == BOARD_CELLS
    ensures var moves := LegalMoves(b);
            forall i :: 0 <= i < |moves| ==> InBounds(moves[i].row, moves[i].col)
  {
    hide LegalMoves;
    LegalMovesIs(b);
    var moves := LegalMoves(b);
    forall i | 0 <= i < |moves|
      ensures InBounds(moves[i].row, moves[i].col)
    {
      assert moves[i] in moves;
    }
  }

  lemma PassKeepsContract(s: State, c: Command)
    requires StateValid(s) && s.phase == Playing && CommandError(c).None? && c.kind == PassType
    ensures GoodResponse(Pass(s, c)) <==> !(LegalMoves(s.board) == [] && s.consecutivePasses == 2)
    ensures !Pass(s, c).ok ==> Pass(s, c).error == Some(PassNotAllowed)
  {
    hide LegalMoves, PieceCount, NextRandom, ColorOf, ColorSum;
    Random.DrawInRange(s.rngState);
    ListedInBounds(s.board);
  }

  /** Whenever the server's validator accepts a request to apply a command, the engine refuses
      it only for one of six reasons of the game itself, and its answer keeps the contract
      unless, and only unless, the pass count overruns. */
  lemma ApplyKeepsContract(s: State, c: Command)
    requires StateTyped(s) && StateError(s).None? && CommandError(c).None?
    ensures var r := Evaluate(Some(ApplyCommandRequest(s, c)));
            && r == Apply(s, c)
            && (!r.ok ==> r.state == Some(s) && r.error.Some? && IsGameReason(r.error.value))
            && (GoodResponse(r) <==> !PassOverrun(s, c))
            && (RunEngine(ApplyCommandRequest(s, c)) == if PassOverrun(s, c) then Failed else Answer(r))
  {
    hide LegalMoves, Place, Pass, GoodResponse;
    ValidatorsAgree(s);
    if GateRefusal(s, c).None? {
      if c.kind == PlaceType {
        PlaceKeepsContract(s, c);
        PlaceRefusalKeepsState(s, c);
      } else {
        PassKeepsContract(s, c);
        PassRefusalKeepsState(s, c);
      }
    } else {
      RefusalKeepsContract(GateRefusal(s, c).value, s);
    }
  }

  lemma RefusalKeepsContract(code: ErrorCode, s: State)
    requires StateValid(s) && !code.OtherCode?
    ensures GoodResponse(Rejected(code, Some(s)))
  {
  }

  lemma PlaceRefusalKeepsState(s: State, c: Command)
    requires |s.board| == BOARD_CELLS && c.row.Some? && c.col.Some?
    ensures !Place(s, c).ok ==> Place(s, c).state == Some(s)
  {
    hide LegalMoves, PlacedBoard, Rays, MoveHits, ChangesOf;
  }

  lemma PassRefusalKeepsState(s: State, c: Command)
    requires |s.board| == BOARD_CELLS
    ensures !Pass(s, c).ok ==> Pass(s, c).state == Some(s)
  {
    hide LegalMoves;
  }

  /** With the strengthened bound on passes the contract is closed, and stays so. */
  lemma SoundStatesKeepContract(s: State, c: Command)
    requires Sound(s) && CommandError(c).None?
    ensures RunEngine(ApplyCommandRequest(s, c)) == Answer(Apply(s, c))
    ensures Sound(Step(s, c))
  {
    hide Apply, Step, RunEngine, Evaluate;
    ValidatorsAgree(s);
    ApplyKeepsContract(s, c);
    StepUsesUp(s, c);
  }

  /** The bound is needed: on an empty board with two passes counted, a pass is accepted and
      the answer breaks the contract, so the runner fails. */
  lemma OverrunExample()
    ensures exists s, c :: StateTyped(s) && StateError(s).None? && CommandError(c).None?
              && Apply(s, c).ok && Apply(s, c).state.value.consecutivePasses == 3
              && RunEngine(ApplyCommandRequest(s, c)) == Failed
  {
    hide LegalMoves, Evaluate, RunEngine, GoodResponse;
    var b: Board := seq(64, i => None);
    var s := State(VERSION, "g", b, 0, Dark, 0, 0, 2, Playing, None, []);
    var c := Command("c", PassType, Dark, 0, None, None);
    LegalMovesIs(b);
    if LegalMoves(b) != [] {
      var p := LegalMoves(b)[0];
      assert p in LegalMoves(b);
      LegalIff(b, p.row, p.col);
    }
    ApplyKeepsContract(s, c);
  }

  /** A new game is answered, in contract, with the state that NewGame describes. */
  lemma NewGameKeepsContract(gameId: string, seed: int)
    requires IsUint32(seed)
    ensures RunEngine(NewGameRequest(gameId, seed))
         == if gameId == "" then Answer(Rejected(InvalidRequest, None))
            else Answer(Accepted(NewGame(gameId, seed), None))
  {
    hide NewGame, InGame;
    if gameId != "" {
      NewGameInGame(gameId, seed);
      InGameIsValid(NewGame(gameId, seed), gameId, seed);
      ValidatorsAgree(NewGame(gameId, seed));
    }
  }

  /** The whole contract: every request within the server's ranges that the validator accepts is
      answered by the engine, in contract, unless it is a pass that overruns; and the engine refuses
      it, if at all, for a reason of the game. */
  lemma RequestKeepsContract(r: Request)
    requires RequestTyped(r) && RequestError(r).None?
    ensures var e := Evaluate(Some(r));
            var overruns := r.action.ApplyCommandAction? && PassOverrun(r.state.value, r.command.value);
            && (GoodResponse(e) <==> !overruns)
            && RunEngine(r) == (if overruns then Failed else Answer(e))
            && (!e.ok ==> e.error.Some? && IsGameReason(e.error.value) && e.state == r.state)
            && (r.action.NewGameAction? ==> e == Accepted(NewGame(r.gameId, r.seed.value), None))
  {
    hide NewGame, Apply, PassOverrun, GoodResponse;
    if r.action.NewGameAction? {
      assert r == NewGameRequest(r.gameId, r.seed.value);
      NewGameKeepsContract(r.gameId, r.seed.value);
    } else {
      assert r == ApplyCommandRequest(r.state.value, r.command.value);
      ApplyKeepsContract(r.state.value, r.command.value);
    }
  }
}
