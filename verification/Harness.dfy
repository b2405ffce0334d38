/** Moves and scripts (server/internal/replay/record.go) and the replay harness that runs a
    record (rules/replay/harness.nako3): seven words that accumulate, and one loop that replays. */
module Harness {
  import opened Options
  import opened Protocol
  import opened Rules
  import opened Games
  import opened Text
  import opened Grammar

  // ----- moves ------------------------------------------------------------------------

  /** One move of a record: a command without its id and its turn. */
  datatype Move = Move(player: Player, kind: CommandType, row: Option<int>, col: Option<int>)

  function MoveError(m: Move): Option<ErrorCode> {
    if !m.player.Valid() then Some(InvalidCommand)
    else
      match m.kind
      case PlaceType =>
        if m.row.None? || m.col.None? then Some(InvalidCommand)
        else if !InBounds(m.row.value, m.col.value) then Some(InvalidCoordinate)
        else None
      case PassType => if m.row.Some? || m.col.Some? then Some(InvalidCommand) else None
      case OtherType(_) => Some(InvalidCommand)
  }

  function MoveCommand(m: Move, turnNumber: int): Command {
    if m.kind == PlaceType && m.row.Some? && m.col.Some?
    then Command("replay-" + SignedDecimal(turnNumber + 1), m.kind, m.player, turnNumber, m.row, m.col)
    else Command("replay-" + SignedDecimal(turnNumber + 1), m.kind, m.player, turnNumber, None, None)
  }

  function MoveFromCommand(c: Command): Move {
    if c.kind == PlaceType && c.row.Some? && c.col.Some? then Move(c.player, c.kind, c.row, c.col)
    else Move(c.player, c.kind, None, None)
  }

  /** The harness's own placements always carry both coordinates. */
  predicate Shaped(m: Move) {
    if m.kind == PlaceType then m.row.Some? && m.col.Some? else m.row.None? && m.col.None?
  }

  /** A move survives being made a command and read back, at any turn. */
  lemma MoveRoundTrip(m: Move, turnNumber: int)
    requires MoveError(m) == None || Shaped(m)
    ensures MoveFromCommand(MoveCommand(m, turnNumber)) == m
    ensures MoveCommand(m, turnNumber).expectedTurn == turnNumber
  {
  }

  /** The commands made for different turns have different ids, the first of them replay-1. */
  lemma ReplayIds(m: Move, turnNumber: nat, other: Move, otherTurn: nat)
    ensures MoveCommand(m, 0).commandId == "replay-1"
    ensures MoveCommand(m, turnNumber).commandId == MoveCommand(other, otherTurn).commandId
       <==> turnNumber == otherTurn
  {
    hide Decimal, Digit;
    SamePrefix("replay-", Decimal(turnNumber + 1), Decimal(otherTurn + 1));
    if Decimal(turnNumber + 1) == Decimal(otherTurn + 1) {
      DecimalInjective(turnNumber + 1, otherTurn + 1);
    }
    FirstReplayId();
  }

  lemma FirstReplayId()
    ensures "replay-" + Decimal(1) == "replay-1"
  {
  }

  lemma SamePrefix(prefix: string, a: string, b: string)
    ensures prefix + a == prefix + b <==> a == b
  {
    assert (prefix + a)[|prefix|..] == a && (prefix + b)[|prefix|..] == b;
  }

  // ----- scripts ----------------------------------------------------------------------

  datatype ScriptFrame = ScriptFrame(turnNumber: int, moveNumber: nat, state: State, event: Option<Event>)

  datatype ScriptFailure = ScriptFailure(moveNumber: nat, code: ErrorCode)

  datatype Script = Script(
    version: string, rulesVersion: string, gameId: string, seed: nat, winner: Option<Player>,
    moves: seq<Move>, versionCount: nat, headerCount: nat, footerCount: nat,
    failure: Option<ScriptFailure>, frames: seq<ScriptFrame>, startedAt: string, endedAt: string)

  // ----- the words --------------------------------------------------------------------

  /** The harness's global variables. */
  datatype Globals = Globals(
    rulesVersion: string, gameId: string, seed: nat, winner: Option<Player>, moves: seq<Move>,
    versionCount: nat, startCount: nat, endCount: nat)

  const FRESH := Globals("", "", 0, None, [], 0, 0, 0)

  function PlayerOfWord(word: string): Player {
    if word == DARK_WORD then Dark else Light
  }

  /** What one line of a record does to the globals. */
  function Word(g: Globals, line: Line): Globals {
    match line
    case VersionLine(v) => g.(rulesVersion := v, versionCount := g.versionCount + 1)
    case StartLine(id, seed) => g.(gameId := id, seed := seed, startCount := g.startCount + 1)
    case PlaceLine(row, col, word, _) =>
      g.(moves := g.moves + [Move(PlayerOfWord(word), PlaceType, Some(row), Some(col))])
    case PassLine(word) => g.(moves := g.moves + [Move(PlayerOfWord(word), PassType, None, None)])
    case EndLine(word) => g.(winner := Some(PlayerOfWord(word)), endCount := g.endCount + 1)
    case _ => g
  }

  function Words(g: Globals, lines: seq<Line>): Globals {
    if |lines| == 0 then g else Word(Words(g, lines[..|lines| - 1]), lines[|lines| - 1])
  }

  lemma {:induction false} WordsKeepShape(g: Globals, lines: seq<Line>)
    requires forall m :: m in g.moves ==> Shaped(m)
    ensures forall m :: m in Words(g, lines).moves ==> Shaped(m)
  {
    if |lines| > 0 {
      WordsKeepShape(g, lines[..|lines| - 1]);
    }
  }

  // ----- the replay loop --------------------------------------------------------------

  datatype Progress = Progress(state: State, frames: seq<ScriptFrame>, failure: Option<ScriptFailure>)

  /** The harness calls the placement or the pass directly, without the request gate. */
  function ApplyMove(s: State, m: Move): Response
    requires |s.board| == BOARD_CELLS && Shaped(m)
  {
    var c := MoveCommand(m, s.turnNumber);
    if m.kind == PlaceType then Place(s, c) else Pass(s, c)
  }

  lemma ShapedCells(m: Move, s: State)
    requires Shaped(m)
    ensures m.kind == PlaceType ==>
      MoveCommand(m, s.turnNumber).row.Some? && MoveCommand(m, s.turnNumber).col.Some?
  {
  }

  lemma ApplyMoveKeepsShape(s: State, m: Move)
    requires |s.board| == BOARD_CELLS && Shaped(m)
    ensures var r := ApplyMove(s, m);
            r.state.Some? && |r.state.value.board| == BOARD_CELLS
    ensures !ApplyMove(s, m).ok ==> ApplyMove(s, m).error.Some?
  {
    hide LegalMoves, PlacedBoard, Rays, WinnerOf, ChangesOf, MoveHits;
  }

  /** The state of the loop after n moves; a refusal ends the replay. */
  function ReplayUpTo(gameId: string, seed: int, moves: seq<Move>, n: nat): (p: Progress)
    requires n <= |moves| && forall m :: m in moves ==> Shaped(m)
    ensures |p.state.board| == BOARD_CELLS
  {
    if n == 0 then
      var s := NewGame(gameId, seed);
      Progress(s, [ScriptFrame(0, 0, s, None)], None)
    else
      var p := ReplayUpTo(gameId, seed, moves, n - 1);
      if p.failure.Some? then p
      else
        var r := ApplyMove(p.state, moves[n - 1]);
        ApplyMoveKeepsShape(p.state, moves[n - 1]);
        if !r.ok then p.(failure := Some(ScriptFailure(n, r.error.value)))
        else
          var s := r.state.value;
          Progress(s, p.frames + [ScriptFrame(s.turnNumber, n, s, r.event)], None)
  }

  function ReplayMoves(gameId: string, seed: int, moves: seq<Move>): Progress
    requires forall m :: m in moves ==> Shaped(m)
  {
    ReplayUpTo(gameId, seed, moves, |moves|)
  }

  /** Once the replay has failed it stays as it was. */
  lemma {:induction false} FailureStays(gameId: string, seed: int, moves: seq<Move>, n: nat, later: nat)
    requires n <= later <= |moves| && forall m :: m in moves ==> Shaped(m)
    requires ReplayUpTo(gameId, seed, moves, n).failure.Some?
    ensures ReplayUpTo(gameId, seed, moves, later) == ReplayUpTo(gameId, seed, moves, n)
    decreases later - n
  {
    hide NewGame, ApplyMove, Shaped;
    if n < later {
      FailureStays(gameId, seed, moves, n, later - 1);
    }
  }

  function ScriptOf(g: Globals): Script
    requires forall m :: m in g.moves ==> Shaped(m)
  {
    var p := ReplayMoves(g.gameId, g.seed, g.moves);
    Script("1", g.rulesVersion, g.gameId, g.seed, g.winner, g.moves, g.versionCount, g.startCount,
           g.endCount, p.failure, p.frames, "", "")
  }

  /** The harness as it runs: its globals, its words, and the closing output. */
  class Interpreter {
    var rulesVersion: string
    var gameId: string
    var seed: nat
    var winner: Option<Player>
    var moves: seq<Move>
    var versionCount: nat
    var startCount: nat
    var endCount: nat

    function View(): Globals
      reads this
    {
      Globals(rulesVersion, gameId, seed, winner, moves, versionCount, startCount, endCount)
    }

    constructor ()
      ensures View() == FRESH
    {
      rulesVersion, gameId, seed, winner, moves := "", "", 0, None, [];
      versionCount, startCount, endCount := 0, 0, 0;
    }

    method AddMove(word: string, kind: CommandType) returns (position: nat)
      modifies this`moves
      ensures moves == old(moves) + [Move(PlayerOfWord(word), kind, None, None)] && position == |moves|
    {
      moves := moves + [Move(PlayerOfWord(word), kind, None, None)];
      return |moves|;
    }

    method AddPlacement(word: string, row: int, col: int)
      modifies this`moves
      ensures moves == old(moves) + [Move(PlayerOfWord(word), PlaceType, Some(row), Some(col))]
    {
      var position := AddMove(word, PlaceType);
      var move := moves[position - 1];
      move := move.(row := Some(row));
      move := move.(col := Some(col));
      moves := moves[position - 1 := move];
    }

    /** Runs one line; a comment or a blank line does nothing. */
    method Execute(line: Line)
      modifies this
      ensures View() == Word(old(View()), line)
    {
      match line {
        case VersionLine(v) =>
          rulesVersion := v;
          versionCount := versionCount + 1;
        case StartLine(id, s) =>
          gameId := id;
          seed := s;
          startCount := startCount + 1;
        case PlaceLine(row, col, word, _) =>
          AddPlacement(word, row, col);
        case PassLine(word) =>
          var _ := AddMove(word, PassType);
        case EndLine(word) =>
          winner := Some(PlayerOfWord(word));
          endCount := endCount + 1;
        case _ =>
      }
    }

    method ExecuteAll(lines: seq<Line>)
      modifies this
      ensures View() == Words(old(View()), lines)
    {
      for i := 0 to |lines|
        invariant View() == Words(old(View()), lines[..i])
      {
        Execute(lines[i]);
        assert lines[..i + 1][..i] == lines[..i];
      }
      assert lines[..|lines|] == lines;
    }

    /** The closing call: replay the moves from a new game and report every frame. */
    method Output() returns (script: Script)
      requires forall m :: m in moves ==> Shaped(m)
      ensures script == ScriptOf(View())
    {
      hide Place, Pass, NewGame, Shaped, MoveCommand;
      var state := CreateGame(gameId, seed);
      var frames := [ScriptFrame(0, 0, state, None)];
      var failure: Option<ScriptFailure> := None;
      var i := 0;
      while i < |moves|
        invariant 0 <= i <= |moves|
        invariant |state.board| == BOARD_CELLS && failure == None
        invariant ReplayUpTo(gameId, seed, moves, i) == Progress(state, frames, None)
      {
        var move := moves[i];
        assert Shaped(move);
        ShapedCells(move, state);
        var command := MoveCommand(move, state.turnNumber);
        var response;
        if move.kind == PlaceType {
          response := ApplyPlace(state, command);
        } else {
          response := ApplyPass(state, command);
        }
        ApplyMoveKeepsShape(state, move);
        assert response == ApplyMove(state, move);
        if !response.ok {
          failure := Some(ScriptFailure(i + 1, response.error.value));
          FailureStays(gameId, seed, moves, i + 1, |moves|);
          break;
        }
        state := response.state.value;
        frames := frames + [ScriptFrame(state.turnNumber, i + 1, state, response.event)];
        i := i + 1;
      }
      return Script("1", rulesVersion, gameId, seed, winner, moves, versionCount, startCount,
                    endCount, failure, frames, "", "");
    }
  }

  // ----- the live game and its replay --------------------------------------------------

  function MovesOf(cs: seq<Command>): seq<Move> {
    if |cs| == 0 then [] else MovesOf(cs[..|cs| - 1]) + [MoveFromCommand(cs[|cs| - 1])]
  }

  lemma {:induction false} MovesOfShape(cs: seq<Command>)
    requires forall c :: c in cs && c.kind == PlaceType ==> c.row.Some? && c.col.Some?
    ensures |MovesOf(cs)| == |cs|
    ensures forall i :: 0 <= i < |cs| ==> MovesOf(cs)[i] == MoveFromCommand(cs[i])
    ensures forall m :: m in MovesOf(cs) ==> Shaped(m)
  {
    if |cs| > 0 {
      var before, c := cs[..|cs| - 1], cs[|cs| - 1];
      assert forall d :: d in before ==> d in cs;
      MovesOfShape(before);
      assert c in cs;
    }
  }

  /** Every command is accepted where it stands. */
  predicate AllAccepted(s: State, cs: seq<Command>) {
    AcceptedOf(s, cs) == cs
  }

  lemma AllAcceptedPrefix(s: State, cs: seq<Command>)
    requires AllAccepted(s, cs) && |cs| > 0
    ensures AllAccepted(s, cs[..|cs| - 1]) && Accepts(Run(s, cs[..|cs| - 1]), cs[|cs| - 1])
  {
    hide Accepts, Run;
    AcceptedNoLonger(s, cs[..|cs| - 1]);
    var before, c := cs[..|cs| - 1], cs[|cs| - 1];
    assert |AcceptedOf(s, cs)| == |before| + 1;
    assert AcceptedOf(s, cs) == AcceptedOf(s, before) + [c];
    assert AcceptedOf(s, before) == (AcceptedOf(s, before) + [c])[..|before|];
  }

  lemma {:induction false} AcceptedNoLonger(s: State, cs: seq<Command>)
    ensures |AcceptedOf(s, cs)| <= |cs|
  {
    hide Accepts, Run;
    if |cs| > 0 {
      AcceptedNoLonger(s, cs[..|cs| - 1]);
    }
  }

  lemma {:induction false} AcceptedHaveCells(s: State, cs: seq<Command>)
    requires AllAccepted(s, cs)
    ensures forall c :: c in cs && c.kind == PlaceType ==> c.row.Some? && c.col.Some?
  {
    hide Run;
    if |cs| > 0 {
      var before, c := cs[..|cs| - 1], cs[|cs| - 1];
      AllAcceptedPrefix(s, cs);
      AcceptedHaveCells(s, before);
      GateNeedsCells(Run(s, before), c);
    }
  }

  lemma GateNeedsCells(s: State, c: Command)
    requires Accepts(s, c)
    ensures c.kind == PlaceType ==> c.row.Some? && c.col.Some?
    ensures |s.board| == BOARD_CELLS
    ensures Apply(s, c) == if c.kind == PlaceType then Place(s, c) else Pass(s, c)
  {
    hide Place, Pass;
  }

  /** The same move gives the same state whatever its command id, and the events differ only in
      that id. */
  lemma SameMoveSameState(s: State, c: Command)
    requires Accepts(s, c)
    ensures |s.board| == BOARD_CELLS && Shaped(MoveFromCommand(c))
    ensures var live, replayed := Apply(s, c), ApplyMove(s, MoveFromCommand(c));
            && replayed.ok && replayed.state == live.state
            && live.event.Some? && replayed.event.Some?
            && replayed.event.value == live.event.value.(commandId := replayed.event.value.commandId)
  {
    hide LegalMoves, PlacedBoard, Rays, WinnerOf, ChangesOf, MoveHits, StateValid, GateRefusal;
    GateNeedsCells(s, c);
  }

  /** The event that the live engine sent with the i-th accepted command. */
  function LiveEvent(s: State, cs: seq<Command>, i: nat): Option<Event>
    requires i < |cs|
  {
    Apply(Run(s, cs[..i]), cs[i]).event
  }

  /** A replay of the accepted commands of a game never fails and passes through the live states
      one by one: frame i is the state after i commands, with the event of the i-th command. */
  ghost predicate ReplaysLive(gameId: string, seed: int, cs: seq<Command>, p: Progress) {
    var s := NewGame(gameId, seed);
    && p.failure == None && p.state == Run(s, cs) && |p.frames| == |cs| + 1
    && p.frames[0] == ScriptFrame(0, 0, s, None)
    && forall i :: 1 <= i <= |cs| ==> FrameIsLive(s, cs, p.frames[i], i)
  }

  ghost predicate FrameIsLive(s: State, cs: seq<Command>, frame: ScriptFrame, i: nat)
    requires 1 <= i <= |cs|
  {
    && frame.state == Run(s, cs[..i]) && frame.turnNumber == i && frame.moveNumber == i
    && frame.event.Some? && LiveEvent(s, cs, i - 1).Some?
    && frame.event.value
       == LiveEvent(s, cs, i - 1).value.(commandId := frame.event.value.commandId)
  }

  lemma {:induction false} ReplayPrefix(gameId: string, seed: int, moves: seq<Move>, more: seq<Move>, n: nat)
    requires n <= |moves| <= |more| && moves == more[..|moves|]
    requires forall m :: m in more ==> Shaped(m)
    ensures forall m :: m in moves ==> Shaped(m)
    ensures ReplayUpTo(gameId, seed, moves, n) == ReplayUpTo(gameId, seed, more, n)
  {
    hide NewGame, ApplyMove;
    assert forall m :: m in moves ==> m in more;
    if n > 0 {
      ReplayPrefix(gameId, seed, moves, more, n - 1);
      assert moves[n - 1] == more[n - 1];
    }
  }

  lemma ReplayOneMore(gameId: string, seed: int, moves: seq<Move>)
    requires |moves| > 0 && forall m :: m in moves ==> Shaped(m)
    ensures var before := moves[..|moves| - 1];
            && (forall m :: m in before ==> Shaped(m))
            && var p := ReplayMoves(gameId, seed, before);
               p.failure == None && ApplyMove(p.state, moves[|moves| - 1]).ok ==>
                 var r := ApplyMove(p.state, moves[|moves| - 1]);
                 r.state.Some? && ReplayMoves(gameId, seed, moves)
                   == Progress(r.state.value,
                               p.frames + [ScriptFrame(r.state.value.turnNumber, |moves|, r.state.value, r.event)],
                               None)
  {
    hide NewGame, ApplyMove;
    var before := moves[..|moves| - 1];
    ReplayPrefix(gameId, seed, before, moves, |before|);
    ApplyMoveKeepsShape(ReplayMoves(gameId, seed, before).state, moves[|moves| - 1]);
  }

  /** Live play refines replay, for every accepted sequence from a new game. */
  lemma {:induction false} ReplayRefinesLive(gameId: string, seed: int, cs: seq<Command>)
    requires AllAccepted(NewGame(gameId, seed), cs)
    ensures |MovesOf(cs)| == |cs| && forall m :: m in MovesOf(cs) ==> Shaped(m)
    ensures ReplaysLive(gameId, seed, cs, ReplayMoves(gameId, seed, MovesOf(cs)))
  {
    hide Accepts, ApplyMove, NewGame, Apply;
    var s := NewGame(gameId, seed);
    AcceptedHaveCells(s, cs);
    MovesOfShape(cs);
    if |cs| > 0 {
      var before, c := cs[..|cs| - 1], cs[|cs| - 1];
      AllAcceptedPrefix(s, cs);
      ReplayRefinesLive(gameId, seed, before);
      var moves := MovesOf(cs);
      assert moves[..|moves| - 1] == MovesOf(before);
      SameMoveSameState(Run(s, before), c);
      ReplayOneMore(gameId, seed, moves);
      StepIsApply(Run(s, before), c);
      TurnsGrow(s, cs);
      NewGameTurn(gameId, seed);
      var p, q := ReplayMoves(gameId, seed, MovesOf(before)), ReplayMoves(gameId, seed, moves);
      forall i | 1 <= i <= |cs|
        ensures FrameIsLive(s, cs, q.frames[i], i)
      {
        if i < |cs| {
          FrameStaysLive(s, cs, p.frames[i], i);
        } else {
          assert cs[..i] == cs;
        }
      }
    }
  }

  lemma FrameStaysLive(s: State, cs: seq<Command>, frame: ScriptFrame, i: nat)
    requires 1 <= i < |cs| && FrameIsLive(s, cs[..|cs| - 1], frame, i)
    ensures FrameIsLive(s, cs, frame, i)
  {
    hide Run, Apply;
    var before := cs[..|cs| - 1];
    assert before[..i] == cs[..i] && before[..i - 1] == cs[..i - 1];
  }

  lemma StepIsApply(s: State, c: Command)
    requires Accepts(s, c)
    ensures Apply(s, c).state == Some(Step(s, c))
  {
    hide LegalMoves, PlacedBoard, Rays, WinnerOf, ChangesOf, MoveHits, StateValid, GateRefusal;
  }

  lemma NewGameTurn(gameId: string, seed: int)
    ensures NewGame(gameId, seed).turnNumber == 0
  {
  }
}
