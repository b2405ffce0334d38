/** The server's record of a match (submitCommand and saveFinished in server/main.go): every
    accepted command is kept with its event, and the last one saves the match. */
module Server {
  import opened Options
  import opened Protocol
  import opened Rules
  import opened Games
  import opened Contract
  import opened Text
  import opened Grammar
  import opened Harness
  import opened Record
  import opened RoundTrip
  import opened Rooms
  import opened Agreement

  datatype AcceptedMove = AcceptedMove(command: Command, event: Event)

  datatype SaveResult = Saved(text: string) | SaveFailed

  /** save is set when the match has finished. */
  datatype RecordView = RecordView(seed: nat, startedAt: string, moves: seq<AcceptedMove>, finished: bool,
                                   save: Option<SaveResult>)

  // ----- saving -----------------------------------------------------------------------

  /** strings.Join(lines, "\n"). */
  function Join(lines: seq<string>): string {
    if |lines| == 0 then ""
    else if |lines| == 1 then lines[0]
    else lines[0] + "\n" + Join(lines[1..])
  }

  lemma {:induction false} JoinIsLines(lines: seq<string>)
    ensures Join(lines + [""]) == Lines(lines)
  {
    if |lines| > 0 {
      JoinIsLines(lines[1..]);
      assert (lines + [""])[1..] == lines[1..] + [""];
    }
  }

  predicate MoveTyped(m: AcceptedMove) {
    EventTyped(m.event)
  }

  /** The line of one accepted move. */
  function AcceptedText(m: AcceptedMove): Option<string>
    requires MoveTyped(m)
  {
    var c := m.command;
    match c.kind
    case PlaceType =>
      if c.row.None? || c.col.None? || m.event.placedColor.None? then None
      else if !InBounds(c.row.value, c.col.value) || !c.player.Valid() then None
      else Some(PlaceText(c.player, c.row.value, c.col.value, m.event.placedColor.value, |m.event.changes|))
    case PassType => if c.player.Valid() then Some(PassText(c.player)) else None
    case OtherType(_) => None
  }

  function AcceptedTexts(moves: seq<AcceptedMove>): Option<seq<string>>
    requires forall m :: m in moves ==> MoveTyped(m)
  {
    if |moves| == 0 then Some([])
    else
      match AcceptedTexts(moves[..|moves| - 1])
      case None => None
      case Some(texts) =>
        match AcceptedText(moves[|moves| - 1])
        case None => None
        case Some(text) => Some(texts + [text])
  }

  /** The source that is replayed before saving; None where a line cannot be written. */
  function SourceOf(roomId: string, record: RecordView, final: State, now: string): Option<string>
    requires StateTyped(final) && forall m :: m in record.moves ==> MoveTyped(m)
  {
    if final.winner.None? || !ValidGameId(roomId) then None
    else
      match AcceptedTexts(record.moves)
      case None => None
      case Some(texts) =>
        if !final.winner.value.Valid() then None
        else
          Some(Join(OpeningTexts(record.startedAt, now, roomId, record.seed) + texts
                    + ClosingTexts(final.winner.value, |record.moves|, final.board) + [""]))
  }

  /** Replay the source strictly, compare the final states, and write the result again. */
  function SaveFinished(roomId: string, record: RecordView, final: State, now: string): SaveResult
    requires StateTyped(final) && forall m :: m in record.moves ==> MoveTyped(m)
  {
    match SourceOf(roomId, record, final, now)
    case None => SaveFailed
    case Some(source) =>
      match Replay(source)
      case Err(_) => SaveFailed
      case Ok(result) =>
        if FinalState(result) != final then SaveFailed
        else
          ReencodedRecordReplays(source);
          match Encode(result)
          case None => SaveFailed
          case Some(text) => Saved(text)
  }

  lemma {:induction false} NoTextStays(moves: seq<AcceptedMove>, n: nat)
    requires n <= |moves| && forall m :: m in moves ==> MoveTyped(m)
    requires AcceptedTexts(moves[..n]).None?
    ensures AcceptedTexts(moves).None?
    decreases |moves|
  {
    hide AcceptedText, MoveTyped;
    if n == |moves| {
      assert moves[..n] == moves;
    } else {
      assert moves[..|moves| - 1][..n] == moves[..n];
      NoTextStays(moves[..|moves| - 1], n);
    }
  }

  /** saveFinished: the lines, the strict replay, the comparison, and the store. */
  method SaveMatch(roomId: string, record: RecordView, final: State, now: string) returns (r: SaveResult)
    requires StateTyped(final) && forall m :: m in record.moves ==> MoveTyped(m)
    ensures r == SaveFinished(roomId, record, final, now)
  {
    hide AcceptedText, Encode, MoveTyped, ReplayWith, FrameTyped, StateTyped, OpeningTexts, VersionText, StartText;
    if final.winner.None? {
      return SaveFailed;
    }
    if !ValidGameId(roomId) {
      return SaveFailed;
    }
    var lines := HeaderTexts(record.startedAt, now) + [""];
    lines := lines + [VersionText()];
    lines := lines + [StartText(roomId, record.seed), ""];
    OpeningIs(record.startedAt, now, roomId, record.seed);
    ghost var opening := lines;
    ghost var texts: seq<string> := [];
    for i := 0 to |record.moves|
      invariant AcceptedTexts(record.moves[..i]) == Some(texts)
      invariant lines == opening + texts
    {
      assert record.moves[..i + 1][..i] == record.moves[..i];
      var line := AcceptedText(record.moves[i]);
      if line.None? {
        NoTextStays(record.moves, i + 1);
        return SaveFailed;
      }
      lines := lines + [line.value];
      texts := texts + [line.value];
    }
    assert record.moves[..|record.moves|] == record.moves;
    TypedColored(final);
    var sum, count := BoardTotals(final.board);
    SumNotNegative(final.board);
    if !final.winner.value.Valid() {
      return SaveFailed;
    }
    lines := lines + ["", EndText(final.winner.value, |record.moves|, sum, count), ""];
    assert lines == opening + texts + ClosingTexts(final.winner.value, |record.moves|, final.board) + [""];
    var source := Join(lines);
    var replayed := ReplaySource(source, ReplayOptions(-1, true, true));
    if replayed.Err? {
      return SaveFailed;
    }
    var result := replayed.value;
    if FinalState(result) != final {
      return SaveFailed;
    }
    ReencodedRecordReplays(source);
    var text := EncodeResult(result);
    return if text.None? then SaveFailed else Saved(text.value);
  }

  lemma OpeningIs(startedAt: string, now: string, roomId: string, seed: nat)
    ensures HeaderTexts(startedAt, now) + [""] + [VersionText()] + [StartText(roomId, seed), ""]
         == OpeningTexts(startedAt, now, roomId, seed)
  {
  }

  lemma TypedColored(s: State)
    requires StateTyped(s)
    ensures Colored(s.board)
  {
  }

  // ----- submitting -------------------------------------------------------------------

  datatype Recorder = Recorder(record: RecordView, room: RoomView)

  datatype Submission = Submission(after: Recorder, answer: RunnerAnswer)

  /** submitCommand: only an accepted command is recorded, and the one that finishes the match
      saves it, once. */
  function SubmitCommand(r: Recorder, playerId: string, c: Command, runnerFails: bool, now: string): Submission
    requires RoomOk(r.room) && forall m :: m in r.record.moves ==> MoveTyped(m)
  {
    var s := SubmitRoom(r.room, playerId, c, runnerFails);
    if s.answer.Failed? || !s.answer.response.ok then Submission(Recorder(r.record, s.view), s.answer)
    else
      AcceptedIsComplete(r.room, playerId, c, runnerFails);
      var response := s.answer.response;
      if response.event.None? || response.state.None? then Submission(Recorder(r.record, s.view), Failed)
      else
        var kept := r.record.(moves := r.record.moves + [AcceptedMove(c, response.event.value)]);
        if response.state.value.phase == Finished && !kept.finished then
          Submission(Recorder(kept.(finished := true,
                                    save := Some(SaveFinished(r.room.id, kept.(finished := true),
                                                              response.state.value, now))), s.view),
                     s.answer)
        else Submission(Recorder(kept, s.view), s.answer)
  }

  /** An accepted answer has an event and a state, both within the server's ranges. */
  lemma AcceptedIsComplete(v: RoomView, playerId: string, c: Command, runnerFails: bool)
    requires RoomOk(v)
    ensures var a := SubmitRoom(v, playerId, c, runnerFails).answer;
            a.Answer? && a.response.ok ==>
              && a.response.event.Some? && a.response.state.Some?
              && EventTyped(a.response.event.value) && StateTyped(a.response.state.value)
  {
    hide InGame, RunEngine, Apply, Step, CommandError, Broadcast, ChannelsOk, StateTyped, EventTyped;
    SubmitIsStepOrNothing(v, playerId, c, runnerFails);
    if v.state.Some? && Accepts(v.state.value, c) {
      AcceptedAnswerTyped(v.state.value, v.id, v.seed, c);
    }
  }

  lemma AcceptedAnswerTyped(s: State, id: string, seed: int, c: Command)
    requires InGame(s, id, seed) && id != "" && Accepts(s, c)
    ensures var r := Apply(s, c);
            r.event.Some? && r.state.Some? && EventTyped(r.event.value) && StateTyped(r.state.value)
  {
    hide LegalMoves, PlacedBoard, Rays, WinnerOf, ChangesOf, MoveHits, InGame, ColorOf, NextRandom;
    InGameIsValid(s, id, seed);
    AcceptedMoveIsGood(s, c);
    SameMoveSameState(s, c);
    ApplyFits(s, MoveFromCommand(c));
  }

  class RoomRecord {
    const seed: nat
    const startedAt: string
    var moves: seq<AcceptedMove>
    var finished: bool
    var save: Option<SaveResult>

    function View(): RecordView
      reads this
    {
      RecordView(seed, startedAt, moves, finished, save)
    }

    constructor (seed: nat, startedAt: string)
      ensures View() == RecordView(seed, startedAt, [], false, None)
    {
      this.seed, this.startedAt := seed, startedAt;
      moves, finished, save := [], false, None;
    }

    method Submit(room: Room, playerId: string, c: Command, runnerFails: bool, now: string)
      returns (answer: RunnerAnswer)
      requires RoomOk(room.View()) && forall m :: m in moves ==> MoveTyped(m)
      modifies this, room
      ensures Submission(Recorder(View(), room.View()), answer)
           == SubmitCommand(old(Recorder(View(), room.View())), playerId, c, runnerFails, now)
      ensures forall m :: m in moves ==> MoveTyped(m)
    {
      hide SubmitRoom, SaveFinished, RoomOk, StateTyped;
      AcceptedIsComplete(room.View(), playerId, c, runnerFails);
      answer := room.Submit(playerId, c, runnerFails);
      if answer.Failed? || !answer.response.ok {
        return;
      }
      var response := answer.response;
      if response.event.None? || response.state.None? {
        return Failed;
      }
      moves := moves + [AcceptedMove(c, response.event.value)];
      if response.state.value.phase == Finished && !finished {
        finished := true;
        var saved := SaveMatch(room.id, View(), response.state.value, now);
        save := Some(saved);
      }
    }
  }
}
