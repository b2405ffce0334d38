/** Every match that finishes is saved: the server's record and the room over a whole match. */
module Matches {
  import opened Options
  import opened Protocol
  import opened Rules
  import opened Moves
  import opened Games
  import opened Contract
  import opened Text
  import opened Grammar
  import opened Harness
  import opened Record
  import opened RoundTrip
  import opened Converse
  import opened Rooms
  import opened RoomRuns
  import opened Agreement
  import opened Server

  /** An operation on the room and the server's clock at that moment. Submissions go through the
      record, everything else goes to the room alone. */
  datatype TimedOp = TimedOp(op: RoomOp, now: string)

  function StepMatch(r: Recorder, t: TimedOp): Recorder
    requires RoomOk(r.room) && forall m :: m in r.record.moves ==> MoveTyped(m)
  {
    if t.op.SubmitOp? then SubmitCommand(r, t.op.playerId, t.op.command, t.op.runnerFails, t.now).after
    else r.(room := StepRoom(r.room, t.op))
  }

  lemma StepMatchKeeps(r: Recorder, t: TimedOp)
    requires RoomOk(r.room) && forall m :: m in r.record.moves ==> MoveTyped(m)
    ensures RoomOk(StepMatch(r, t).room) && forall m :: m in StepMatch(r, t).record.moves ==> MoveTyped(m)
    ensures StepMatch(r, t).room == StepRoom(r.room, t.op)
  {
    hide RoomOk, SubmitRoom, JoinRoom, LeaveRoom, CloseRoom, TakeFrom, SaveFinished, StateTyped, EventTyped;
    StepKeepsOk(r.room, t.op);
    if t.op.SubmitOp? {
      AcceptedIsComplete(r.room, t.op.playerId, t.op.command, t.op.runnerFails);
    }
  }

  function Match(id: string, seed: nat, startedAt: string, ts: seq<TimedOp>): (r: Recorder)
    ensures RoomOk(r.room) && forall m :: m in r.record.moves ==> MoveTyped(m)
  {
    if |ts| == 0 then
      FreshRoomOk(id, seed);
      Recorder(RecordView(seed, startedAt, [], false, None), FreshRoom(id, seed))
    else
      var before := Match(id, seed, startedAt, ts[..|ts| - 1]);
      StepMatchKeeps(before, ts[|ts| - 1]);
      StepMatch(before, ts[|ts| - 1])
  }

  function OpsOf(ts: seq<TimedOp>): seq<RoomOp> {
    if |ts| == 0 then [] else OpsOf(ts[..|ts| - 1]) + [ts[|ts| - 1].op]
  }

  lemma {:induction false} MatchRoomIsLife(id: string, seed: nat, startedAt: string, ts: seq<TimedOp>)
    ensures Match(id, seed, startedAt, ts).room == Life(id, seed, OpsOf(ts))
  {
    hide StepMatch, StepRoom, RoomOk, FreshRoom;
    if |ts| > 0 {
      var before := ts[..|ts| - 1];
      MatchRoomIsLife(id, seed, startedAt, before);
      StepMatchKeeps(Match(id, seed, startedAt, before), ts[|ts| - 1]);
      var ops := OpsOf(ts);
      assert ops[..|ops| - 1] == OpsOf(before);
    }
  }

  /** A time as the server stamps it: not empty and without any white space. */
  predicate Stamp(t: string) {
    t != "" && forall i :: 0 <= i < |t| ==> !IsSpace(t[i])
  }

  lemma StampKeeps(t: string)
    requires Stamp(t)
    ensures PatternFree(t) && TrimRight(t) == t
  {
    forall i | 0 <= i < |t|
      ensures NotPatternSpace(t[i])
    {
      assert !IsSpace(t[i]);
    }
  }

  // ----- the text that is saved -------------------------------------------------------

  /** The record's moves are the accepted commands, each with the event the engine gave it. */
  ghost predicate KeptMoves(moves: seq<AcceptedMove>, start: State, cs: seq<Command>) {
    && |moves| == |cs|
    && forall i :: 0 <= i < |cs| ==>
         moves[i].command == cs[i] && LiveEvent(start, cs, i) == Some(moves[i].event)
  }

  lemma MoveTextIsAcceptedText(m: AcceptedMove, f: ScriptFrame)
    requires MoveTyped(m) && MoveError(MoveFromCommand(m.command)).None? && FitsRecord(MoveFromCommand(m.command), f)
    requires f.event.value == m.event.(commandId := f.event.value.commandId)
    ensures AcceptedText(m) == Some(MoveText(MoveFromCommand(m.command), f.event))
  {
    hide PlaceText, PassText;
  }

  lemma {:induction false} TextsAreMoveTexts(moves: seq<AcceptedMove>, start: State, cs: seq<Command>,
                                             frames: seq<ScriptFrame>, all: seq<Move>, n: nat)
    requires n <= |cs| && KeptMoves(moves, start, cs) && (forall m :: m in moves ==> MoveTyped(m))
    requires all == MovesOf(cs) && |all| == |cs| && |frames| == |cs| + 1 && GoodMoves(all)
    requires forall i :: 1 <= i <= |cs| ==> FitsRecord(all[i - 1], frames[i])
    requires forall i :: 1 <= i <= |cs| ==> FrameIsLive(start, cs, frames[i], i)
    requires forall i :: 0 <= i < |cs| ==> all[i] == MoveFromCommand(cs[i])
    ensures AcceptedTexts(moves[..n]) == Some(MoveTexts(all, frames, n))
  {
    hide Run, MoveError, FitsRecord, MoveText, AcceptedText, MoveTyped, MoveFromCommand, LiveEvent;
    if n > 0 {
      TextsAreMoveTexts(moves, start, cs, frames, all, n - 1);
      assert moves[..n][..n - 1] == moves[..n - 1];
      assert FitsRecord(all[n - 1], frames[n]) && FrameIsLive(start, cs, frames[n], n);
      assert MoveError(all[n - 1]).None?;
      assert moves[n - 1] in moves;
      FitsHasEvent(all[n - 1], frames[n]);
      MoveTextIsAcceptedText(moves[n - 1], frames[n]);
    }
  }

  lemma FitsHasEvent(m: Move, f: ScriptFrame)
    requires FitsRecord(m, f)
    ensures f.event.Some? && EventTyped(f.event.value)
  {
  }

  /** Saving a finished game never fails: its source replays strictly to the same final state, and
      the text stored is the very source that was checked. */
  lemma FinishedGameSaves(id: string, record: RecordView, cs: seq<Command>, final: State, now: string)
    requires ValidGameId(id) && IsUint32(record.seed) && Stamp(record.startedAt) && Stamp(now)
    requires AllAccepted(NewGame(id, record.seed), cs) && final == Run(NewGame(id, record.seed), cs)
    requires final.phase == Finished && StateTyped(final)
    requires KeptMoves(record.moves, NewGame(id, record.seed), cs) && forall m :: m in record.moves ==> MoveTyped(m)
    ensures var r := SaveFinished(id, record, final, now);
            && r.Saved? && SourceOf(id, record, final, now) == Some(r.text)
            && SavedGame(r.text, id, record.seed, record.startedAt, now, cs)
  {
    hide ValidGameId, NewGame, Run, AllAccepted, Stamp, StateTyped, MoveTyped, Replay, Encode, Recorded, ReplaysLive,
         KeptMoves, RecordTexts, GoodMoves, ReplayUpTo, Shaped;
    LiveGameIsRecorded(id, record.seed, cs);
    var moves := MovesOf(cs);
    var frames := ReplayMoves(id, record.seed, moves).frames;
    assert cs[..|cs|] == cs;
    RecordedShape(id, record.seed, moves, frames);
    assert frames[|cs|].state == final;
    SourceIsTheRecord(id, record, cs, final, now);
    StampKeeps(record.startedAt);
    StampKeeps(now);
    ReplaysAndEncodes(id, record.seed, cs, record.startedAt, now);
  }

  /** A saved text: it replays strictly to the game of the accepted commands. */
  ghost predicate SavedGame(text: string, id: string, seed: nat, startedAt: string, endedAt: string, cs: seq<Command>) {
    && Replay(text).Ok?
    && var r := Replay(text).value;
       && r.script.gameId == id && r.script.seed == seed && r.script.moves == MovesOf(cs)
       && r.script.startedAt == startedAt && r.script.endedAt == endedAt
       && r.script.winner == FinalState(r).winner && FinalState(r).winner.Some?
       && TellsTotals(text, FinalState(r).winner.value, |cs|, FinalState(r).board)
       && |r.frames| == |cs| + 1
       && forall i :: 0 <= i <= |cs| ==> r.frames[i].state == Run(NewGame(id, seed), cs[..i])
  }

  /** The contract's record of a saved game, read from its text: the match as it was, field by field. */
  lemma SavedGameIsTheRecord(text: string, id: string, seed: nat, startedAt: string, endedAt: string,
                             cs: seq<Command>)
    requires SavedGame(text, id, seed, startedAt, endedAt, cs)
    ensures var final := Run(NewGame(id, seed), cs);
            RecordOf(Replay(text).value)
            == GameRecord(VERSION, RULES_VERSION, id, seed, startedAt, endedAt, final.winner,
                          CommandsFor(MovesOf(cs)), final)
    ensures MovesOf(CommandsFor(MovesOf(cs))) == MovesOf(cs)
  {
    hide NewGame, Run, Replay, MovesOf, CommandsFor, TellsTotals, ReplayUpTo, AllAccepted, InTurn;
    RecordPlaysAgain(text);
    assert cs[..|cs|] == cs;
  }

  lemma SourceIsTheRecord(id: string, record: RecordView, cs: seq<Command>, final: State, now: string)
    requires ValidGameId(id) && IsUint32(record.seed)
    requires AllAccepted(NewGame(id, record.seed), cs) && final == Run(NewGame(id, record.seed), cs)
    requires final.phase == Finished && StateTyped(final)
    requires KeptMoves(record.moves, NewGame(id, record.seed), cs) && forall m :: m in record.moves ==> MoveTyped(m)
    requires |MovesOf(cs)| == |cs| && (forall m :: m in MovesOf(cs) ==> Shaped(m))
    requires var frames := ReplayMoves(id, record.seed, MovesOf(cs)).frames;
             Recorded(id, record.seed, MovesOf(cs), frames) && frames[|cs|].state == final
    requires ReplaysLive(id, record.seed, cs, ReplayMoves(id, record.seed, MovesOf(cs)))
    ensures SourceOf(id, record, final, now)
         == Some(Lines(RecordTexts(id, record.seed, MovesOf(cs), ReplayMoves(id, record.seed, MovesOf(cs)).frames,
                                   record.startedAt, now)))
  {
    hide ValidGameId, NewGame, Run, AllAccepted, StateTyped, MoveTyped, ReplayUpTo, OpeningTexts, EndText, Lines, Join,
         FrameIsLive, FitsRecord, MoveTexts, MoveError, Shaped, AcceptedTexts;
    var moves := MovesOf(cs);
    var frames := ReplayMoves(id, record.seed, moves).frames;
    AcceptedHaveCells(NewGame(id, record.seed), cs);
    MovesOfShape(cs);
    TextsAreMoveTexts(record.moves, NewGame(id, record.seed), cs, frames, moves, |cs|);
    assert record.moves[..|cs|] == record.moves;
    JoinIsLines(RecordTexts(id, record.seed, moves, frames, record.startedAt, now));
  }

  lemma ReplaysAndEncodes(id: string, seed: nat, cs: seq<Command>, startedAt: string, now: string)
    requires ValidGameId(id) && IsUint32(seed) && AllAccepted(NewGame(id, seed), cs)
    requires PatternFree(startedAt) && PatternFree(now) && TrimRight(startedAt) == startedAt && TrimRight(now) == now
    requires |MovesOf(cs)| == |cs| && (forall m :: m in MovesOf(cs) ==> Shaped(m))
    requires var frames := ReplayMoves(id, seed, MovesOf(cs)).frames;
             && Recorded(id, seed, MovesOf(cs), frames) && frames[|cs|].state.phase == Finished
             && forall i :: 0 <= i <= |cs| ==> frames[i].state == Run(NewGame(id, seed), cs[..i])
    ensures var frames := ReplayMoves(id, seed, MovesOf(cs)).frames;
            var text := Lines(RecordTexts(id, seed, MovesOf(cs), frames, startedAt, now));
            && SavedGame(text, id, seed, startedAt, now, cs)
            && FinalState(Replay(text).value) == frames[|cs|].state
            && (forall f :: f in Replay(text).value.frames ==> FrameTyped(f))
            && Encode(Replay(text).value) == Some(text)
  {
    hide ValidGameId, NewGame, Run, AllAccepted, ReplayUpTo, Lines, RecordTexts, Decode, Encode, FrameTyped,
         Shaped, FramesUpTo, Recorded, PatternFree, TrimRight, ExpectedOutline, TellsTotals;
    var moves := MovesOf(cs);
    var frames := ReplayMoves(id, seed, moves).frames;
    var text := Lines(RecordTexts(id, seed, moves, frames, startedAt, now));
    RecordedShape(id, seed, moves, frames);
    WrittenRecordReplays(id, seed, moves, frames, startedAt, now);
    RecordTellsTotals(id, seed, moves, frames, startedAt, now);
    var r := Replay(text).value;
    CarriedEncodes(r, id, seed, moves, frames, startedAt, now);
    LastFrameCarried(r, id, seed, moves, frames, startedAt, now);
    forall i | 0 <= i <= |cs|
      ensures r.frames[i].state == Run(NewGame(id, seed), cs[..i])
    {
      FrameStateCarried(r, id, seed, moves, frames, startedAt, now, i);
    }
  }

  lemma FrameStateCarried(r: Result, gameId: string, seed: int, moves: seq<Move>, frames: seq<ScriptFrame>,
                          startedAt: string, endedAt: string, i: nat)
    requires Recorded(gameId, seed, moves, frames) && Carries(r, gameId, seed, moves, frames, startedAt, endedAt)
    requires i <= |moves|
    ensures |frames| == |moves| + 1 && r.frames[i].state == frames[i].state
  {
    hide NewGame, ReplayMoves, ValidGameId, FitsRecord;
    if i > 0 {
      assert r.frames[i] == ExpectedFrame(moves[i - 1], frames[i], r.frames[i].line);
    }
  }

  // ----- whole matches ----------------------------------------------------------------

  ghost predicate Recording(r: Recorder, cs: seq<Command>, startedAt: string, endedAt: string) {
    var start := NewGame(r.room.id, r.room.seed);
    && r.record.seed == r.room.seed && r.record.startedAt == startedAt
    && KeptMoves(r.record.moves, start, cs)
    && (r.record.finished <==> IsOver(r.room))
    && (r.record.finished <==> r.record.save.Some?)
    && (r.record.finished ==>
          r.record.save.value.Saved?
          && SavedGame(r.record.save.value.text, r.room.id, r.record.seed, startedAt, endedAt, cs))
  }

  predicate IsOver(v: RoomView) {
    v.state.Some? && v.state.value.phase == Finished
  }

  /** When a match ended, after one step more: at that step, if it is the one that ended it. */
  function EndOf(before: RoomView, after: RoomView, now: string, endedAt: string): string {
    if IsOver(after) && !IsOver(before) then now else endedAt
  }

  /** The clock at the operation that ended the match; empty while there is none. */
  function EndTime(id: string, seed: nat, startedAt: string, ts: seq<TimedOp>): string {
    if |ts| == 0 then ""
    else
      var before := ts[..|ts| - 1];
      EndOf(Match(id, seed, startedAt, before).room, Match(id, seed, startedAt, ts).room, ts[|ts| - 1].now,
            EndTime(id, seed, startedAt, before))
  }

  lemma KeptOneMore(moves: seq<AcceptedMove>, start: State, cs: seq<Command>, c: Command, e: Event)
    requires KeptMoves(moves, start, cs) && Apply(Run(start, cs), c).event == Some(e)
    ensures KeptMoves(moves + [AcceptedMove(c, e)], start, cs + [c])
  {
    hide Apply, Run;
    var more := cs + [c];
    assert more[..|cs|] == cs;
    forall i | 0 <= i < |cs|
      ensures LiveEvent(start, more, i) == LiveEvent(start, cs, i)
    {
      assert more[..i] == cs[..i];
    }
  }

  lemma SubmitKeepsRecording(r: Recorder, cs: seq<Command>, startedAt: string, endedAt: string, t: TimedOp)
    requires RoomOk(r.room) && (forall m :: m in r.record.moves ==> MoveTyped(m))
    requires Recording(r, cs, startedAt, endedAt) && Agrees(r.room, cs) && t.op.SubmitOp?
    requires ValidGameId(r.room.id) && IsUint32(r.room.seed) && Stamp(startedAt) && Stamp(t.now)
    requires MakesMove(r.room, t.op)
    ensures var after := StepMatch(r, t);
            Recording(after, cs + [t.op.command], startedAt, EndOf(r.room, after.room, t.now, endedAt))
  {
    hide Apply, Run, NewGame, InGame, ChannelsOk, ChannelAgrees, ValidGameId, Stamp, SubmitRoom, SaveFinished,
         KeptMoves,
         AllAccepted, Accepts, Step, SavedGame, StateTyped, EventTyped;
    var v, c := r.room, t.op.command;
    SubmitIsStepOrNothing(v, t.op.playerId, c, t.op.runnerFails);
    SubmitKeepsIdentity(v, t.op.playerId, c, t.op.runnerFails);
    AcceptedIsComplete(v, t.op.playerId, c, t.op.runnerFails);
    OneMoreAccepted(v.id, v.seed, cs, c);
    StepIsApply(v.state.value, c);
    var s := SubmitRoom(v, t.op.playerId, c, t.op.runnerFails);
    var e, final := s.answer.response.event.value, s.answer.response.state.value;
    KeptOneMore(r.record.moves, NewGame(v.id, v.seed), cs, c, e);
    if final.phase == Finished {
      var kept := r.record.(moves := r.record.moves + [AcceptedMove(c, e)], finished := true);
      FinishedGameSaves(v.id, kept, cs + [c], final, t.now);
    }
  }

  lemma StepKeepsRecording(r: Recorder, cs: seq<Command>, startedAt: string, endedAt: string, t: TimedOp)
    requires RoomOk(r.room) && (forall m :: m in r.record.moves ==> MoveTyped(m))
    requires Recording(r, cs, startedAt, endedAt) && Agrees(r.room, cs)
    requires ValidGameId(r.room.id) && IsUint32(r.room.seed) && Stamp(startedAt) && Stamp(t.now)
    ensures var after, more := StepMatch(r, t), if MakesMove(r.room, t.op) then [t.op.command] else [];
            Recording(after, cs + more, startedAt, EndOf(r.room, after.room, t.now, endedAt))
  {
    hide RoomOk, Recording, Agrees, ValidGameId, Stamp, StepMatch, MakesMove;
    OnlySubmissionsMove(r.room, t.op);
    if MakesMove(r.room, t.op) {
      SubmitKeepsRecording(r, cs, startedAt, endedAt, t);
    } else {
      assert cs + [] == cs;
      OthersKeepRecording(r, cs, startedAt, endedAt, t);
    }
  }

  /** Over any life of a room whose submissions go through the record: the accepted commands are the
      ledger, they replay from the seed to the room's state, and the match is saved exactly when it
      is finished, in a text that replays strictly to it. */
  lemma {:induction false} EveryFinishedMatchSaves(id: string, seed: nat, startedAt: string, ts: seq<TimedOp>)
    requires ValidGameId(id) && IsUint32(seed) && Stamp(startedAt)
    requires forall i :: 0 <= i < |ts| ==> Stamp(ts[i].now)
    ensures Match(id, seed, startedAt, ts).room.id == id && Match(id, seed, startedAt, ts).room.seed == seed
    ensures Recording(Match(id, seed, startedAt, ts), Ledger(id, seed, OpsOf(ts)), startedAt,
                      EndTime(id, seed, startedAt, ts))
  {
    hide *;
    LifeOfMatch(id, seed, startedAt, ts);
    if |ts| == 0 {
      assert ts == [];
      FreshMatchRecords(id, seed, startedAt);
    } else {
      var before, t := ts[..|ts| - 1], ts[|ts| - 1];
      EveryFinishedMatchSaves(id, seed, startedAt, before);
      LifeOfMatch(id, seed, startedAt, before);
      OneMoreOp(id, seed, startedAt, ts);
      EndTimeStep(id, seed, startedAt, ts);
      StepKeepsRecording(Match(id, seed, startedAt, before), Ledger(id, seed, OpsOf(before)), startedAt,
                         EndTime(id, seed, startedAt, before), t);
    }
  }

  lemma EndTimeStep(id: string, seed: nat, startedAt: string, ts: seq<TimedOp>)
    requires |ts| > 0
    ensures var before, t := ts[..|ts| - 1], ts[|ts| - 1];
            EndTime(id, seed, startedAt, ts)
            == EndOf(Match(id, seed, startedAt, before).room, Match(id, seed, startedAt, ts).room, t.now,
                     EndTime(id, seed, startedAt, before))
  {
    hide RoomOk, Match;
  }

  lemma LifeOfMatch(id: string, seed: nat, startedAt: string, ts: seq<TimedOp>)
    ensures var r := Match(id, seed, startedAt, ts);
            r.room.id == id && r.room.seed == seed && Agrees(r.room, Ledger(id, seed, OpsOf(ts)))
  {
    hide *;
    MatchRoomIsLife(id, seed, startedAt, ts);
    LifeAgrees(id, seed, OpsOf(ts));
  }

  lemma OneMoreOp(id: string, seed: nat, startedAt: string, ts: seq<TimedOp>)
    requires |ts| > 0
    ensures var before, t := ts[..|ts| - 1], ts[|ts| - 1];
            var r := Match(id, seed, startedAt, before);
            && Match(id, seed, startedAt, ts) == StepMatch(r, t)
            && Ledger(id, seed, OpsOf(ts))
               == Ledger(id, seed, OpsOf(before)) + if MakesMove(r.room, t.op) then [t.op.command] else []
  {
    hide RoomOk, StepMatch, MakesMove, FreshRoom, Life;
    var before, ops := ts[..|ts| - 1], OpsOf(ts);
    assert ops[..|ops| - 1] == OpsOf(before);
    MatchRoomIsLife(id, seed, startedAt, before);
  }

  lemma OnlySubmissionsMove(v: RoomView, op: RoomOp)
    requires RoomOk(v)
    ensures MakesMove(v, op) ==> op.SubmitOp?
  {
  }

  lemma FreshMatchRecords(id: string, seed: nat, startedAt: string)
    ensures Recording(Match(id, seed, startedAt, []), Ledger(id, seed, OpsOf([])), startedAt,
                      EndTime(id, seed, startedAt, []))
  {
    hide RoomOk, NewGame;
  }

  lemma OthersKeepRecording(r: Recorder, cs: seq<Command>, startedAt: string, endedAt: string, t: TimedOp)
    requires RoomOk(r.room) && (forall m :: m in r.record.moves ==> MoveTyped(m))
    requires Recording(r, cs, startedAt, endedAt) && !MakesMove(r.room, t.op)
    ensures var after := StepMatch(r, t);
            Recording(after, cs, startedAt, EndOf(r.room, after.room, t.now, endedAt))
  {
    hide RoomOk, NewGame, KeptMoves, SavedGame, JoinRoom, LeaveRoom, CloseRoom, SubmitRoom, TakeFrom, Accepts, Step;
    StepState(r.room, t.op);
    StepMatchKeeps(r, t);
    NewGameIsPlaying(r.room.id, r.room.seed);
    if t.op.SubmitOp? {
      SubmitIsStepOrNothing(r.room, t.op.playerId, t.op.command, t.op.runnerFails);
    }
  }

  /** At every moment the recorded moves replay, without failure and frame by frame, from the
      record's seed to the room's state. */
  lemma LedgerReplays(id: string, seed: nat, startedAt: string, ts: seq<TimedOp>)
    requires ValidGameId(id) && IsUint32(seed)
    ensures var r, cs := Match(id, seed, startedAt, ts), Ledger(id, seed, OpsOf(ts));
            r.room.state.Some? ==>
              && |MovesOf(cs)| == |cs| && (forall m :: m in MovesOf(cs) ==> Shaped(m))
              && ReplaysLive(id, seed, cs, ReplayMoves(id, seed, MovesOf(cs)))
              && ReplayMoves(id, seed, MovesOf(cs)).state == r.room.state.value
  {
    hide NewGame, RoomOk, Match, Life, Run, AllAccepted, ValidGameId;
    MatchRoomIsLife(id, seed, startedAt, ts);
    StateIsTheLedgersGame(id, seed, OpsOf(ts));
    var cs := Ledger(id, seed, OpsOf(ts));
    if Life(id, seed, OpsOf(ts)).state.Some? {
      LiveGameIsRecorded(id, seed, cs);
    }
  }

  // ----- a match can be played to its end ---------------------------------------------

  /** Submissions alone, with an engine that runs, take the match to its end and into the store. */
  ghost predicate Finishes(id: string, seed: nat, startedAt: string, ts: seq<TimedOp>, more: seq<TimedOp>,
                           now: string)
  {
    && (forall t :: t in more ==> t.op.SubmitOp? && !t.op.runnerFails && t.now == now)
    && var r := Match(id, seed, startedAt, ts + more);
       && IsOver(r.room) && |Ledger(id, seed, OpsOf(ts + more))| == 60
       && r.record.save.Some? && r.record.save.value.Saved?
       && SavedGame(r.record.save.value.text, id, seed, startedAt, now, Ledger(id, seed, OpsOf(ts + more)))
  }

  /** In an open match the player whose turn it is can make a move that the room accepts. */
  lemma SomebodyCanMove(v: RoomView, cs: seq<Command>)
    requires RoomOk(v) && Agrees(v, cs) && v.state.Some? && v.phase != Closed
    ensures |cs| < 60
    ensures exists playerId, c :: MakesMove(v, SubmitOp(playerId, c, false))
  {
    hide NewGame, Run, AcceptedOf, Accepts, InGame, LegalMoves, PieceCount, Full, ChannelsOk, ChannelAgrees, MakesMove,
         CommandError;
    var s := v.state.value;
    WholeGame(v.id, v.seed, cs);
    NeverStuck(v.id, v.seed, cs);
    var c :| Accepts(s, c);
    AcceptedIsWellFormed(s, v.id, v.seed, c);
    var playerId := v.seats[c.player].playerId;
    SubmitAcceptsIff(v, playerId, c, false);
  }

  lemma AcceptedIsWellFormed(s: State, id: string, seed: int, c: Command)
    requires InGame(s, id, seed) && id != "" && Accepts(s, c)
    ensures CommandError(c).None? && (c.player == Dark || c.player == Light)
  {
    hide Accepts, LegalMoves, PieceCount;
    AcceptedIffListed(s, id, seed, c);
    LegalMovesIs(s.board);
  }

  /** Every match in play, at whatever point and after whatever has happened, can be played on until
      it has finished and is saved. */
  lemma {:induction false} MatchCanFinish(id: string, seed: nat, startedAt: string, ts: seq<TimedOp>, now: string)
    requires ValidGameId(id) && IsUint32(seed) && Stamp(startedAt) && Stamp(now)
    requires forall i :: 0 <= i < |ts| ==> Stamp(ts[i].now)
    requires var v := Match(id, seed, startedAt, ts).room; v.state.Some? && v.phase != Closed
    ensures exists more :: Finishes(id, seed, startedAt, ts, more, now)
    decreases 60 - |Ledger(id, seed, OpsOf(ts))|
  {
    hide RoomOk, NewGame, Match, Life, Run, ValidGameId, Stamp, Agrees, MakesMove, Ledger, Accepts, Step, Finishes,
         OpsOf, IsOver, StepMatch;
    LifeOfMatch(id, seed, startedAt, ts);
    var v, cs := Match(id, seed, startedAt, ts).room, Ledger(id, seed, OpsOf(ts));
    OpenIsNotOver(v);
    SomebodyCanMove(v, cs);
    var playerId, c :| MakesMove(v, SubmitOp(playerId, c, false));
    var t := TimedOp(SubmitOp(playerId, c, false), now);
    var longer := ts + [t];
    assert longer[..|ts|] == ts;
    OneMoreOp(id, seed, startedAt, longer);
    OneMoreMove(id, seed, startedAt, ts, t);
    var w := Match(id, seed, startedAt, longer).room;
    if w.phase == Closed {
      LastMove(id, seed, startedAt, ts, t);
    } else {
      MatchCanFinish(id, seed, startedAt, longer, now);
      var more :| Finishes(id, seed, startedAt, longer, more, now);
      FinishesEarlier(id, seed, startedAt, ts, t, more);
    }
  }

  lemma OpenIsNotOver(v: RoomView)
    requires RoomOk(v) && v.phase != Closed
    ensures !IsOver(v)
  {
  }

  lemma OneMoreMove(id: string, seed: nat, startedAt: string, ts: seq<TimedOp>, t: TimedOp)
    requires t.op.SubmitOp? && MakesMove(Match(id, seed, startedAt, ts).room, t.op)
    ensures var w := Match(id, seed, startedAt, ts + [t]).room;
            w.state.Some? && (w.phase == Closed <==> IsOver(w))
  {
    hide RoomOk, Match, SubmitRoom, Step, Accepts, StepMatch;
    var r := Match(id, seed, startedAt, ts);
    assert (ts + [t])[..|ts|] == ts;
    OneMoreOp(id, seed, startedAt, ts + [t]);
    StepMatchKeeps(r, t);
    SubmitIsStepOrNothing(r.room, t.op.playerId, t.op.command, t.op.runnerFails);
  }

  lemma LastMove(id: string, seed: nat, startedAt: string, ts: seq<TimedOp>, t: TimedOp)
    requires ValidGameId(id) && IsUint32(seed) && Stamp(startedAt)
    requires forall i :: 0 <= i < |ts + [t]| ==> Stamp((ts + [t])[i].now)
    requires t.op.SubmitOp? && !t.op.runnerFails
    requires !IsOver(Match(id, seed, startedAt, ts).room) && IsOver(Match(id, seed, startedAt, ts + [t]).room)
    ensures Finishes(id, seed, startedAt, ts, [t], t.now)
  {
    hide RoomOk, NewGame, Match, Life, Run, Stamp, AcceptedOf, LegalMoves, PieceCount, Full, KeptMoves, SavedGame,
         ChannelAgrees, OpsOf, Ledger;
    EveryFinishedMatchSaves(id, seed, startedAt, ts + [t]);
    assert (ts + [t])[..|ts|] == ts;
    EndTimeStep(id, seed, startedAt, ts + [t]);
    LifeOfMatch(id, seed, startedAt, ts + [t]);
    WholeGame(id, seed, Ledger(id, seed, OpsOf(ts + [t])));
  }

  lemma FinishesEarlier(id: string, seed: nat, startedAt: string, ts: seq<TimedOp>, t: TimedOp, more: seq<TimedOp>)
    requires t.op.SubmitOp? && !t.op.runnerFails && Finishes(id, seed, startedAt, ts + [t], more, t.now)
    ensures Finishes(id, seed, startedAt, ts, [t] + more, t.now)
  {
    hide Match, Ledger, OpsOf, SavedGame, RoomOk;
    assert ts + [t] + more == ts + ([t] + more);
  }

  // ----- the names of rooms -----------------------------------------------------------

  lemma NameIsInjective(m: nat, n: nat)
    requires RoomName(m) == RoomName(n)
    ensures m == n
  {
    assert RoomName(m)[5..] == Decimal(m) && RoomName(n)[5..] == Decimal(n);
    DecimalInjective(m, n);
  }

  /** fmt.Sprintf("room-%d", n). */
  function RoomName(n: nat): string {
    "room-" + Decimal(n)
  }

  lemma {:induction false} DecimalLength(n: nat, digits: nat)
    requires digits >= 1 && n < Power10(digits)
    ensures |Decimal(n)| <= digits
  {
    if n >= 10 {
      DecimalLength(n / 10, digits - 1);
    }
  }

  function Power10(k: nat): nat {
    if k == 0 then 1 else 10 * Power10(k - 1)
  }

  /** Rooms are named so that their matches can be saved: for every 64-bit counter the name is a
      valid game id, and different rooms have different names. */
  lemma RoomNamesAreIds(m: nat, n: nat)
    requires n <= 0x7fff_ffff_ffff_ffff
    ensures ValidGameId(RoomName(n))
    ensures RoomName(m) == RoomName(n) ==> m == n
  {
    hide RoomName, ValidGameId;
    NameIsId(n);
    if RoomName(m) == RoomName(n) {
      NameIsInjective(m, n);
    }
  }

  lemma NameIsId(n: nat)
    requires n <= 0x7fff_ffff_ffff_ffff
    ensures ValidGameId(RoomName(n))
  {
    hide Decimal, DigitsValue, Power10, IsIdChar, IsDigit;
    Powers();
    DecimalLength(n, 19);
    DecimalReadsBack(n);
    PrefixIsId();
    var name := RoomName(n);
    forall i | 0 <= i < |name|
      ensures IsIdChar(name[i])
    {
      if i >= 5 {
        assert name[i] == Decimal(n)[i - 5];
        DigitIsIdChar(name[i]);
      } else {
        assert name[i] == "room-"[i];
      }
    }
  }

  lemma PrefixIsId()
    ensures forall i :: 0 <= i < 5 ==> IsIdChar("room-"[i])
  {
  }

  lemma DigitIsIdChar(c: char)
    ensures IsDigit(c) ==> IsIdChar(c)
  {
  }

  lemma Powers()
    ensures Power10(19) == 1_0000_0000_0000_0000_000
  {
    assert Power10(4) == 10000;
    assert Power10(8) == 1_0000_0000;
    assert Power10(12) == 1_0000_0000_0000;
    assert Power10(16) == 1_0000_0000_0000_0000;
  }
}
