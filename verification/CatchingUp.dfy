/** What becomes of a client that misses events. docs/contracts/protocol.md has it catch up with the
    next accepted command, since every event carries the whole state. Exactly when a channel has
    caught up is proved here over whole lives of a room, and with it the one case in which no
    command comes after the one that was missed. */
module CatchingUp {
  import opened Options
  import opened Protocol
  import opened Rules
  import opened Games
  import opened Contract
  import opened Harness
  import opened Rooms
  import opened RoomRuns
  import opened Agreement
  import opened Matches

  // ----- the last change of the state -------------------------------------------------

  /** The last event ever put in the channel carries the room's state. */
  predicate EndsWithState(v: RoomView, i: nat)
    requires i < |v.channels|
  {
    var sent := v.channels[i].sent;
    sent != [] && sent[|sent| - 1].state == v.state
  }

  function SentTo(v: RoomView, i: nat): nat {
    if i < |v.channels| then |v.channels[i].sent| else 0
  }

  /** How many operations came before the last one that changed the state: an accepted command, or
      the start of the match. */
  function BeforeChange(id: string, seed: int, ops: seq<RoomOp>): (k: nat)
    ensures k <= |ops|
  {
    if |ops| == 0 then 0
    else if Life(id, seed, ops).state != Life(id, seed, ops[..|ops| - 1]).state then |ops| - 1
    else BeforeChange(id, seed, ops[..|ops| - 1])
  }

  /** All that was sent since carries the state of now. */
  lemma {:induction false} SentSince(id: string, seed: int, ops: seq<RoomOp>)
    ensures var v := Life(id, seed, ops);
            Grows(Life(id, seed, ops[..BeforeChange(id, seed, ops)]).channels, v.channels, v.state)
  {
    hide RoomOk, Grows, StepRoom;
    var k, v := BeforeChange(id, seed, ops), Life(id, seed, ops);
    if |ops| == 0 {
      assert ops[..k] == ops;
      GrowsNot(v.channels, v.state);
    } else {
      var before, op := ops[..|ops| - 1], ops[|ops| - 1];
      var u := Life(id, seed, before);
      StepGrows(u, op);
      if v.state == u.state {
        SentSince(id, seed, before);
        assert before[..k] == ops[..k];
        GrowsOn(Life(id, seed, ops[..k]).channels, u.channels, v.channels, v.state);
      }
    }
  }

  /** The state before the last change is none, or an earlier turn's. */
  lemma {:induction false} ChangeIsLater(id: string, seed: int, ops: seq<RoomOp>)
    requires Life(id, seed, ops).state.Some?
    ensures var past := Life(id, seed, ops[..BeforeChange(id, seed, ops)]).state;
            past.Some? ==> past.value.turnNumber < Life(id, seed, ops).state.value.turnNumber
  {
    hide RoomOk, StepRoom, NewGame, Accepts, Step, MakesMove;
    if |ops| > 0 {
      var before, op := ops[..|ops| - 1], ops[|ops| - 1];
      var u, v := Life(id, seed, before), Life(id, seed, ops);
      StepState(u, op);
      if v.state == u.state {
        ChangeIsLater(id, seed, before);
        assert before[..BeforeChange(id, seed, ops)] == ops[..BeforeChange(id, seed, ops)];
      } else if u.state.Some? {
        OnlySubmissionsMove(u, op);
        AcceptConsumesTurn(u.state.value, op.command);
      }
    }
  }

  /** Nothing in any channel carries a later turn than the room's own. */
  lemma NothingIsLater(id: string, seed: int, ops: seq<RoomOp>, i: nat, j: nat)
    requires var v := Life(id, seed, ops); i < |v.channels| && j < |v.channels[i].sent|
    ensures var v := Life(id, seed, ops);
            var e := v.channels[i].sent[j];
            e.state.Some? ==> v.state.Some? && e.state.value.turnNumber <= v.state.value.turnNumber
  {
    hide RoomOk, NewGame, Run, AllAccepted, Life;
    LifeAgrees(id, seed, ops);
    var v, cs := Life(id, seed, ops), Ledger(id, seed, ops);
    assert ChannelAgrees(v.channels[i], NewGame(id, seed), cs);
    assert OfGame(v.channels[i].sent[j], NewGame(id, seed), cs);
    if v.state.Some? {
      GameTurn(id, seed, cs);
    } else {
      assert CarriesOnly(v.channels[i].sent, None);
    }
  }

  /** Over every life: a channel has caught up with the room, open or closed, and whatever was lost
      or not yet received, iff something was sent to it since the state last changed. */
  lemma CaughtUpIff(id: string, seed: int, ops: seq<RoomOp>, i: nat)
    requires var v := Life(id, seed, ops); v.state.Some? && i < |v.channels|
    ensures var v := Life(id, seed, ops);
            var past := Life(id, seed, ops[..BeforeChange(id, seed, ops)]);
            EndsWithState(v, i) <==> |v.channels[i].sent| > SentTo(past, i)
  {
    hide RoomOk, Life, BeforeChange;
    var before := ops[..BeforeChange(id, seed, ops)];
    var v, past := Life(id, seed, ops), Life(id, seed, before);
    SentSince(id, seed, ops);
    ChangeIsLater(id, seed, ops);
    var sent := v.channels[i].sent;
    if i < |past.channels| {
      assert ChannelGrows(past.channels[i], v.channels[i], v.state);
      var n := |past.channels[i].sent|;
      if |sent| > n {
        assert sent[n..][|sent| - 1 - n] == sent[|sent| - 1];
      } else if sent != [] {
        assert sent == past.channels[i].sent;
        NothingIsLater(id, seed, before, i, n - 1);
      }
    } else {
      assert CarriesOnly(sent, v.state);
    }
  }

  // ----- catching up with an accepted command -----------------------------------------

  /** A submission takes nothing out of any buffer and opens no channel. */
  lemma SubmitKeepsTaken(v: RoomView, playerId: string, c: Command, runnerFails: bool)
    requires RoomOk(v)
    ensures OnlySent(v.channels, SubmitRoom(v, playerId, c, runnerFails).view.channels)
  {
    hide RoomOk, RunEngine, CommandError, Confirm;
    var r := SubmitRoom(v, playerId, c, runnerFails);
    if r.view != v {
      ConfirmKeepsTaken(v, r.answer.response.state.value, r.answer.response.event);
    }
  }

  lemma ConfirmKeepsTaken(v: RoomView, s: State, e: Option<Event>)
    requires RoomOk(v)
    ensures OnlySent(v.channels, Confirm(v, s, e).channels)
  {
    hide InGame, Broadcast;
  }

  lemma BuffersBounded(v: RoomView, i: nat)
    requires RoomOk(v) && i < |v.channels|
    ensures |v.channels[i].sent| <= v.channels[i].taken + EVENT_BUFFER
  {
  }

  lemma SeatsHaveChannels(v: RoomView, p: Player)
    requires RoomOk(v) && p in v.seats && v.seats[p].connected
    ensures v.seats[p].events.Some? && v.seats[p].events.value < |v.channels|
    ensures !v.channels[v.seats[p].events.value].closed
  {
  }

  /** An accepted command catches a connected client up, whatever it had missed, iff its buffer has
      room at that moment. */
  lemma AcceptedCatchesUpIff(id: string, seed: int, ops: seq<RoomOp>, playerId: string, c: Command, p: Player)
    requires var v := Life(id, seed, ops);
             p in v.seats && v.seats[p].connected && MakesMove(v, SubmitOp(playerId, c, false))
    ensures var v, w := Life(id, seed, ops), Life(id, seed, ops + [SubmitOp(playerId, c, false)]);
            && v.seats[p].events.Some?
            && var i := v.seats[p].events.value;
               && i < |v.channels| && i < |w.channels|
               && (EndsWithState(w, i) <==> HasRoom(v.channels[i]))
  {
    hide RoomOk, Life, BeforeChange, SubmitRoom, Step, Accepts, MakesMove;
    var op := SubmitOp(playerId, c, false);
    var more := ops + [op];
    OneMoreStep(id, seed, ops, op);
    var v, w := Life(id, seed, ops), Life(id, seed, more);
    SeatsHaveChannels(v, p);
    var i := v.seats[p].events.value;
    MoveChangesState(v, playerId, c);
    SubmitKeepsTaken(v, playerId, c, false);
    LastIsTheChange(id, seed, ops, op);
    CaughtUpIff(id, seed, more, i);
    BuffersBounded(w, i);
    BuffersBounded(v, i);
    if HasRoom(v.channels[i]) {
      AcceptedIsDelivered(v, playerId, c, p);
    }
  }

  lemma OneMoreStep(id: string, seed: int, ops: seq<RoomOp>, op: RoomOp)
    ensures Life(id, seed, ops + [op]) == StepRoom(Life(id, seed, ops), op)
  {
    hide RoomOk, StepRoom;
    assert (ops + [op])[..|ops|] == ops;
  }

  lemma LastIsTheChange(id: string, seed: int, ops: seq<RoomOp>, op: RoomOp)
    requires Life(id, seed, ops + [op]).state != Life(id, seed, ops).state
    ensures BeforeChange(id, seed, ops + [op]) == |ops|
    ensures (ops + [op])[..|ops|] == ops
  {
    hide RoomOk, Life;
    assert (ops + [op])[..|ops|] == ops;
  }

  lemma MoveChangesState(v: RoomView, playerId: string, c: Command)
    requires RoomOk(v) && MakesMove(v, SubmitOp(playerId, c, false))
    ensures v.state.Some?
    ensures var w := SubmitRoom(v, playerId, c, false).view;
            w.state.Some? && w.state != v.state && w.state.value.turnNumber == v.state.value.turnNumber + 1
  {
    hide RoomOk, SubmitRoom, Step, Accepts;
    SubmitIsStepOrNothing(v, playerId, c, false);
    AcceptConsumesTurn(v.state.value, c);
  }

  // ----- after the last command -------------------------------------------------------

  predicate NobodyLeaves(ops: seq<RoomOp>) {
    forall op :: op in ops ==> !op.LeaveOp?
  }

  /** In a closed room nothing but a departure sends anything. */
  lemma ClosedSendsNothing(v: RoomView, op: RoomOp)
    requires RoomOk(v) && v.phase == Closed && !op.LeaveOp?
    ensures var w := StepRoom(v, op);
            && |w.channels| == |v.channels| && w.phase == Closed && w.state == v.state
            && forall i :: 0 <= i < |v.channels| ==> w.channels[i].sent == v.channels[i].sent
  {
    hide InGame, RunEngine, CommandError, ChannelsOk, Disconnect, Confirm;
    match op {
      case JoinOp(_, _) =>
      case SubmitOp(playerId, c, fails) => SubmitKeepsIdentity(v, playerId, c, fails);
      case LeaveOp(_) =>
      case CloseOp => ReleaseSendsNothing(v);
      case TakeOp(_) =>
    }
  }

  lemma ReleaseSendsNothing(v: RoomView)
    requires ChannelsOk(v)
    ensures var w := ReleaseSeats(v);
            && |w.channels| == |v.channels| && w.phase == v.phase && w.state == v.state
            && forall i :: 0 <= i < |v.channels| ==> w.channels[i].sent == v.channels[i].sent
  {
    hide ChannelsOk;
    ChannelsUsable(v);
    if Dark in v.seats {
      DisconnectKeepsChannelsOk(v, Dark);
      ChannelsUsable(Disconnect(v, Dark));
    }
  }

  /** No command, no return and no taking out of the buffer helps a client that a closed room has
      left behind, as long as nobody leaves. */
  lemma {:induction false} LeftBehindForGood(id: string, seed: int, ops: seq<RoomOp>, later: seq<RoomOp>, i: nat)
    requires Life(id, seed, ops).phase == Closed && i < |Life(id, seed, ops).channels| && NobodyLeaves(later)
    ensures var v, w := Life(id, seed, ops), Life(id, seed, ops + later);
            && i < |w.channels| && w.phase == Closed && w.state == v.state
            && w.channels[i].sent == v.channels[i].sent
            && (EndsWithState(w, i) <==> EndsWithState(v, i))
  {
    hide RoomOk, Life, StepRoom;
    if |later| == 0 {
      assert ops + later == ops;
    } else {
      var before, op := later[..|later| - 1], later[|later| - 1];
      assert forall o :: o in before ==> o in later;
      LeftBehindForGood(id, seed, ops, before, i);
      assert ops + later == ops + before + [op];
      OneMoreStep(id, seed, ops + before, op);
      assert op in later;
      ClosedSendsNothing(Life(id, seed, ops + before), op);
    }
  }

  /** The opponent's departure does help, if the buffer has room by then: it carries the state. */
  lemma DepartureCatchesUp(v: RoomView, playerId: string, p: Player)
    requires RoomOk(v) && SeatOf(v, playerId).Some? && p != SeatOf(v, playerId).value
    requires p in v.seats && v.seats[p].connected
    requires v.seats[p].events.Some? ==> HasRoom(v.channels[v.seats[p].events.value])
    ensures var w := LeaveRoom(v, playerId).view;
            && v.seats[p].events.Some? && v.seats[p].events.value < |w.channels|
            && EndsWithState(w, v.seats[p].events.value)
  {
    hide InGame, CloseRoom, ChannelsOk, NotifyOthers, Disconnect;
    var q := SeatOf(v, playerId).value;
    OkChannels(v);
    SeatsApart(v, p, q);
    DisconnectKeepsChannelsOk(v, q);
    ChannelsUsable(v);
    DisconnectLeaves(v, q, p);
    var away := Disconnect(v, q);
    var phased := away.(phase := if v.phase == InPlay then Suspended else v.phase);
    SamePhaselessChannels(away, phased);
    NotifyReaches(phased, playerId, OpponentLeft, p);
  }

  /** One seat's leaving touches neither the other seat nor its channel. */
  lemma DisconnectLeaves(v: RoomView, q: Player, p: Player)
    requires q in v.seats && p in v.seats && p != q && AllUsable(v.channels, v.seats)
    requires v.seats[p].events.Some? && v.seats[q].events != v.seats[p].events
    ensures var w := Disconnect(v, q);
            && w == v.(seats := w.seats, channels := w.channels) && p in w.seats && w.seats[p] == v.seats[p]
            && |w.channels| == |v.channels|
            && w.channels[v.seats[p].events.value] == v.channels[v.seats[p].events.value]
  {
  }

  // ----- a client that is left behind -------------------------------------------------

  /** A match after n accepted commands in which a connected client has taken nothing out, so that
      its buffer holds the first sixteen events. */
  ghost predicate SlowMatch(id: string, seed: int, ops: seq<RoomOp>, p: Player, n: nat) {
    var v := Life(id, seed, ops);
    && v.state.Some? && v.phase != Closed && |Ledger(id, seed, ops)| == n
    && p in v.seats && v.seats[p].connected && v.seats[p].events.Some?
    && v.seats[p].events.value < |v.channels|
    && IsSlow(v.channels[v.seats[p].events.value], n)
  }

  predicate IsSlow(c: Channel, n: nat) {
    c.taken == 0 && |c.sent| >= if n < EVENT_BUFFER then n else EVENT_BUFFER
  }

  lemma FirstJoin(id: string, seed: int)
    ensures var v := Life(id, seed, [JoinOp("a", false)]);
            && v.id == id && v.seed == seed && v.phase == Waiting && |v.channels| == 1
            && v.seats == map[Dark := Seat("a", Some(0), true)] && v.channels[0].taken == 0
  {
    hide InGame, RunEngine;
    assert [JoinOp("a", false)][..0] == [];
  }

  lemma SecondJoin(v: RoomView)
    requires RoomOk(v) && v.phase == Waiting && v.seats == map[Dark := Seat("a", Some(0), true)]
    requires v.id != "" && IsUint32(v.seed) && |v.channels| == 1 && v.channels[0].taken == 0
    ensures var w := JoinRoom(v, "b", false).view;
            && w.state.Some? && w.phase == InPlay && Dark in w.seats && w.seats[Dark] == v.seats[Dark]
            && |w.channels| > 0 && w.channels[0].taken == 0
  {
    hide InGame, NewGame, RunEngine, Broadcast, ChannelsOk;
    RoomNewGame(v.id, v.seed);
    OkChannels(v);
    SitDownKeepsChannelsOk(v, Light, "b");
    ChannelsUsable(SitDown(v, Light, "b"));
  }

  lemma SlowStart(id: string, seed: int)
    requires id != "" && IsUint32(seed)
    ensures SlowMatch(id, seed, [JoinOp("a", false), JoinOp("b", false)], Dark, 0)
  {
    hide RoomOk, Life, JoinRoom, NewGame, SubmitRoom;
    var first, both := [JoinOp("a", false)], [JoinOp("a", false), JoinOp("b", false)];
    assert both == first + [JoinOp("b", false)] && both[..1] == first && first[..0] == [];
    FirstJoin(id, seed);
    OneMoreStep(id, seed, first, JoinOp("b", false));
    SecondJoin(Life(id, seed, first));
    assert Ledger(id, seed, first) == [];
  }

  /** One accepted command more, and the client takes nothing out still. */
  lemma SlowStep(id: string, seed: int, ops: seq<RoomOp>, p: Player, n: nat, playerId: string, c: Command)
    requires SlowMatch(id, seed, ops, p, n) && MakesMove(Life(id, seed, ops), SubmitOp(playerId, c, false))
    ensures var more := ops + [SubmitOp(playerId, c, false)];
            var v, w := Life(id, seed, ops), Life(id, seed, more);
            && |Ledger(id, seed, more)| == n + 1 && w.state.Some? && w.seats == v.seats
            && (w.phase == Closed <==> w.state.value.phase == Finished)
            && |w.channels| == |v.channels|
            && var i := v.seats[p].events.value;
               IsSlow(w.channels[i], n + 1) && w.channels[i].closed == v.channels[i].closed
  {
    hide RoomOk, Life, SubmitRoom, Step, Accepts, MakesMove;
    var op := SubmitOp(playerId, c, false);
    var v := Life(id, seed, ops);
    OneMoreStep(id, seed, ops, op);
    assert (ops + [op])[..|ops|] == ops;
    SubmitIsStepOrNothingFor(v, playerId, c);
    SubmitKeepsTaken(v, playerId, c, false);
    if HasRoom(v.channels[v.seats[p].events.value]) {
      AcceptedIsDelivered(v, playerId, c, p);
    }
  }

  lemma SubmitIsStepOrNothingFor(v: RoomView, playerId: string, c: Command)
    requires RoomOk(v) && MakesMove(v, SubmitOp(playerId, c, false))
    ensures var w := SubmitRoom(v, playerId, c, false).view;
            w.state.Some? && w.seats == v.seats && (w.phase == Closed <==> w.state.value.phase == Finished)
  {
    hide RoomOk, SubmitRoom, Step, Accepts;
    SubmitIsStepOrNothing(v, playerId, c, false);
  }

  lemma LifeTurns(id: string, seed: int, ops: seq<RoomOp>)
    requires id != "" && Life(id, seed, ops).state.Some?
    ensures var v := Life(id, seed, ops);
            v.state.value.phase == Finished <==> |Ledger(id, seed, ops)| == 60
  {
    hide RoomOk, Life, NewGame, Run, AcceptedOf, LegalMoves, PieceCount, Full, ChannelAgrees;
    LifeAgrees(id, seed, ops);
    WholeGame(id, seed, Ledger(id, seed, ops));
  }

  lemma {:induction false} SlowPlaysOn(id: string, seed: int, ops: seq<RoomOp>, p: Player, n: nat)
    requires id != "" && SlowMatch(id, seed, ops, p, n) && n <= 59
    ensures exists more :: SlowMatch(id, seed, more, p, 59)
    decreases 59 - n
  {
    hide RoomOk, Life, MakesMove, Agrees, Ledger;
    if n < 59 {
      LifeAgrees(id, seed, ops);
      SomebodyCanMove(Life(id, seed, ops), Ledger(id, seed, ops));
      var playerId, c :| MakesMove(Life(id, seed, ops), SubmitOp(playerId, c, false));
      SlowStep(id, seed, ops, p, n, playerId, c);
      LifeTurns(id, seed, ops + [SubmitOp(playerId, c, false)]);
      SlowPlaysOn(id, seed, ops + [SubmitOp(playerId, c, false)], p, n + 1);
    }
  }

  /** The match is over, the channel is open, and whatever happens, it never ends with the final
      state as long as nobody leaves. */
  ghost predicate LeftBehind(id: string, seed: int, ops: seq<RoomOp>, i: nat) {
    var v := Life(id, seed, ops);
    && v.state.Some? && v.state.value.phase == Finished && i < |v.channels| && !v.channels[i].closed
    && forall later :: NobodyLeaves(later) ==>
         i < |Life(id, seed, ops + later).channels| && !EndsWithState(Life(id, seed, ops + later), i)
  }

  /** So the promise fails for the last command, in every room: with sixteen events waiting at the
      sixtieth move, the final state and the end of the match are both dropped, and no command comes
      after them. */
  lemma FinalStateCanBeLost(id: string, seed: int)
    requires id != "" && IsUint32(seed)
    ensures exists ops, i :: LeftBehind(id, seed, ops, i)
  {
    hide RoomOk, Life, MakesMove, Agrees, Ledger, EndsWithState;
    SlowStart(id, seed);
    SlowPlaysOn(id, seed, [JoinOp("a", false), JoinOp("b", false)], Dark, 0);
    var ops :| SlowMatch(id, seed, ops, Dark, 59);
    LifeAgrees(id, seed, ops);
    SomebodyCanMove(Life(id, seed, ops), Ledger(id, seed, ops));
    var playerId, c :| MakesMove(Life(id, seed, ops), SubmitOp(playerId, c, false));
    LastMoveLeavesBehind(id, seed, ops, playerId, c);
  }

  lemma LastMoveLeavesBehind(id: string, seed: int, ops: seq<RoomOp>, playerId: string, c: Command)
    requires id != "" && SlowMatch(id, seed, ops, Dark, 59)
    requires MakesMove(Life(id, seed, ops), SubmitOp(playerId, c, false))
    ensures LeftBehind(id, seed, ops + [SubmitOp(playerId, c, false)],
                       Life(id, seed, ops).seats[Dark].events.value)
  {
    hide RoomOk, Life, MakesMove, Ledger, EndsWithState;
    var v, last := Life(id, seed, ops), ops + [SubmitOp(playerId, c, false)];
    var i := v.seats[Dark].events.value;
    SlowStep(id, seed, ops, Dark, 59, playerId, c);
    LifeTurns(id, seed, last);
    SeatsHaveChannels(v, Dark);
    AcceptedCatchesUpIff(id, seed, ops, playerId, c, Dark);
    forall later | NobodyLeaves(later)
      ensures i < |Life(id, seed, last + later).channels| && !EndsWithState(Life(id, seed, last + later), i)
    {
      LeftBehindForGood(id, seed, last, later, i);
    }
  }
}
