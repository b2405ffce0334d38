/** What the two clients of a room can rely on, over its whole life and in spite of dropped
    events, disconnections and reconnections. */
module Agreement {
  import opened Options
  import opened Protocol
  import opened Rules
  import opened Games
  import opened Contract
  import opened Harness
  import opened Rooms
  import opened RoomRuns

  // ----- the game a room plays --------------------------------------------------------

  /** The room accepts this operation as a move of its game. */
  predicate MakesMove(v: RoomView, op: RoomOp)
    requires RoomOk(v)
  {
    op.SubmitOp? && var answer := SubmitRoom(v, op.playerId, op.command, op.runnerFails).answer;
      answer.Answer? && answer.response.ok
  }

  /** The commands accepted in the life of a room, in order. */
  function Ledger(id: string, seed: int, ops: seq<RoomOp>): seq<Command> {
    if |ops| == 0 then []
    else
      var before, op := ops[..|ops| - 1], ops[|ops| - 1];
      Ledger(id, seed, before) + if MakesMove(Life(id, seed, before), op) then [op.command] else []
  }

  /** What a submission does to the game, in every case: a move of the seated player whose turn it
      is, as the engine alone would make it, or nothing at all. */
  lemma SubmitIsStepOrNothing(v: RoomView, playerId: string, c: Command, runnerFails: bool)
    requires RoomOk(v)
    ensures var r := SubmitRoom(v, playerId, c, runnerFails);
            if r.answer.Answer? && r.answer.response.ok then
              && v.state.Some? && v.phase != Closed && !runnerFails
              && SeatOf(v, playerId) == Some(v.state.value.currentPlayer) && c.player == v.state.value.currentPlayer
              && Accepts(v.state.value, c)
              && r.answer.response == Apply(v.state.value, c)
              && r.view.state == Some(Step(v.state.value, c))
              && r.view.seats == v.seats
              && (r.view.phase == Closed <==> Step(v.state.value, c).phase == Finished)
            else r.view == v
  {
    hide InGame, RunEngine, Apply, Step, CommandError, Broadcast, ChannelsOk;
    if v.state.Some? && CommandError(c).None? && v.phase != Closed {
      var s := v.state.value;
      EngineInRoom(s, v.id, v.seed, c);
      if Accepts(s, c) {
        AcceptedIffListed(s, v.id, v.seed, c);
        ConfirmSets(v, Apply(s, c).state.value, Apply(s, c).event);
      }
    }
  }

  /** When a submission is accepted: exactly when a player of this open match sends, for the own
      seat, a well-formed command that the engine accepts, and the engine runs. */
  lemma SubmitAcceptsIff(v: RoomView, playerId: string, c: Command, runnerFails: bool)
    requires RoomOk(v)
    ensures MakesMove(v, SubmitOp(playerId, c, runnerFails)) <==>
      && !runnerFails && v.phase != Closed && v.state.Some? && SeatOf(v, playerId) == Some(c.player)
      && CommandError(c).None? && Accepts(v.state.value, c)
  {
    hide InGame, RunEngine, Apply, Step, CommandError, Broadcast, ChannelsOk, Confirm;
    SubmitIsStepOrNothing(v, playerId, c, runnerFails);
    if v.state.Some? && CommandError(c).None? && v.phase != Closed {
      EngineInRoom(v.state.value, v.id, v.seed, c);
      if Accepts(v.state.value, c) {
        StepIsApply(v.state.value, c);
      }
    }
  }

  // ----- agreement --------------------------------------------------------------------

  /** The state that an event carries is the game's state at its own turn number. */
  ghost predicate OfGame(e: RoomEvent, start: State, cs: seq<Command>) {
    e.state.Some? ==>
      var s := e.state.value;
      0 <= s.turnNumber <= |cs| && s == Run(start, cs[..s.turnNumber])
  }

  predicate InOrder(events: seq<RoomEvent>) {
    forall i, j :: 0 <= i < j < |events| && events[i].state.Some? ==>
      events[j].state.Some? && events[i].state.value.turnNumber <= events[j].state.value.turnNumber
  }

  ghost predicate ChannelAgrees(c: Channel, start: State, cs: seq<Command>) {
    (forall i :: 0 <= i < |c.sent| ==> OfGame(c.sent[i], start, cs)) && InOrder(c.sent)
  }

  /** cs is the game that the room has played so far, and everything sent belongs to it. */
  ghost predicate Agrees(v: RoomView, cs: seq<Command>) {
    var start := NewGame(v.id, v.seed);
    && (v.state.None? ==> cs == [])
    && (v.state.Some? ==> AllAccepted(start, cs) && v.state.value == Run(start, cs))
    && (forall i :: 0 <= i < |v.channels| ==> ChannelAgrees(v.channels[i], start, cs))
    && (v.state.None? ==> forall i :: 0 <= i < |v.channels| ==> CarriesOnly(v.channels[i].sent, None))
  }

  lemma GameTurn(id: string, seed: int, cs: seq<Command>)
    requires AllAccepted(NewGame(id, seed), cs)
    ensures Run(NewGame(id, seed), cs).turnNumber == |cs|
    ensures OfGameState(Run(NewGame(id, seed), cs), NewGame(id, seed), cs)
  {
    hide NewGame, Run, Accepts, Step, AcceptedOf;
    TurnsGrow(NewGame(id, seed), cs);
    NewGameTurn(id, seed);
    assert cs[..|cs|] == cs;
  }

  ghost predicate OfGameState(s: State, start: State, cs: seq<Command>) {
    0 <= s.turnNumber <= |cs| && s == Run(start, cs[..s.turnNumber])
  }

  /** One channel, grown by events that carry the current state of a longer game. */
  lemma ChannelStillAgrees(a: Channel, b: Channel, id: string, seed: int, cs: seq<Command>, more: seq<Command>,
                           st: State)
    requires ChannelAgrees(a, NewGame(id, seed), cs) && ChannelGrows(a, b, Some(st))
    requires cs <= more && AllAccepted(NewGame(id, seed), more) && st == Run(NewGame(id, seed), more)
    ensures ChannelAgrees(b, NewGame(id, seed), more)
  {
    hide NewGame, Run, AllAccepted;
    var start := NewGame(id, seed);
    GameTurn(id, seed, more);
    var n := |a.sent|;
    assert b.sent == a.sent + b.sent[n..];
    forall i | 0 <= i < |b.sent|
      ensures OfGame(b.sent[i], start, more)
      ensures b.sent[i].state.Some? ==> b.sent[i].state.value.turnNumber <= |more|
    {
      if i < n {
        assert b.sent[i] == a.sent[i] && OfGame(a.sent[i], start, cs);
        if a.sent[i].state.Some? {
          var t := a.sent[i].state.value.turnNumber;
          assert more[..t] == cs[..t];
        }
      } else {
        assert b.sent[i] == b.sent[n..][i - n];
      }
    }
    forall i, j | 0 <= i < j < |b.sent| && b.sent[i].state.Some?
      ensures b.sent[j].state.Some? && b.sent[i].state.value.turnNumber <= b.sent[j].state.value.turnNumber
    {
      if j < n {
        assert b.sent[i] == a.sent[i] && b.sent[j] == a.sent[j];
      } else {
        assert b.sent[j] == b.sent[n..][j - n];
      }
    }
  }

  lemma EmptyChannelAgrees(start: State, cs: seq<Command>)
    ensures ChannelAgrees(Channel([], 0, false), start, cs)
  {
  }

  lemma AllStillAgree(v: RoomView, w: RoomView, cs: seq<Command>, more: seq<Command>)
    requires Agrees(v, cs) && Grows(v.channels, w.channels, w.state) && w.id == v.id && w.seed == v.seed
    requires cs <= more && w.state.Some?
    requires AllAccepted(NewGame(v.id, v.seed), more) && w.state.value == Run(NewGame(v.id, v.seed), more)
    ensures Agrees(w, more)
  {
    hide NewGame, Run, AllAccepted, ChannelAgrees, ChannelGrows;
    var start := NewGame(v.id, v.seed);
    forall i | 0 <= i < |w.channels|
      ensures ChannelAgrees(w.channels[i], start, more)
    {
      if i < |v.channels| {
        ChannelStillAgrees(v.channels[i], w.channels[i], v.id, v.seed, cs, more, w.state.value);
      } else {
        EmptyChannelAgrees(start, cs);
        FromEmpty(w.channels[i], w.state);
        ChannelStillAgrees(Channel([], 0, false), w.channels[i], v.id, v.seed, cs, more, w.state.value);
      }
    }
  }

  lemma FromEmpty(c: Channel, st: Option<State>)
    requires CarriesOnly(c.sent, st)
    ensures ChannelGrows(Channel([], 0, false), c, st)
  {
    assert c.sent[0..] == c.sent;
  }

  lemma NoStateStillAgrees(v: RoomView, w: RoomView)
    requires Agrees(v, []) && v.state.None? && w.state.None? && Grows(v.channels, w.channels, None)
    requires w.id == v.id && w.seed == v.seed
    ensures Agrees(w, [])
  {
    hide NewGame;
    var start := NewGame(v.id, v.seed);
    forall i | 0 <= i < |w.channels|
      ensures CarriesOnly(w.channels[i].sent, None)
      ensures ChannelAgrees(w.channels[i], start, [])
    {
      if i < |v.channels| {
        assert ChannelGrows(v.channels[i], w.channels[i], None);
        GrownCarries(v.channels[i], w.channels[i], None);
      }
      NothingToAgree(w.channels[i], start);
    }
  }

  lemma NothingToAgree(c: Channel, start: State)
    requires CarriesOnly(c.sent, None)
    ensures ChannelAgrees(c, start, [])
  {
  }

  /** What one operation does to the room's state. */
  lemma StepState(v: RoomView, op: RoomOp)
    requires RoomOk(v)
    ensures var w := StepRoom(v, op);
            && w.id == v.id && w.seed == v.seed
            && (v.phase == Closed ==> w.phase == Closed)
            && (MakesMove(v, op) ==>
                  v.state.Some? && Accepts(v.state.value, op.command)
                  && w.state == Some(Step(v.state.value, op.command)))
            && (!MakesMove(v, op) ==>
                  w.state == v.state
                  || (op.JoinOp? && v.state.None? && w.state == Some(NewGame(v.id, v.seed))))
  {
    hide RoomOk, JoinRoom, SubmitRoom, LeaveRoom, CloseRoom, Accepts, Step, NewGame;
    match op {
      case JoinOp(playerId, fails) => JoinSets(v, playerId, fails);
      case SubmitOp(playerId, c, fails) =>
        SubmitIsStepOrNothing(v, playerId, c, fails);
        SubmitKeepsIdentity(v, playerId, c, fails);
      case LeaveOp(playerId) => LeaveKeepsState(v, playerId); LeaveKeepsIdentity(v, playerId);
      case CloseOp => OkChannels(v); CloseKeepsState(v); CloseKeepsChannelsOk(v);
      case TakeOp(i) =>
    }
  }

  lemma JoinSets(v: RoomView, playerId: string, fails: bool)
    requires RoomOk(v)
    ensures var w := JoinRoom(v, playerId, fails).view;
            && w.id == v.id && w.seed == v.seed && (v.phase == Closed ==> w.phase == Closed)
            && (w.state == v.state || (v.state.None? && w.state == Some(NewGame(v.id, v.seed))))
  {
    hide InGame, NewGame, RunEngine, ChannelsOk, DeliverTo, NotifyOthers, Broadcast;
    RoomNewGame(v.id, v.seed);
    ChannelsUsable(v);
    if v.phase != Closed && SeatOf(v, playerId).None? && !BothSeated(v.seats) {
      SitDownKeepsChannelsOk(v, if Dark !in v.seats then Dark else Light, playerId);
    }
    if v.phase != Closed && SeatOf(v, playerId).Some? && !v.seats[SeatOf(v, playerId).value].connected {
      SitDownKeepsChannelsOk(v, SeatOf(v, playerId).value, playerId);
    }
  }

  lemma SubmitKeepsIdentity(v: RoomView, playerId: string, c: Command, fails: bool)
    requires RoomOk(v)
    ensures var w := SubmitRoom(v, playerId, c, fails).view;
            w.id == v.id && w.seed == v.seed && (v.phase == Closed ==> w == v)
  {
    hide RoomOk, RunEngine, CommandError, Confirm;
    var r := SubmitRoom(v, playerId, c, fails);
    if r.view != v {
      ConfirmSets(v, r.answer.response.state.value, r.answer.response.event);
    }
  }

  lemma LeaveKeepsIdentity(v: RoomView, playerId: string)
    requires RoomOk(v)
    ensures var w := LeaveRoom(v, playerId).view;
            w.id == v.id && w.seed == v.seed && (v.phase == Closed ==> w.phase == Closed)
  {
    hide InGame, ChannelsOk, NotifyOthers, CloseRoom;
    var found := SeatOf(v, playerId);
    if found.Some? {
      ChannelsUsable(v);
      DisconnectKeepsChannelsOk(v, found.value);
      CloseKeepsChannelsOk(Disconnect(v, found.value));
    }
  }

  lemma OneMoreAccepted(id: string, seed: int, cs: seq<Command>, c: Command)
    requires AllAccepted(NewGame(id, seed), cs) && Accepts(Run(NewGame(id, seed), cs), c)
    ensures AllAccepted(NewGame(id, seed), cs + [c])
    ensures Run(NewGame(id, seed), cs + [c]) == Step(Run(NewGame(id, seed), cs), c)
  {
    hide NewGame, Run, Accepts, Step, AcceptedOf;
    RunAppend(NewGame(id, seed), cs, c);
  }

  lemma NoneAccepted(id: string, seed: int)
    ensures AllAccepted(NewGame(id, seed), []) && Run(NewGame(id, seed), []) == NewGame(id, seed)
  {
  }

  lemma {:induction false} LifeAgrees(id: string, seed: int, ops: seq<RoomOp>)
    ensures Life(id, seed, ops).id == id && Life(id, seed, ops).seed == seed
    ensures Agrees(Life(id, seed, ops), Ledger(id, seed, ops))
  {
    hide NewGame, RoomOk, Run, AllAccepted, Grows, ChannelAgrees, Accepts, Step, StepRoom;
    if |ops| > 0 {
      var before, op := ops[..|ops| - 1], ops[|ops| - 1];
      LifeAgrees(id, seed, before);
      var v, w, cs := Life(id, seed, before), Life(id, seed, ops), Ledger(id, seed, before);
      StepState(v, op);
      StepGrows(v, op);
      var more := Ledger(id, seed, ops);
      if MakesMove(v, op) {
        OneMoreAccepted(id, seed, cs, op.command);
        AllStillAgree(v, w, cs, more);
      } else {
        assert more == cs;
        if w.state.None? {
          NoStateStillAgrees(v, w);
        } else {
          if v.state.None? {
            NoneAccepted(id, seed);
          }
          AllStillAgree(v, w, cs, cs);
        }
      }
    }
  }

  // ----- the theorems -----------------------------------------------------------------

  /** The authoritative state is the game of the accepted commands, all of which the engine accepts. */
  lemma StateIsTheLedgersGame(id: string, seed: int, ops: seq<RoomOp>)
    ensures var v, cs := Life(id, seed, ops), Ledger(id, seed, ops);
            if v.state.Some?
            then AllAccepted(NewGame(id, seed), cs) && v.state.value == Run(NewGame(id, seed), cs)
            else cs == []
  {
    hide NewGame, RoomOk, Run, AllAccepted;
    LifeAgrees(id, seed, ops);
  }

  /** Across every channel ever handed out, events whose states have the same turn number carry
      the same state; within a channel turn numbers never decrease; and each state is the state of
      the one game, after as many of its accepted commands. */
  lemma ClientsAgree(id: string, seed: int, ops: seq<RoomOp>, a: nat, i: nat, b: nat, j: nat)
    requires var v := Life(id, seed, ops);
             a < |v.channels| && i < |v.channels[a].sent| && b < |v.channels| && j < |v.channels[b].sent|
    ensures var v := Life(id, seed, ops);
            var d, e := v.channels[a].sent[i], v.channels[b].sent[j];
            d.state.Some? && e.state.Some? ==>
              && (d.state.value.turnNumber == e.state.value.turnNumber ==> d.state == e.state)
              && (a == b && i < j ==> d.state.value.turnNumber <= e.state.value.turnNumber)
              && 0 <= d.state.value.turnNumber <= |Ledger(id, seed, ops)|
              && d.state.value == Run(NewGame(id, seed), Ledger(id, seed, ops)[..d.state.value.turnNumber])
  {
    hide NewGame, RoomOk, Run, AllAccepted, Life;
    LifeAgrees(id, seed, ops);
    var v, cs := Life(id, seed, ops), Ledger(id, seed, ops);
    assert ChannelAgrees(v.channels[a], NewGame(id, seed), cs);
    assert ChannelAgrees(v.channels[b], NewGame(id, seed), cs);
    assert OfGame(v.channels[a].sent[i], NewGame(id, seed), cs);
    assert OfGame(v.channels[b].sent[j], NewGame(id, seed), cs);
  }

  /** A reconnecting player gets a new open channel whose first event is the current state. */
  lemma ReconnectStartsWithState(v: RoomView, playerId: string, runnerFails: bool)
    requires RoomOk(v)
    ensures var r := JoinRoom(v, playerId, runnerFails);
            r.result.Joined? && r.result.reconnected ==>
              && r.result.channel == |v.channels| < |r.view.channels|
              && !r.view.channels[r.result.channel].closed
              && r.view.channels[r.result.channel].sent
                 == [RoomEvent(StateEvent, v.id, r.result.seat, v.state, None)]
              && r.view.state == v.state
              && SeatOf(v, playerId) == Some(r.result.seat)
  {
    hide InGame, NewGame, RunEngine, ChannelsOk;
    ChannelsUsable(v);
    var found := SeatOf(v, playerId);
    if v.phase != Closed && found.Some? && !v.seats[found.value].connected {
      SitDownKeepsChannelsOk(v, found.value, playerId);
      ChannelsUsable(SitDown(v, found.value, playerId));
    }
  }

  /** When the second player sits down, both get the new game's state as a match, if there is room
      in their buffers, and the first mover is the first to have come. */
  lemma MatchStarts(v: RoomView, playerId: string)
    requires RoomOk(v) && v.phase == Waiting && Dark in v.seats && v.seats[Dark].playerId != playerId
    requires v.id != "" && IsUint32(v.seed)
    ensures var r := JoinRoom(v, playerId, false);
            && r.result == Joined(Light, |v.channels|, false)
            && r.view.state == Some(NewGame(v.id, v.seed)) && r.view.phase == InPlay
            && r.view.channels[|v.channels|].sent
               == [RoomEvent(MatchedEvent, v.id, Light, r.view.state, None)]
            && v.seats[Dark].events.Some?
            && var c := v.channels[v.seats[Dark].events.value];
               |c.sent| - c.taken < EVENT_BUFFER ==>
                 r.view.channels[v.seats[Dark].events.value].sent
                 == c.sent + [RoomEvent(MatchedEvent, v.id, Dark, r.view.state, None)]
  {
    hide InGame, NewGame, RunEngine;
    RoomNewGame(v.id, v.seed);
    SitDownKeepsChannelsOk(v, Light, playerId);
    ChannelsUsable(SitDown(v, Light, playerId));
  }

  predicate HasRoom(c: Channel) {
    |c.sent| - c.taken < EVENT_BUFFER
  }

  /** A channel after one more event, which is dropped when the buffer is full. */
  function Put(c: Channel, e: RoomEvent): Channel {
    if HasRoom(c) then c.(sent := c.sent + [e]) else c
  }

  /** What delivering to one seat does to any one channel. */
  lemma DeliverIs(v: RoomView, q: Player, kind: RoomEventKind, e: Option<Event>, i: nat)
    requires ChannelsOk(v) && i < |v.channels|
    ensures var c := v.channels[i];
            i < |DeliverTo(v, q, kind, e).channels|
            && DeliverTo(v, q, kind, e).channels[i]
               == if q in v.seats && v.seats[q].events == Some(i) then Put(c, EventFor(v, q, kind, e)) else c
  {
  }

  lemma SeatsApart(v: RoomView, p: Player, q: Player)
    requires ChannelsOk(v) && p in v.seats && v.seats[p].connected
    ensures v.seats[p].events.Some? && v.seats[p].events.value < |v.channels|
    ensures q in v.seats && q != p ==> v.seats[q].events != v.seats[p].events
  {
  }

  /** What is told to everybody reaches a connected player. */
  lemma BroadcastReaches(v: RoomView, kind: RoomEventKind, e: Option<Event>, p: Player)
    requires ChannelsOk(v) && (p == Dark || p == Light) && p in v.seats && v.seats[p].connected
    ensures v.seats[p].events.Some? && v.seats[p].events.value < |v.channels|
    ensures var i := v.seats[p].events.value;
            Broadcast(v, kind, e).channels[i] == Put(v.channels[i], EventFor(v, p, kind, e))
  {
    hide ChannelsOk, DeliverTo, AllUsable, Put;
    SeatsApart(v, p, if p == Dark then Light else Dark);
    var i := v.seats[p].events.value;
    ChannelsUsable(v);
    DeliverKeepsChannelsOk(v, Dark, kind, e);
    var d := DeliverTo(v, Dark, kind, e);
    DeliverIs(v, Dark, kind, e, i);
    DeliverIs(d, Light, kind, e, i);
  }

  /** A departure's notice reaches the other player. */
  lemma NotifyReaches(v: RoomView, playerId: string, kind: RoomEventKind, p: Player)
    requires ChannelsOk(v) && (p == Dark || p == Light) && p in v.seats && v.seats[p].connected
    requires v.seats[p].playerId != playerId
    ensures v.seats[p].events.Some? && v.seats[p].events.value < |v.channels|
    ensures var i := v.seats[p].events.value;
            NotifyOthers(v, playerId, kind).channels[i] == Put(v.channels[i], EventFor(v, p, kind, None))
  {
    hide ChannelsOk, DeliverTo, AllUsable, Put;
    SeatsApart(v, p, if p == Dark then Light else Dark);
    var i := v.seats[p].events.value;
    ChannelsUsable(v);
    DeliverKeepsChannelsOk(v, Dark, kind, None);
    var d := DeliverTo(v, Dark, kind, None);
    DeliverIs(v, Dark, kind, None, i);
    DeliverIs(v, Light, kind, None, i);
    DeliverIs(d, Light, kind, None, i);
  }

  /** An accepted command reaches every connected seat whose buffer has room, as the new state with
      the engine's event, before anything else. */
  lemma AcceptedIsDelivered(v: RoomView, playerId: string, c: Command, p: Player)
    requires RoomOk(v) && p in v.seats && v.seats[p].connected
    requires MakesMove(v, SubmitOp(playerId, c, false))
    ensures v.seats[p].events.Some?
    ensures var r := SubmitRoom(v, playerId, c, false);
            var a, b := v.channels[v.seats[p].events.value], r.view.channels[v.seats[p].events.value];
            HasRoom(a) ==>
              a.sent + [RoomEvent(StateEvent, v.id, p, r.view.state, r.answer.response.event)] <= b.sent
  {
    hide InGame, NewGame, RunEngine, CommandError, Apply, Step;
    hide Broadcast, ChannelsOk;
    SubmitIsStepOrNothing(v, playerId, c, false);
    var s := v.state.value;
    EngineInRoom(s, v.id, v.seed, c);
    var next, e := Apply(s, c).state.value, Apply(s, c).event;
    var moved := v.(state := Some(next), phase := if next.phase == Finished then Closed else v.phase);
    SamePhaselessChannels(v, moved);
    BroadcastReaches(moved, StateEvent, e, p);
    SubmitConfirms(v, playerId, c);
  }

  lemma SubmitConfirms(v: RoomView, playerId: string, c: Command)
    requires RoomOk(v) && MakesMove(v, SubmitOp(playerId, c, false))
    ensures v.state.Some? && Apply(v.state.value, c).state.Some?
    ensures SubmitRoom(v, playerId, c, false)
         == RoomSubmit(Confirm(v, Apply(v.state.value, c).state.value, Apply(v.state.value, c).event),
                       Answer(Apply(v.state.value, c)))
  {
    hide InGame, RunEngine, CommandError, Apply, Step, Confirm;
    SubmitIsStepOrNothing(v, playerId, c, false);
    EngineInRoom(v.state.value, v.id, v.seed, c);
  }

  /** Closing is for ever, and so is the last state. */
  lemma {:induction false} ClosedForEver(id: string, seed: int, ops: seq<RoomOp>, later: seq<RoomOp>)
    requires Life(id, seed, ops).phase == Closed
    ensures Life(id, seed, ops + later).phase == Closed
    ensures Life(id, seed, ops + later).state == Life(id, seed, ops).state
  {
    hide NewGame, RoomOk, StepRoom;
    if |later| == 0 {
      assert ops + later == ops;
    } else {
      var before, op := later[..|later| - 1], later[|later| - 1];
      ClosedForEver(id, seed, ops, before);
      assert (ops + later)[..|ops + later| - 1] == ops + before;
      StepState(Life(id, seed, ops + before), op);
      ClosedMakesNoMove(Life(id, seed, ops + before), op);
      if op.JoinOp? {
        ClosedAdmitsNobody(Life(id, seed, ops + before), op);
      }
    }
  }

  lemma ClosedMakesNoMove(v: RoomView, op: RoomOp)
    requires RoomOk(v) && v.phase == Closed
    ensures !MakesMove(v, op)
  {
    hide RoomOk;
    if op.SubmitOp? {
      SubmitIsStepOrNothing(v, op.playerId, op.command, op.runnerFails);
    }
  }

  lemma ClosedAdmitsNobody(v: RoomView, op: RoomOp)
    requires RoomOk(v) && v.phase == Closed && op.JoinOp?
    ensures StepRoom(v, op) == v
  {
  }

  /** Once closed, a channel stays closed and nothing is ever sent on it again. */
  lemma {:induction false} ClosedChannelsAreSilent(id: string, seed: int, ops: seq<RoomOp>, later: seq<RoomOp>, i: nat)
    requires i < |Life(id, seed, ops).channels| && Life(id, seed, ops).channels[i].closed
    ensures i < |Life(id, seed, ops + later).channels|
    ensures var c := Life(id, seed, ops + later).channels[i];
            c.closed && c.sent == Life(id, seed, ops).channels[i].sent
  {
    hide NewGame, RoomOk, StepRoom;
    if |later| == 0 {
      assert ops + later == ops;
    } else {
      var before, op := later[..|later| - 1], later[|later| - 1];
      ClosedChannelsAreSilent(id, seed, ops, before, i);
      assert (ops + later)[..|ops + later| - 1] == ops + before;
      StepGrows(Life(id, seed, ops + before), op);
      var v, w := Life(id, seed, ops + before), Life(id, seed, ops + later);
      assert ChannelGrows(v.channels[i], w.channels[i], w.state);
    }
  }
}
