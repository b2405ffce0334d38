/** Whole lives of a room: its invariant after every sequence of operations, and what the
    receivers of its channels can rely on. */
module RoomRuns {
  import opened Options
  import opened Protocol
  import opened Rules
  import opened Games
  import opened Contract
  import opened Harness
  import opened Rooms

  // ----- the engine inside a room -----------------------------------------------------

  /** In a room the runner answers a well-formed command with what the engine says, always. */
  lemma EngineInRoom(s: State, id: string, seed: int, c: Command)
    requires InGame(s, id, seed) && id != "" && CommandError(c).None?
    ensures RunEngine(ApplyCommandRequest(s, c)) == Answer(Apply(s, c))
    ensures Accepts(s, c) ==> Apply(s, c).state == Some(Step(s, c)) && InGame(Step(s, c), id, seed)
    ensures !Accepts(s, c) ==> Apply(s, c).state == Some(s)
  {
    hide RunEngine, Apply, Evaluate, Step;
    InGameIsValid(s, id, seed);
    ValidatorsAgree(s);
    ApplyKeepsContract(s, c);
    StepStaysInGame(s, id, seed, c);
    if Accepts(s, c) {
      StepIsApply(s, c);
    }
  }

  // ----- the invariant ----------------------------------------------------------------

  lemma FreshRoomOk(id: string, seed: int)
    ensures RoomOk(FreshRoom(id, seed))
  {
  }

  lemma SitDownKeepsChannelsOk(v: RoomView, p: Player, playerId: string)
    requires ChannelsOk(v) && (p in v.seats ==> !v.seats[p].connected)
    ensures ChannelsOk(SitDown(v, p, playerId))
  {
    hide IsSeated, AllUsable;
    var w := SitDown(v, p, playerId);
    assert p in v.seats ==> v.seats[p].events.None?;
    SitDownStaysUsable(v, p, playerId);
    forall i | 0 <= i < |w.channels| && !w.channels[i].closed
      ensures IsSeated(w.seats, i)
    {
      SeatedStays(v.seats, w.seats, p, i, |v.channels|);
    }
  }

  lemma SitDownStaysUsable(v: RoomView, p: Player, playerId: string)
    requires AllUsable(v.channels, v.seats)
    ensures AllUsable(SitDown(v, p, playerId).channels, SitDown(v, p, playerId).seats)
    ensures forall q :: q in v.seats ==> v.seats[q].events != Some(|v.channels|)
  {
  }

  /** Who had a channel keeps it, and the new seat has the new one. */
  lemma SeatedStays(before: map<Player, Seat>, after: map<Player, Seat>, p: Player, channel: nat, newest: nat)
    requires p in before ==> before[p].events.None?
    requires p in after && after == before[p := after[p]] && after[p].events == Some(newest)
    requires channel == newest || IsSeated(before, channel)
    ensures IsSeated(after, channel)
  {
    if channel == newest {
      assert p in after && after[p].events == Some(channel);
    } else {
      var q :| q in before && before[q].events == Some(channel);
      assert q in after && after[q].events == Some(channel);
    }
  }

  lemma DeliverKeepsChannelsOk(v: RoomView, p: Player, kind: RoomEventKind, e: Option<Event>)
    requires ChannelsOk(v)
    ensures ChannelsOk(DeliverTo(v, p, kind, e))
  {
  }

  lemma NotifyKeepsChannelsOk(v: RoomView, playerId: string, kind: RoomEventKind)
    requires ChannelsOk(v)
    ensures ChannelsOk(NotifyOthers(v, playerId, kind))
  {
    hide ChannelsOk, DeliverTo;
    DeliverKeepsChannelsOk(v, Dark, kind, None);
    var d := if Dark in v.seats && v.seats[Dark].playerId != playerId then DeliverTo(v, Dark, kind, None) else v;
    assert ChannelsOk(d);
    ChannelsUsable(d);
    DeliverKeepsChannelsOk(d, Light, kind, None);
  }

  lemma ChannelsUsable(v: RoomView)
    requires ChannelsOk(v)
    ensures AllUsable(v.channels, v.seats)
  {
  }

  lemma JoinKeepsOk(v: RoomView, playerId: string, runnerFails: bool)
    requires RoomOk(v)
    ensures RoomOk(JoinRoom(v, playerId, runnerFails).view)
  {
    hide InGame, NewGame, RunEngine, ChannelsOk, DeliverTo, NotifyOthers, Broadcast;
    if v.phase != Closed {
      var found := SeatOf(v, playerId);
      if found.Some? {
        var p := found.value;
        if !v.seats[p].connected {
          SitDownKeepsChannelsOk(v, p, playerId);
          var w := SitDown(v, p, playerId);
          var phased := w.(phase := if v.phase == Suspended && BothConnected(w.seats) then InPlay else v.phase);
          SamePhaselessChannels(w, phased);
          DeliverKeepsChannelsOk(phased, p, StateEvent, None);
          NotifyKeepsChannelsOk(DeliverTo(phased, p, StateEvent, None), playerId, OpponentReturned);
        }
      } else if !BothSeated(v.seats) {
        var p := if Dark !in v.seats then Dark else Light;
        TakeSeatKeepsOk(v, p, playerId, runnerFails);
      }
    }
  }

  lemma SamePhaselessChannels(v: RoomView, w: RoomView)
    requires ChannelsOk(v) && w.seats == v.seats && w.channels == v.channels
    ensures ChannelsOk(w)
    ensures AllUsable(w.channels, w.seats)
  {
  }

  lemma TakeSeatKeepsOk(v: RoomView, p: Player, playerId: string, runnerFails: bool)
    requires RoomOk(v) && v.phase != Closed && SeatOf(v, playerId).None?
    requires p == (if Dark !in v.seats then Dark else Light) && p !in v.seats
    ensures RoomOk(TakeSeat(v, p, playerId, runnerFails).view)
  {
    hide InGame, NewGame, RunEngine, ChannelsOk, DeliverTo, Broadcast;
    SitDownKeepsChannelsOk(v, p, playerId);
    var w := SitDown(v, p, playerId);
    if !BothSeated(w.seats) {
      var waiting := w.(phase := Waiting);
      SamePhaselessChannels(w, waiting);
      DeliverKeepsChannelsOk(waiting, p, WaitingEvent, None);
    } else if !runnerFails {
      var answer := RunEngine(NewGameRequest(v.id, v.seed));
      RoomNewGame(v.id, v.seed);
      if answer.Answer? && answer.response.ok && answer.response.state.Some? {
        var started := w.(state := answer.response.state, phase := InPlay);
        SamePhaselessChannels(w, started);
        BroadcastKeepsChannelsOk(started, MatchedEvent, None);
      }
    }
  }

  /** What a room gets when it asks for a new game. */
  lemma RoomNewGame(id: string, seed: int)
    ensures var answer := RunEngine(NewGameRequest(id, seed));
            answer.Answer? && answer.response.ok && answer.response.state.Some? ==>
              id != "" && answer.response.state.value == NewGame(id, seed)
              && InGame(NewGame(id, seed), id, seed) && NewGame(id, seed).phase == Playing
    ensures id != "" && IsUint32(seed) ==>
              RunEngine(NewGameRequest(id, seed)) == Answer(Accepted(NewGame(id, seed), None))
    ensures id != "" && !IsUint32(seed) ==>
              RunEngine(NewGameRequest(id, seed)).Answer? && !RunEngine(NewGameRequest(id, seed)).response.ok
  {
    hide NewGame, InGame, GoodResponse;
    NewGameInGame(id, seed);
    NewGameIsPlaying(id, seed);
    if IsUint32(seed) {
      NewGameKeepsContract(id, seed);
    } else if id != "" {
      SeedRefused(id, seed);
    }
  }

  lemma SeedRefused(id: string, seed: int)
    requires id != "" && !IsUint32(seed)
    ensures RunEngine(NewGameRequest(id, seed)) == Answer(Rejected(InvalidRequest, None))
  {
    hide NewGame;
  }

  lemma NewGameIsPlaying(id: string, seed: int)
    ensures NewGame(id, seed).phase == Playing
  {
  }

  lemma SubmitKeepsOk(v: RoomView, playerId: string, c: Command, runnerFails: bool)
    requires RoomOk(v)
    ensures RoomOk(SubmitRoom(v, playerId, c, runnerFails).view)
  {
    hide InGame, RunEngine, ChannelsOk, Broadcast, Apply, Step, CommandError;
    if v.state.Some? && CommandError(c).None? {
      var s := v.state.value;
      EngineInRoom(s, v.id, v.seed, c);
      var r := Apply(s, c);
      if r.ok && SeatOf(v, playerId).Some? && v.phase != Closed {
        var t := r.state.value;
        var moved := v.(state := Some(t), phase := if t.phase == Finished then Closed else v.phase);
        SamePhaselessChannels(v, moved);
        BroadcastKeepsChannelsOk(moved, StateEvent, r.event);
        ChannelsUsable(Broadcast(moved, StateEvent, r.event));
        BroadcastKeepsChannelsOk(Broadcast(moved, StateEvent, r.event), ClosedEvent, None);
      }
    }
  }

  lemma CloseKeepsChannelsOk(v: RoomView)
    requires ChannelsOk(v)
    ensures ChannelsOk(CloseRoom(v)) && CloseRoom(v).phase == Closed && !AnyConnected(CloseRoom(v).seats)
    ensures CloseRoom(v).seats.Keys == v.seats.Keys && CloseRoom(v).state == v.state
    ensures forall p :: p in v.seats ==> CloseRoom(v).seats[p].playerId == v.seats[p].playerId
    ensures CloseRoom(v).id == v.id && CloseRoom(v).seed == v.seed
  {
    hide ChannelsOk, Broadcast, DeliverTo;
    var closed := v.(phase := Closed);
    SamePhaselessChannels(v, closed);
    BroadcastKeepsChannelsOk(closed, ClosedEvent, None);
    ReleaseKeepsChannelsOk(v);
    ReleaseKeepsChannelsOk(Broadcast(closed, ClosedEvent, None));
  }

  lemma ReleaseKeepsChannelsOk(v: RoomView)
    requires ChannelsOk(v)
    ensures var w := ReleaseSeats(v);
            && ChannelsOk(w) && !AnyConnected(w.seats) && w.seats.Keys == v.seats.Keys
            && w == v.(seats := w.seats, channels := w.channels)
            && forall p :: p in v.seats ==> w.seats[p].playerId == v.seats[p].playerId
  {
    hide ChannelsOk;
    ChannelsUsable(v);
    var d := v;
    if Dark in v.seats {
      DisconnectKeepsChannelsOk(v, Dark);
      d := Disconnect(v, Dark);
    }
    ChannelsUsable(d);
    if Light in v.seats {
      DisconnectKeepsChannelsOk(d, Light);
    }
  }

  lemma LeaveKeepsOk(v: RoomView, playerId: string)
    requires RoomOk(v)
    ensures RoomOk(LeaveRoom(v, playerId).view)
  {
    hide InGame, ChannelsOk, NotifyOthers, CloseRoom, AllUsable;
    var found := SeatOf(v, playerId);
    if found.Some? {
      var p := found.value;
      ChannelsUsable(v);
      DisconnectKeepsChannelsOk(v, p);
      var away := Disconnect(v, p);
      CloseKeepsChannelsOk(away);
      var phased := away.(phase := if v.phase == InPlay then Suspended else v.phase);
      SamePhaselessChannels(away, phased);
      NotifyKeepsChannelsOk(phased, playerId, OpponentLeft);
    }
  }

  lemma CloseKeepsOk(v: RoomView)
    requires RoomOk(v)
    ensures RoomOk(CloseRoom(v))
  {
    hide InGame, ChannelsOk, CloseRoom;
    CloseKeepsChannelsOk(v);
  }

  lemma TakeKeepsOk(v: RoomView, i: nat)
    requires RoomOk(v)
    ensures RoomOk(TakeFrom(v, i))
  {
    hide InGame;
  }

  // ----- whole lives ------------------------------------------------------------------

  /** Everything that can happen to a room; a receiver taking an event out is one of them. */
  datatype RoomOp =
    | JoinOp(playerId: string, runnerFails: bool)
    | SubmitOp(playerId: string, command: Command, runnerFails: bool)
    | LeaveOp(playerId: string)
    | CloseOp
    | TakeOp(channel: nat)

  function StepRoom(v: RoomView, op: RoomOp): RoomView
    requires RoomOk(v)
  {
    match op
    case JoinOp(playerId, fails) => JoinRoom(v, playerId, fails).view
    case SubmitOp(playerId, c, fails) => SubmitRoom(v, playerId, c, fails).view
    case LeaveOp(playerId) => LeaveRoom(v, playerId).view
    case CloseOp => CloseRoom(v)
    case TakeOp(i) => TakeFrom(v, i)
  }

  lemma StepKeepsOk(v: RoomView, op: RoomOp)
    requires RoomOk(v)
    ensures RoomOk(StepRoom(v, op))
  {
    hide RoomOk, JoinRoom, SubmitRoom, LeaveRoom, CloseRoom, TakeFrom;
    match op {
      case JoinOp(playerId, fails) => JoinKeepsOk(v, playerId, fails);
      case SubmitOp(playerId, c, fails) => SubmitKeepsOk(v, playerId, c, fails);
      case LeaveOp(playerId) => LeaveKeepsOk(v, playerId);
      case CloseOp => CloseKeepsOk(v); OkChannels(v);
      case TakeOp(i) => TakeKeepsOk(v, i);
    }
  }

  lemma OkChannels(v: RoomView)
    requires RoomOk(v)
    ensures ChannelsOk(v)
  {
  }

  /** The life of a room. Every operation's precondition, so that nothing is sent on a closed
      channel and no channel is closed twice, is part of what makes this well defined. */
  function Life(id: string, seed: int, ops: seq<RoomOp>): (v: RoomView)
    ensures RoomOk(v)
  {
    if |ops| == 0 then
      FreshRoomOk(id, seed);
      FreshRoom(id, seed)
    else
      var before := Life(id, seed, ops[..|ops| - 1]);
      StepKeepsOk(before, ops[|ops| - 1]);
      StepRoom(before, ops[|ops| - 1])
  }

  // ----- what is sent -----------------------------------------------------------------

  /** Channels only grow: what was sent stays, a closed channel stays closed and gets nothing
      more, and everything new carries the given state. */
  ghost predicate Grows(before: seq<Channel>, after: seq<Channel>, st: Option<State>) {
    && |before| <= |after|
    && (forall i :: 0 <= i < |before| ==> ChannelGrows(before[i], after[i], st))
    && (forall i :: |before| <= i < |after| ==> CarriesOnly(after[i].sent, st))
  }

  predicate ChannelGrows(a: Channel, b: Channel, st: Option<State>) {
    && a.sent <= b.sent && CarriesOnly(b.sent[|a.sent|..], st)
    && (a.closed ==> b.closed && b.sent == a.sent)
  }

  predicate CarriesOnly(events: seq<RoomEvent>, st: Option<State>) {
    forall i :: 0 <= i < |events| ==> events[i].state == st
  }

  lemma ChannelGrowsOn(a: Channel, b: Channel, c: Channel, st: Option<State>)
    requires ChannelGrows(a, b, st) && ChannelGrows(b, c, st)
    ensures ChannelGrows(a, c, st)
  {
    var n := |a.sent|;
    assert c.sent[n..] == b.sent[n..] + c.sent[|b.sent|..];
  }

  lemma GrowsOn(a: seq<Channel>, b: seq<Channel>, c: seq<Channel>, st: Option<State>)
    requires Grows(a, b, st) && Grows(b, c, st)
    ensures Grows(a, c, st)
  {
    hide ChannelGrows;
    forall i | 0 <= i < |a|
      ensures ChannelGrows(a[i], c[i], st)
    {
      ChannelGrowsOn(a[i], b[i], c[i], st);
    }
    forall i | |a| <= i < |b|
      ensures CarriesOnly(c[i].sent, st)
    {
      assert ChannelGrows(b[i], c[i], st);
      GrownCarries(b[i], c[i], st);
    }
  }

  lemma GrownCarries(a: Channel, b: Channel, st: Option<State>)
    requires ChannelGrows(a, b, st) && CarriesOnly(a.sent, st)
    ensures CarriesOnly(b.sent, st)
  {
    assert b.sent == a.sent + b.sent[|a.sent|..];
  }

  lemma GrowsNot(a: seq<Channel>, st: Option<State>)
    ensures Grows(a, a, st)
  {
  }

  lemma DeliverGrows(v: RoomView, p: Player, kind: RoomEventKind, e: Option<Event>)
    requires AllUsable(v.channels, v.seats)
    ensures Grows(v.channels, DeliverTo(v, p, kind, e).channels, v.state)
  {
  }

  lemma BroadcastGrows(v: RoomView, kind: RoomEventKind, e: Option<Event>)
    requires AllUsable(v.channels, v.seats)
    ensures Grows(v.channels, Broadcast(v, kind, e).channels, v.state)
  {
    hide Grows, DeliverTo, AllUsable;
    var d := DeliverTo(v, Dark, kind, e);
    DeliverGrows(v, Dark, kind, e);
    DeliverGrows(d, Light, kind, e);
    GrowsOn(v.channels, d.channels, DeliverTo(d, Light, kind, e).channels, v.state);
  }

  lemma NotifyGrows(v: RoomView, playerId: string, kind: RoomEventKind)
    requires AllUsable(v.channels, v.seats)
    ensures Grows(v.channels, NotifyOthers(v, playerId, kind).channels, v.state)
  {
    hide Grows, DeliverTo, AllUsable;
    GrowsNot(v.channels, v.state);
    var d := if Dark in v.seats && v.seats[Dark].playerId != playerId then DeliverTo(v, Dark, kind, None) else v;
    DeliverGrows(v, Dark, kind, None);
    DeliverGrows(d, Light, kind, None);
    GrowsNot(d.channels, v.state);
    GrowsOn(v.channels, d.channels, NotifyOthers(v, playerId, kind).channels, v.state);
  }

  lemma SitDownGrows(v: RoomView, p: Player, playerId: string, st: Option<State>)
    ensures Grows(v.channels, SitDown(v, p, playerId).channels, st)
  {
  }

  lemma DisconnectGrows(v: RoomView, p: Player, st: Option<State>)
    requires p in v.seats && AllUsable(v.channels, v.seats)
    ensures Grows(v.channels, Disconnect(v, p).channels, st)
  {
  }

  lemma ReleaseGrows(v: RoomView, st: Option<State>)
    requires ChannelsOk(v)
    ensures Grows(v.channels, ReleaseSeats(v).channels, st)
  {
    hide Grows, ChannelsOk, Disconnect;
    GrowsNot(v.channels, st);
    ChannelsUsable(v);
    var d := v;
    if Dark in v.seats {
      DisconnectGrows(v, Dark, st);
      DisconnectKeepsChannelsOk(v, Dark);
      d := Disconnect(v, Dark);
    }
    ChannelsUsable(d);
    if Light in v.seats {
      LightStays(v);
      DisconnectGrows(d, Light, st);
      GrowsOn(v.channels, d.channels, Disconnect(d, Light).channels, st);
    }
  }

  lemma LightStays(v: RoomView)
    requires AllUsable(v.channels, v.seats) && Light in v.seats
    ensures Dark in v.seats ==> Light in Disconnect(v, Dark).seats
  {
  }

  lemma CloseGrows(v: RoomView)
    requires ChannelsOk(v)
    ensures Grows(v.channels, CloseRoom(v).channels, v.state)
  {
    hide Grows, ChannelsOk, Broadcast, ReleaseSeats;
    ReleaseGrows(v, v.state);
    var closed := v.(phase := Closed);
    SamePhaselessChannels(v, closed);
    BroadcastKeepsChannelsOk(closed, ClosedEvent, None);
    BroadcastGrows(closed, ClosedEvent, None);
    var told := Broadcast(closed, ClosedEvent, None);
    ReleaseGrows(told, v.state);
    GrowsOn(v.channels, told.channels, ReleaseSeats(told).channels, v.state);
  }

  lemma JoinGrows(v: RoomView, playerId: string, runnerFails: bool)
    requires RoomOk(v)
    ensures var w := JoinRoom(v, playerId, runnerFails).view;
            Grows(v.channels, w.channels, w.state)
  {
    hide Grows, InGame, RunEngine, NewGame, ChannelsOk, DeliverTo, NotifyOthers, Broadcast;
    GrowsNot(v.channels, v.state);
    if v.phase != Closed {
      var found := SeatOf(v, playerId);
      if found.Some? {
        var p := found.value;
        if !v.seats[p].connected {
          ReconnectGrows(v, p, playerId);
        }
      } else if !BothSeated(v.seats) {
        var p := if Dark !in v.seats then Dark else Light;
        TakeSeatGrows(v, p, playerId, runnerFails);
      }
    }
  }

  lemma ReconnectGrows(v: RoomView, p: Player, playerId: string)
    requires RoomOk(v) && p in v.seats && !v.seats[p].connected
    ensures Grows(v.channels, Reconnect(v, p, playerId).view.channels, v.state)
  {
    hide Grows, InGame, ChannelsOk, DeliverTo, NotifyOthers;
    SitDownKeepsChannelsOk(v, p, playerId);
    SitDownGrows(v, p, playerId, v.state);
    var w := SitDown(v, p, playerId);
    var phased := w.(phase := if v.phase == Suspended && BothConnected(w.seats) then InPlay else v.phase);
    SamePhaselessChannels(w, phased);
    var greeted := DeliverTo(phased, p, StateEvent, None);
    DeliverGrows(phased, p, StateEvent, None);
    NotifyGrows(greeted, playerId, OpponentReturned);
    GrowsOn(v.channels, w.channels, greeted.channels, v.state);
    GrowsOn(v.channels, greeted.channels, NotifyOthers(greeted, playerId, OpponentReturned).channels, v.state);
  }

  lemma TakeSeatGrows(v: RoomView, p: Player, playerId: string, runnerFails: bool)
    requires RoomOk(v) && p !in v.seats
    ensures var w := TakeSeat(v, p, playerId, runnerFails).view;
            Grows(v.channels, w.channels, w.state)
  {
    hide Grows, InGame, NewGame, RunEngine, ChannelsOk, DeliverTo, Broadcast;
    GrowsNot(v.channels, v.state);
    SitDownKeepsChannelsOk(v, p, playerId);
    var w := SitDown(v, p, playerId);
    if !BothSeated(w.seats) {
      var waiting := w.(phase := Waiting);
      SamePhaselessChannels(w, waiting);
      SitDownGrows(v, p, playerId, v.state);
      DeliverGrows(waiting, p, WaitingEvent, None);
      GrowsOn(v.channels, w.channels, DeliverTo(waiting, p, WaitingEvent, None).channels, v.state);
    } else {
      var answer := if runnerFails then Failed else RunEngine(NewGameRequest(v.id, v.seed));
      if answer.Answer? && answer.response.ok && answer.response.state.Some? {
        var st := answer.response.state;
        var started := w.(state := st, phase := InPlay);
        SamePhaselessChannels(w, started);
        SitDownGrows(v, p, playerId, st);
        BroadcastGrows(started, MatchedEvent, None);
        GrowsOn(v.channels, w.channels, Broadcast(started, MatchedEvent, None).channels, st);
      }
    }
  }

  lemma ConfirmGrows(v: RoomView, st: State, e: Option<Event>)
    requires RoomOk(v)
    ensures Grows(v.channels, Confirm(v, st, e).channels, Some(st))
  {
    hide Grows, InGame, Broadcast, AllUsable;
    OkChannels(v);
    ChannelsUsable(v);
    var moved := v.(state := Some(st), phase := if st.phase == Finished then Closed else v.phase);
    BroadcastGrows(moved, StateEvent, e);
    var told := Broadcast(moved, StateEvent, e);
    BroadcastGrows(told, ClosedEvent, None);
    GrowsOn(v.channels, told.channels, Broadcast(told, ClosedEvent, None).channels, Some(st));
  }

  lemma SubmitGrows(v: RoomView, playerId: string, c: Command, runnerFails: bool)
    requires RoomOk(v)
    ensures var w := SubmitRoom(v, playerId, c, runnerFails).view;
            Grows(v.channels, w.channels, w.state)
  {
    hide Grows, RoomOk, RunEngine, Confirm, CommandError;
    GrowsNot(v.channels, v.state);
    var r := SubmitRoom(v, playerId, c, runnerFails);
    if r.view != v {
      var response := r.answer.response;
      ConfirmGrows(v, response.state.value, response.event);
      ConfirmSets(v, response.state.value, response.event);
    }
  }

  lemma ConfirmSets(v: RoomView, st: State, e: Option<Event>)
    requires RoomOk(v)
    ensures var w := Confirm(v, st, e);
            w == v.(state := Some(st), phase := if st.phase == Finished then Closed else v.phase,
                    channels := w.channels)
  {
    hide Broadcast;
  }

  lemma LeaveGrows(v: RoomView, playerId: string)
    requires RoomOk(v)
    ensures Grows(v.channels, LeaveRoom(v, playerId).view.channels, v.state)
  {
    hide Grows, InGame, ChannelsOk, NotifyOthers, CloseRoom, Disconnect;
    GrowsNot(v.channels, v.state);
    var found := SeatOf(v, playerId);
    if found.Some? {
      var p := found.value;
      ChannelsUsable(v);
      DisconnectKeepsChannelsOk(v, p);
      DisconnectGrows(v, p, v.state);
      DisconnectOnly(v, p);
      var away := Disconnect(v, p);
      CloseGrows(away);
      GrowsOn(v.channels, away.channels, CloseRoom(away).channels, v.state);
      var phased := away.(phase := if v.phase == InPlay then Suspended else v.phase);
      SamePhaselessChannels(away, phased);
      NotifyGrows(phased, playerId, OpponentLeft);
      GrowsOn(v.channels, away.channels, NotifyOthers(phased, playerId, OpponentLeft).channels, v.state);
    }
  }

  lemma DisconnectOnly(v: RoomView, p: Player)
    requires p in v.seats && AllUsable(v.channels, v.seats)
    ensures var w := Disconnect(v, p);
            w == v.(seats := w.seats, channels := w.channels)
  {
  }

  /** Whatever happens, channels only grow, and what is new carries the state after the step. */
  lemma StepGrows(v: RoomView, op: RoomOp)
    requires RoomOk(v)
    ensures Grows(v.channels, StepRoom(v, op).channels, StepRoom(v, op).state)
  {
    hide Grows, RoomOk, JoinRoom, SubmitRoom, LeaveRoom, CloseRoom;
    match op {
      case JoinOp(playerId, fails) => JoinGrows(v, playerId, fails);
      case SubmitOp(playerId, c, fails) => SubmitGrows(v, playerId, c, fails);
      case LeaveOp(playerId) => LeaveGrows(v, playerId); LeaveKeepsState(v, playerId);
      case CloseOp => OkChannels(v); CloseGrows(v); CloseKeepsState(v);
      case TakeOp(i) => TakeGrows(v, i);
    }
  }

  lemma LeaveKeepsState(v: RoomView, playerId: string)
    requires RoomOk(v)
    ensures LeaveRoom(v, playerId).view.state == v.state
  {
    hide InGame, ChannelsOk, NotifyOthers, CloseRoom;
    var found := SeatOf(v, playerId);
    if found.Some? {
      ChannelsUsable(v);
      DisconnectKeepsChannelsOk(v, found.value);
      CloseKeepsState(Disconnect(v, found.value));
    }
  }

  lemma CloseKeepsState(v: RoomView)
    requires ChannelsOk(v)
    ensures CloseRoom(v).state == v.state
  {
    hide ChannelsOk;
    CloseKeepsChannelsOk(v);
  }

  lemma TakeGrows(v: RoomView, i: nat)
    ensures Grows(v.channels, TakeFrom(v, i).channels, TakeFrom(v, i).state)
  {
  }
}
