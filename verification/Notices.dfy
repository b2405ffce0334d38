/** What a room tells its players: which notice follows which operation, word for word, and why a
    submission is turned down. A notice is lost only when the receiver's buffer is full. */
module Notices {
  import opened Options
  import opened Protocol
  import opened Rules
  import opened Games
  import opened Contract
  import opened Harness
  import opened Events
  import opened Rooms
  import opened RoomRuns
  import opened Agreement
  import opened CatchingUp

  // ----- coming and going -------------------------------------------------------------

  /** Somebody else than this player sits here and is connected. */
  predicate OtherConnected(v: RoomView, playerId: string, p: Player) {
    p in v.seats && v.seats[p].playerId != playerId && v.seats[p].connected
  }

  /** A departure is told to the other player, with the state as it is; and the match is suspended
      if it was being played. */
  lemma DepartureIsTold(v: RoomView, playerId: string, p: Player)
    requires RoomOk(v) && SeatOf(v, playerId).Some? && OtherConnected(v, playerId, p)
    ensures var l := LeaveRoom(v, playerId);
            && v.seats[p].events.Some?
            && var i := v.seats[p].events.value;
               && i < |v.channels| && i < |l.view.channels|
               && l.view.channels[i] == Put(v.channels[i], RoomEvent(OpponentLeft, v.id, p, v.state, None))
               && l.result == Departed(false) && l.view.state == v.state
               && (v.phase == InPlay ==> l.view.phase == Suspended)
  {
    hide InGame, CloseRoom, ChannelsOk, NotifyOthers, Disconnect, Put;
    var q := SeatOf(v, playerId).value;
    OkChannels(v);
    SeatsApart(v, p, q);
    DisconnectKeepsChannelsOk(v, q);
    ChannelsUsable(v);
    DisconnectLeaves(v, q, p);
    var away := Disconnect(v, q);
    var phased := away.(phase := if v.phase == InPlay then Suspended else v.phase);
    SamePhaselessChannels(away, phased);
    NotifyReaches(phased, playerId, OpponentLeft, p);
  }

  /** The player who leaves is told nothing more: the channel is closed as it is. */
  lemma LeaverIsCutOff(v: RoomView, playerId: string)
    requires RoomOk(v) && SeatOf(v, playerId).Some? && v.seats[SeatOf(v, playerId).value].connected
    ensures var l, s := LeaveRoom(v, playerId).view, v.seats[SeatOf(v, playerId).value];
            && s.events.Some? && s.events.value < |v.channels| && s.events.value < |l.channels|
            && l.channels[s.events.value] == v.channels[s.events.value].(closed := true)
  {
    hide InGame, ChannelsOk;
    OkChannels(v);
    ChannelsUsable(v);
  }

  lemma StrangersCannotLeave(v: RoomView, playerId: string)
    requires RoomOk(v) && !SitsAt(v, Dark, playerId) && !SitsAt(v, Light, playerId)
    ensures LeaveRoom(v, playerId) == RoomLeave(v, NotSeated)
  {
    hide InGame, ChannelsOk, CloseRoom, NotifyOthers;
  }

  /** A return is told to the other player, with the state as it is. */
  lemma ReturnIsTold(v: RoomView, playerId: string, runnerFails: bool, p: Player)
    requires RoomOk(v) && JoinRoom(v, playerId, runnerFails).result.Joined?
    requires JoinRoom(v, playerId, runnerFails).result.reconnected && OtherConnected(v, playerId, p)
    ensures var w := JoinRoom(v, playerId, runnerFails).view;
            && v.seats[p].events.Some?
            && var i := v.seats[p].events.value;
               && i < |v.channels| && i < |w.channels|
               && w.channels[i] == Put(v.channels[i], RoomEvent(OpponentReturned, v.id, p, v.state, None))
  {
    hide InGame, NewGame, RunEngine, ChannelsOk, NotifyOthers, DeliverTo, Put;
    var q := SeatOf(v, playerId).value;
    OkChannels(v);
    SeatsApart(v, p, q);
    SitDownKeepsChannelsOk(v, q, playerId);
    var seated := SitDown(v, q, playerId);
    var phased := seated.(phase := if v.phase == Suspended && BothConnected(seated.seats) then InPlay else v.phase);
    SamePhaselessChannels(seated, phased);
    DeliverKeepsChannelsOk(phased, q, StateEvent, None);
    var greeted := DeliverTo(phased, q, StateEvent, None);
    DeliverIs(phased, q, StateEvent, None, v.seats[p].events.value);
    NotifyReaches(greeted, playerId, OpponentReturned, p);
  }

  /** The first player to come takes the dark seat, in a new channel, and is told to wait. */
  lemma FirstIsToldToWait(v: RoomView, playerId: string, runnerFails: bool)
    requires RoomOk(v) && v.phase != Closed && v.seats == map[]
    ensures var r := JoinRoom(v, playerId, runnerFails);
            && r.result == Joined(Dark, |v.channels|, false)
            && r.view.seats == map[Dark := Seat(playerId, Some(|v.channels|), true)]
            && r.view.phase == Waiting && r.view.state == None
            && r.view.channels == v.channels + [Channel([RoomEvent(WaitingEvent, v.id, Dark, None, None)], 0, false)]
  {
    hide InGame, NewGame, RunEngine, ChannelsOk;
    var told := Channel([RoomEvent(WaitingEvent, v.id, Dark, None, None)], 0, false);
    assert (v.channels + [Channel([], 0, false)])[|v.channels| := told] == v.channels + [told];
    assert [] + [RoomEvent(WaitingEvent, v.id, Dark, None, None)] == told.sent;
  }

  // ----- a move -----------------------------------------------------------------------

  /** An accepted command is told to every connected player as the new state with the engine's
      event, and the last one also as the end of the match, in this order and nothing else. */
  lemma MoveIsTold(v: RoomView, playerId: string, c: Command, p: Player)
    requires RoomOk(v) && p in v.seats && v.seats[p].connected
    requires MakesMove(v, SubmitOp(playerId, c, false))
    ensures v.state.Some? && v.seats[p].events.Some? && v.seats[p].events.value < |v.channels|
    ensures var next, e := Step(v.state.value, c), Apply(v.state.value, c).event;
            var i, w := v.seats[p].events.value, SubmitRoom(v, playerId, c, false).view;
            var told := Put(v.channels[i], RoomEvent(StateEvent, v.id, p, Some(next), e));
            && i < |w.channels|
            && w.channels[i] == if next.phase == Finished
                                then Put(told, RoomEvent(ClosedEvent, v.id, p, Some(next), None)) else told
  {
    hide InGame, NewGame, RunEngine, CommandError, Apply, Step, Broadcast, ChannelsOk, Put, SubmitRoom;
    SubmitIsStepOrNothing(v, playerId, c, false);
    StepIsApply(v.state.value, c);
    SubmitConfirms(v, playerId, c);
    ConfirmTells(v, Step(v.state.value, c), Apply(v.state.value, c).event, p);
  }

  lemma ConfirmTells(v: RoomView, s: State, e: Option<Event>, p: Player)
    requires RoomOk(v) && p in v.seats && v.seats[p].connected && v.phase != Closed
    ensures v.seats[p].events.Some? && v.seats[p].events.value < |v.channels|
    ensures var i, w := v.seats[p].events.value, Confirm(v, s, e);
            var told := Put(v.channels[i], RoomEvent(StateEvent, v.id, p, Some(s), e));
            && i < |w.channels|
            && w.channels[i] == if s.phase == Finished
                                then Put(told, RoomEvent(ClosedEvent, v.id, p, Some(s), None)) else told
  {
    hide InGame, Broadcast, ChannelsOk, Put;
    OkChannels(v);
    SeatsApart(v, p, p);
    var moved := v.(state := Some(s), phase := if s.phase == Finished then Closed else v.phase);
    SamePhaselessChannels(v, moved);
    BroadcastReaches(moved, StateEvent, e, p);
    BroadcastKeepsChannelsOk(moved, StateEvent, e);
    BroadcastReaches(Broadcast(moved, StateEvent, e), ClosedEvent, None, p);
  }

  // ----- the end of a room ------------------------------------------------------------

  /** When an open room is closed from outside, every connected player is told, and then every
      channel is closed. */
  lemma ClosingIsTold(v: RoomView, p: Player)
    requires RoomOk(v) && v.phase != Closed && p in v.seats && v.seats[p].connected
    ensures v.seats[p].events.Some? && v.seats[p].events.value < |v.channels|
    ensures var i, w := v.seats[p].events.value, CloseRoom(v);
            && i < |w.channels| && w.phase == Closed
            && w.channels[i]
               == Put(v.channels[i], RoomEvent(ClosedEvent, v.id, p, v.state, None)).(closed := true)
  {
    hide InGame, Broadcast, ChannelsOk, Put, ReleaseSeats;
    OkChannels(v);
    SeatsApart(v, p, p);
    var closed := v.(phase := Closed);
    SamePhaselessChannels(v, closed);
    BroadcastKeepsChannelsOk(closed, ClosedEvent, None);
    BroadcastReaches(closed, ClosedEvent, None, p);
    ReleaseCloses(Broadcast(closed, ClosedEvent, None), p);
  }

  lemma ReleaseCloses(v: RoomView, p: Player)
    requires ChannelsOk(v) && (p == Dark || p == Light) && p in v.seats && v.seats[p].connected
    ensures v.seats[p].events.Some? && v.seats[p].events.value < |v.channels|
    ensures var i, w := v.seats[p].events.value, ReleaseSeats(v);
            i < |w.channels| && w.phase == v.phase && w.channels[i] == v.channels[i].(closed := true)
  {
    hide ChannelsOk, Disconnect;
    SeatsApart(v, p, if p == Dark then Light else Dark);
    ChannelsUsable(v);
    if Dark in v.seats {
      DisconnectKeepsChannelsOk(v, Dark);
      ChannelsUsable(Disconnect(v, Dark));
      DisconnectTouches(v, Dark, v.seats[p].events.value);
    }
    var d := if Dark in v.seats then Disconnect(v, Dark) else v;
    if Light in v.seats {
      DisconnectTouches(d, Light, v.seats[p].events.value);
    }
  }

  /** What taking one seat off its channel does to any one channel, and to the other seat. */
  lemma DisconnectTouches(v: RoomView, q: Player, i: nat)
    requires q in v.seats && AllUsable(v.channels, v.seats) && i < |v.channels|
    ensures var w := Disconnect(v, q);
            && w.phase == v.phase && |w.channels| == |v.channels| && w.seats.Keys == v.seats.Keys
            && (forall r :: r in v.seats && r != q ==> w.seats[r] == v.seats[r])
            && w.channels[i] == if v.seats[q].events == Some(i) then v.channels[i].(closed := true) else v.channels[i]
  {
  }

  // ----- why a submission is turned down ----------------------------------------------

  predicate SitsAt(v: RoomView, p: Player, playerId: string) {
    p in v.seats && v.seats[p].playerId == playerId
  }

  /** What the server's own check of a command makes of it, before the engine sees it. */
  function CheckOf(c: Command): Option<ErrorCode> {
    if IsMalformed(c) || (c.kind == PassType && (c.row.Some? || c.col.Some?)) then Some(InvalidCommand)
    else if c.kind == PlaceType && !InBounds(c.row.value, c.col.value) then Some(InvalidCoordinate)
    else None
  }

  /** The reason of a refusal in a room after n accepted commands, from the first that applies: the
      room's own, the server's check, the engine's. */
  function RefusalOf(v: RoomView, n: nat, playerId: string, c: Command): ErrorCode
    requires v.state.Some? ==> |v.state.value.board| == BOARD_CELLS
  {
    if !SitsAt(v, Dark, playerId) && !SitsAt(v, Light, playerId) then InvalidRequest
    else if v.phase == Closed then GameFinished
    else if v.state.None? then InvalidState
    else if !SitsAt(v, c.player, playerId) then NotYourTurn
    else if CheckOf(c).Some? then CheckOf(c).value
    else ReasonOf(v.state.value.board, n, c)
  }

  lemma CheckIs(c: Command)
    ensures CommandError(c) == CheckOf(c)
  {
  }

  /** What a refused submission is answered, whether or not the engine runs. */
  lemma RefusedByRoom(v: RoomView, playerId: string, c: Command, runnerFails: bool)
    requires RoomOk(v) && !MakesMove(v, SubmitOp(playerId, c, runnerFails))
    ensures var s := SubmitRoom(v, playerId, c, runnerFails);
            && s.view == v
            && s.answer ==
               if !SitsAt(v, Dark, playerId) && !SitsAt(v, Light, playerId)
               then Answer(Rejected(InvalidRequest, v.state))
               else if v.phase == Closed then Answer(Rejected(GameFinished, v.state))
               else if v.state.None? then Answer(Rejected(InvalidState, None))
               else if !SitsAt(v, c.player, playerId) then Answer(Rejected(NotYourTurn, v.state))
               else if CheckOf(c).Some? then Answer(Rejected(CheckOf(c).value, v.state))
               else if runnerFails then Failed
               else Answer(Apply(v.state.value, c))
  {
    hide InGame, RunEngine, Apply, Step, CommandError, CheckOf, ChannelsOk, Confirm, Accepts;
    SubmitIsStepOrNothing(v, playerId, c, runnerFails);
    CheckIs(c);
    if v.state.Some? && CommandError(c).None? {
      EngineInRoom(v.state.value, v.id, v.seed, c);
    }
  }

  /** Over whole lives: a refused submission changes nothing, and its sender gets the code of the
      first reason that applies, with the room's unchanged state. */
  lemma RefusedSubmissions(id: string, seed: int, ops: seq<RoomOp>, playerId: string, c: Command)
    requires !MakesMove(Life(id, seed, ops), SubmitOp(playerId, c, false))
    ensures var v, n := Life(id, seed, ops), |Ledger(id, seed, ops)|;
            var s := SubmitRoom(v, playerId, c, false);
            && (v.state.Some? ==> |v.state.value.board| == BOARD_CELLS)
            && s.view == v
            && s.answer == Answer(Response(VERSION, false, v.state, None, Some(RefusalOf(v, n, playerId, c))))
  {
    hide RoomOk, Life, Ledger, NewGame, Run, AcceptedOf, Apply, SubmitRoom, LegalMoves, PieceCount, CheckOf,
         ReasonOf, ChannelAgrees;
    LifeAgrees(id, seed, ops);
    var v, cs := Life(id, seed, ops), Ledger(id, seed, ops);
    RefusedByRoom(v, playerId, c, false);
    if v.state.Some? {
      NamedRoom(v);
      WholeGame(id, seed, cs);
      if CheckOf(c).None? && SitsAt(v, c.player, playerId) && v.phase != Closed {
        NotMalformed(c);
        NotAccepted(v, playerId, c);
        RefusalsAreReasoned(id, seed, cs, c);
      }
    }
  }

  lemma NamedRoom(v: RoomView)
    requires RoomOk(v) && v.state.Some?
    ensures v.id != ""
  {
  }

  lemma NotMalformed(c: Command)
    requires CheckOf(c).None?
    ensures !IsMalformed(c)
  {
  }

  lemma NotAccepted(v: RoomView, playerId: string, c: Command)
    requires RoomOk(v) && v.state.Some? && v.phase != Closed && SitsAt(v, c.player, playerId) && CheckOf(c).None?
    requires !MakesMove(v, SubmitOp(playerId, c, false))
    ensures !Accepts(v.state.value, c)
  {
    hide InGame, Accepts, MakesMove, CommandError, CheckOf, ChannelsOk;
    SubmitAcceptsIff(v, playerId, c, false);
    CheckIs(c);
  }
}
