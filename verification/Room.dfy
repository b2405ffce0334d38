/** One match: seats, phases, delivery channels and the authoritative state
    (server/internal/match/room.go).

    Every operation of a room holds its lock from beginning to end, so an operation is one atomic
    step. The class changes its fields as the source does; each of its methods is proved to take
    the room from its old view to the view that a specification function gives, and the laws of
    rooms are proved about those functions. */
module Rooms {
  import opened Options
  import opened Protocol
  import opened Rules
  import opened Games
  import opened Contract

  const EVENT_BUFFER := 16

  datatype RoomPhase = Waiting | InPlay | Suspended | Closed

  datatype RoomEventKind = WaitingEvent | MatchedEvent | StateEvent | OpponentLeft | OpponentReturned | ClosedEvent

  datatype RoomEvent = RoomEvent(kind: RoomEventKind, roomId: string, seat: Player, state: Option<State>,
                                 gameEvent: Option<Event>)

  /** A delivery channel: everything ever put in it, how much the receiver has taken out, and
      whether it is closed. What lies in between is the buffer. */
  datatype Channel = Channel(sent: seq<RoomEvent>, taken: nat, closed: bool)

  /** A seat keeps its player when the player is away; events is the channel it delivers to. */
  datatype Seat = Seat(playerId: string, events: Option<nat>, connected: bool)

  /** A room by value; channels holds every channel the room has handed out. */
  datatype RoomView = RoomView(id: string, seed: int, seats: map<Player, Seat>, state: Option<State>,
                               phase: RoomPhase, channels: seq<Channel>)

  function FreshRoom(id: string, seed: int): RoomView {
    RoomView(id, seed, map[], None, Waiting, [])
  }

  // ----- delivery ---------------------------------------------------------------------

  /** A seat delivers only to an open channel: sending on a closed one would panic. */
  predicate Usable(channels: seq<Channel>, s: Seat) {
    s.events.Some? ==> s.events.value < |channels| && !channels[s.events.value].closed
  }

  /** Nothing but what has been sent differs. */
  predicate OnlySent(before: seq<Channel>, after: seq<Channel>) {
    && |before| == |after|
    && forall i :: 0 <= i < |before| ==>
         && after[i].closed == before[i].closed && after[i].taken == before[i].taken
         && before[i].sent <= after[i].sent
  }

  /** Delivers to one seat; a full buffer drops the event. */
  function Deliver(channels: seq<Channel>, s: Seat, e: RoomEvent): (r: seq<Channel>)
    requires Usable(channels, s)
    ensures OnlySent(channels, r)
  {
    if !s.connected || s.events.None? then channels
    else
      var c := channels[s.events.value];
      if |c.sent| - c.taken < EVENT_BUFFER then channels[s.events.value := c.(sent := c.sent + [e])]
      else channels
  }

  predicate AllUsable(channels: seq<Channel>, seats: map<Player, Seat>) {
    forall p :: p in seats ==> Usable(channels, seats[p])
  }

  function EventFor(v: RoomView, p: Player, kind: RoomEventKind, gameEvent: Option<Event>): RoomEvent {
    RoomEvent(kind, v.id, p, v.state, gameEvent)
  }

  function DeliverTo(v: RoomView, p: Player, kind: RoomEventKind, gameEvent: Option<Event>): (r: RoomView)
    requires AllUsable(v.channels, v.seats)
    ensures AllUsable(r.channels, r.seats) && OnlySent(v.channels, r.channels)
    ensures r == v.(channels := r.channels)
  {
    if p in v.seats then v.(channels := Deliver(v.channels, v.seats[p], EventFor(v, p, kind, gameEvent))) else v
  }

  /** To every connected seat. */
  function Broadcast(v: RoomView, kind: RoomEventKind, gameEvent: Option<Event>): (r: RoomView)
    requires AllUsable(v.channels, v.seats)
    ensures AllUsable(r.channels, r.seats) && OnlySent(v.channels, r.channels)
    ensures r == v.(channels := r.channels)
  {
    DeliverTo(DeliverTo(v, Dark, kind, gameEvent), Light, kind, gameEvent)
  }

  /** To the connected seats of everybody but one player. */
  function NotifyOthers(v: RoomView, playerId: string, kind: RoomEventKind): (r: RoomView)
    requires AllUsable(v.channels, v.seats)
    ensures AllUsable(r.channels, r.seats) && OnlySent(v.channels, r.channels)
    ensures r == v.(channels := r.channels)
  {
    var d := if Dark in v.seats && v.seats[Dark].playerId != playerId then DeliverTo(v, Dark, kind, None) else v;
    if Light in v.seats && v.seats[Light].playerId != playerId then DeliverTo(d, Light, kind, None) else d
  }

  // ----- seats ------------------------------------------------------------------------

  function SeatOf(v: RoomView, playerId: string): (r: Option<Player>)
    ensures r.Some? ==> r.value in v.seats && v.seats[r.value].playerId == playerId
  {
    if Dark in v.seats && v.seats[Dark].playerId == playerId then Some(Dark)
    else if Light in v.seats && v.seats[Light].playerId == playerId then Some(Light)
    else None
  }

  predicate BothSeated(seats: map<Player, Seat>) {
    Dark in seats && Light in seats
  }

  predicate BothConnected(seats: map<Player, Seat>) {
    BothSeated(seats) && seats[Dark].connected && seats[Light].connected
  }

  predicate AnyConnected(seats: map<Player, Seat>) {
    (Dark in seats && seats[Dark].connected) || (Light in seats && seats[Light].connected)
  }

  // ----- the invariant ----------------------------------------------------------------

  /** The phase that the seats of a room that is not closed determine. */
  function PhaseOf(seats: map<Player, Seat>): RoomPhase {
    if !BothSeated(seats) then Waiting else if BothConnected(seats) then InPlay else Suspended
  }

  ghost predicate RoomOk(v: RoomView) {
    && (forall p :: p in v.seats ==> p == Dark || p == Light)
    && (Light in v.seats ==> Dark in v.seats)
    && (BothSeated(v.seats) ==> v.seats[Dark].playerId != v.seats[Light].playerId)
    && ChannelsOk(v)
    && (v.phase != Closed ==> v.phase == PhaseOf(v.seats) && (v.seats != map[] ==> AnyConnected(v.seats)))
    && (v.state.Some? <==> BothSeated(v.seats))
    && (v.state.Some? ==> v.id != "" && InGame(v.state.value, v.id, v.seed))
    && (v.state.Some? && v.state.value.phase == Finished ==> v.phase == Closed)
  }

  /** A seat is connected iff it has a channel, a seated channel is open and no other seat's, and
      every open channel is some seat's; no buffer is over its bound. */
  ghost predicate ChannelsOk(v: RoomView) {
    && (forall p :: p in v.seats ==> (v.seats[p].connected <==> v.seats[p].events.Some?))
    && AllUsable(v.channels, v.seats)
    && (forall p, q :: p in v.seats && q in v.seats && p != q && v.seats[p].events.Some?
          ==> v.seats[p].events != v.seats[q].events)
    && (forall i :: 0 <= i < |v.channels| && !v.channels[i].closed ==> IsSeated(v.seats, i))
    && (forall i :: 0 <= i < |v.channels|
          ==> v.channels[i].taken <= |v.channels[i].sent| <= v.channels[i].taken + EVENT_BUFFER)
  }

  predicate IsSeated(seats: map<Player, Seat>, channel: nat) {
    exists p :: p in seats && seats[p].events == Some(channel)
  }

  // ----- the operations by value ------------------------------------------------------

  datatype JoinResult = Joined(seat: Player, channel: nat, reconnected: bool) | JoinRefused

  datatype RoomJoin = RoomJoin(view: RoomView, result: JoinResult)

  /** Opens a channel and gives it to a seat. */
  function SitDown(v: RoomView, p: Player, playerId: string): RoomView {
    v.(channels := v.channels + [Channel([], 0, false)],
       seats := v.seats[p := Seat(playerId, Some(|v.channels|), true)])
  }

  function Reconnect(v: RoomView, p: Player, playerId: string): RoomJoin
    requires RoomOk(v) && p in v.seats && !v.seats[p].connected
  {
    var seated := SitDown(v, p, playerId);
    var phased := seated.(phase := if v.phase == Suspended && BothConnected(seated.seats) then InPlay else v.phase);
    var greeted := DeliverTo(phased, p, StateEvent, None);
    RoomJoin(NotifyOthers(greeted, playerId, OpponentReturned), Joined(p, |v.channels|, true))
  }

  function TakeSeat(v: RoomView, p: Player, playerId: string, runnerFails: bool): RoomJoin
    requires RoomOk(v) && p !in v.seats
  {
    var seated := SitDown(v, p, playerId);
    if !BothSeated(seated.seats) then
      RoomJoin(DeliverTo(seated.(phase := Waiting), p, WaitingEvent, None), Joined(p, |v.channels|, false))
    else
      var answer := if runnerFails then Failed else RunEngine(NewGameRequest(v.id, v.seed));
      if answer.Failed? || !answer.response.ok || answer.response.state.None? then RoomJoin(v, JoinRefused)
      else
        RoomJoin(Broadcast(seated.(state := answer.response.state, phase := InPlay), MatchedEvent, None),
                 Joined(p, |v.channels|, false))
  }

  function JoinRoom(v: RoomView, playerId: string, runnerFails: bool): RoomJoin
    requires RoomOk(v)
  {
    if v.phase == Closed then RoomJoin(v, JoinRefused)
    else
      match SeatOf(v, playerId)
      case Some(p) => if v.seats[p].connected then RoomJoin(v, JoinRefused) else Reconnect(v, p, playerId)
      case None =>
        if Dark !in v.seats then TakeSeat(v, Dark, playerId, runnerFails)
        else if Light !in v.seats then TakeSeat(v, Light, playerId, runnerFails)
        else RoomJoin(v, JoinRefused)
  }

  datatype RoomSubmit = RoomSubmit(view: RoomView, answer: RunnerAnswer)

  function Refuse(v: RoomView, code: ErrorCode, s: Option<State>): RoomSubmit {
    RoomSubmit(v, Answer(Rejected(code, s)))
  }

  function SubmitRoom(v: RoomView, playerId: string, c: Command, runnerFails: bool): RoomSubmit
    requires RoomOk(v)
  {
    match SeatOf(v, playerId)
    case None => Refuse(v, InvalidRequest, v.state)
    case Some(p) =>
      if v.phase == Closed then Refuse(v, GameFinished, v.state)
      else if v.state.None? then Refuse(v, InvalidState, None)
      else if c.player != p then Refuse(v, NotYourTurn, v.state)
      else if CommandError(c).Some? then Refuse(v, CommandError(c).value, v.state)
      else
        var answer := if runnerFails then Failed else RunEngine(ApplyCommandRequest(v.state.value, c));
        if answer.Failed? then RoomSubmit(v, Failed)
        else
          var r := answer.response;
          if !r.ok || r.state.None? then
            RoomSubmit(v, Answer(if r.state.None? then r.(state := v.state) else r))
          else RoomSubmit(Confirm(v, r.state.value, r.event), Answer(r))
  }

  /** An accepted command: the new state, and its delivery to both seats. */
  function Confirm(v: RoomView, s: State, e: Option<Event>): RoomView
    requires RoomOk(v)
  {
    var moved := v.(state := Some(s), phase := if s.phase == Finished then Closed else v.phase);
    var told := Broadcast(moved, StateEvent, e);
    if told.phase == Closed then Broadcast(told, ClosedEvent, None) else told
  }

  function CloseChannel(channels: seq<Channel>, i: nat): seq<Channel>
    requires i < |channels| && !channels[i].closed
  {
    channels[i := channels[i].(closed := true)]
  }

  /** Takes a connected player off the seat's channel; the seat itself stays. */
  function Disconnect(v: RoomView, p: Player): RoomView
    requires p in v.seats && AllUsable(v.channels, v.seats)
  {
    var s := v.seats[p];
    v.(channels := if s.events.Some? then CloseChannel(v.channels, s.events.value) else v.channels,
       seats := v.seats[p := s.(events := None, connected := false)])
  }

  lemma DisconnectKeepsChannelsOk(v: RoomView, p: Player)
    requires ChannelsOk(v) && p in v.seats
    ensures ChannelsOk(Disconnect(v, p))
  {
    hide IsSeated, AllUsable;
    var w := Disconnect(v, p);
    DisconnectStaysUsable(v, p);
    forall i | 0 <= i < |w.channels| && !w.channels[i].closed
      ensures IsSeated(w.seats, i)
    {
      OthersStaySeated(v.seats, w.seats, p, i);
    }
  }

  lemma DisconnectStaysUsable(v: RoomView, p: Player)
    requires AllUsable(v.channels, v.seats) && p in v.seats
    requires forall q :: q in v.seats && q != p && v.seats[p].events.Some? ==> v.seats[q].events != v.seats[p].events
    ensures AllUsable(Disconnect(v, p).channels, Disconnect(v, p).seats)
    ensures v.seats[p].events.Some? ==>
              v.seats[p].events.value < |v.channels| && Disconnect(v, p).channels[v.seats[p].events.value].closed
  {
  }

  lemma OthersStaySeated(before: map<Player, Seat>, after: map<Player, Seat>, p: Player, channel: nat)
    requires p in before && p in after && after == before[p := after[p]]
    requires IsSeated(before, channel) && before[p].events != Some(channel)
    ensures IsSeated(after, channel)
  {
    var q :| q in before && before[q].events == Some(channel);
    assert q in after && after[q].events == Some(channel);
  }

  /** releaseSeatsLocked: every seat's channel is closed. */
  function ReleaseSeats(v: RoomView): RoomView
    requires ChannelsOk(v)
  {
    var d := if Dark in v.seats then (DisconnectKeepsChannelsOk(v, Dark); Disconnect(v, Dark)) else v;
    if Light in v.seats then Disconnect(d, Light) else d
  }

  function CloseRoom(v: RoomView): RoomView
    requires ChannelsOk(v)
  {
    if v.phase == Closed then ReleaseSeats(v)
    else
      var told := Broadcast(v.(phase := Closed), ClosedEvent, None);
      BroadcastKeepsChannelsOk(v.(phase := Closed), ClosedEvent, None);
      ReleaseSeats(told)
  }

  lemma BroadcastKeepsChannelsOk(v: RoomView, kind: RoomEventKind, e: Option<Event>)
    requires ChannelsOk(v)
    ensures ChannelsOk(Broadcast(v, kind, e))
  {
  }

  /** empty: nobody is connected any more. */
  datatype LeaveResult = NotSeated | Departed(empty: bool)

  datatype RoomLeave = RoomLeave(view: RoomView, result: LeaveResult)

  function LeaveRoom(v: RoomView, playerId: string): RoomLeave
    requires RoomOk(v)
  {
    match SeatOf(v, playerId)
    case None => RoomLeave(v, NotSeated)
    case Some(p) =>
      var away := Disconnect(v, p);
      DisconnectKeepsChannelsOk(v, p);
      if !AnyConnected(away.seats) then RoomLeave(CloseRoom(away), Departed(true))
      else
        var phased := away.(phase := if v.phase == InPlay then Suspended else v.phase);
        RoomLeave(NotifyOthers(phased, playerId, OpponentLeft), Departed(false))
  }

  /** The receiver of a channel takes the oldest event out of its buffer. */
  function TakeFrom(v: RoomView, i: nat): RoomView {
    if i < |v.channels| && v.channels[i].taken < |v.channels[i].sent|
    then v.(channels := v.channels[i := v.channels[i].(taken := v.channels[i].taken + 1)])
    else v
  }

  lemma SeatedChannelsUsable(v: RoomView)
    requires ChannelsOk(v)
    ensures AllUsable(v.channels, v.seats)
  {
  }

  // ----- the room itself --------------------------------------------------------------

  class Room {
    const id: string
    const seed: int
    var seats: map<Player, Seat>
    var state: Option<State>
    var phase: RoomPhase
    var channels: seq<Channel>

    function View(): RoomView
      reads this
    {
      RoomView(id, seed, seats, state, phase, channels)
    }

    constructor (id: string, seed: int)
      ensures View() == FreshRoom(id, seed)
    {
      this.id, this.seed := id, seed;
      seats, state, phase, channels := map[], None, Waiting, [];
    }

    /** Sends on a seat's channel, or drops the event when the buffer is full. */
    method Send(p: Player, kind: RoomEventKind, gameEvent: Option<Event>)
      requires AllUsable(channels, seats)
      modifies this`channels
      ensures View() == DeliverTo(old(View()), p, kind, gameEvent)
    {
      if p in seats && seats[p].connected && seats[p].events.Some? {
        var i := seats[p].events.value;
        if |channels[i].sent| - channels[i].taken < EVENT_BUFFER {
          var event := RoomEvent(kind, id, p, state, gameEvent);
          channels := channels[i := channels[i].(sent := channels[i].sent + [event])];
        }
      }
    }

    method SendAll(kind: RoomEventKind, gameEvent: Option<Event>)
      requires AllUsable(channels, seats)
      modifies this`channels
      ensures View() == Broadcast(old(View()), kind, gameEvent)
    {
      Send(Dark, kind, gameEvent);
      Send(Light, kind, gameEvent);
    }

    method SendOthers(playerId: string, kind: RoomEventKind)
      requires AllUsable(channels, seats)
      modifies this`channels
      ensures View() == NotifyOthers(old(View()), playerId, kind)
    {
      if Dark in seats && seats[Dark].playerId != playerId {
        Send(Dark, kind, None);
      }
      if Light in seats && seats[Light].playerId != playerId {
        Send(Light, kind, None);
      }
    }

    /** Gives a seat a new channel and its player. */
    method OpenSeat(p: Player, playerId: string)
      requires AllUsable(channels, seats)
      modifies this`channels, this`seats
      ensures View() == SitDown(old(View()), p, playerId) && AllUsable(channels, seats)
    {
      var channel := |channels|;
      channels := channels + [Channel([], 0, false)];
      seats := seats[p := Seat(playerId, Some(channel), true)];
    }

    method Join(playerId: string, runnerFails: bool) returns (result: JoinResult)
      requires RoomOk(View())
      modifies this
      ensures RoomJoin(View(), result) == JoinRoom(old(View()), playerId, runnerFails)
    {
      hide InGame, NewGame, RunEngine, ChannelsOk, AllUsable, DeliverTo, NotifyOthers, Broadcast;
      SeatedChannelsUsable(View());
      if phase == Closed {
        return JoinRefused;
      }
      var found := SeatOf(View(), playerId);
      var channel := |channels|;
      if found.Some? {
        var p := found.value;
        if seats[p].connected {
          return JoinRefused;
        }
        OpenSeat(p, playerId);
        if phase == Suspended && BothConnected(seats) {
          phase := InPlay;
        }
        Send(p, StateEvent, None);
        SendOthers(playerId, OpponentReturned);
        return Joined(p, channel, true);
      }
      if BothSeated(seats) {
        return JoinRefused;
      }
      var p := if Dark !in seats then Dark else Light;
      ghost var before := View();
      var handedOut := channels;
      OpenSeat(p, playerId);
      if !BothSeated(seats) {
        phase := Waiting;
        Send(p, WaitingEvent, None);
        return Joined(p, channel, false);
      }
      var answer := if runnerFails then Failed else RunEngine(NewGameRequest(id, seed));
      if answer.Failed? || !answer.response.ok || answer.response.state.None? {
        // The seat goes, and with it the channel that nobody was given.
        seats := seats - {p};
        channels := handedOut;
        assert View() == before;
        return JoinRefused;
      }
      state := answer.response.state;
      phase := InPlay;
      SendAll(MatchedEvent, None);
      return Joined(p, channel, false);
    }

    method Submit(playerId: string, c: Command, runnerFails: bool) returns (answer: RunnerAnswer)
      requires RoomOk(View())
      modifies this
      ensures RoomSubmit(View(), answer) == SubmitRoom(old(View()), playerId, c, runnerFails)
    {
      hide InGame, RunEngine, CommandError;
      var found := SeatOf(View(), playerId);
      if found.None? {
        return Answer(Rejected(InvalidRequest, state));
      }
      if phase == Closed {
        return Answer(Rejected(GameFinished, state));
      }
      if state.None? {
        return Answer(Rejected(InvalidState, None));
      }
      if c.player != found.value {
        return Answer(Rejected(NotYourTurn, state));
      }
      if CommandError(c).Some? {
        return Answer(Rejected(CommandError(c).value, state));
      }
      answer := if runnerFails then Failed else RunEngine(ApplyCommandRequest(state.value, c));
      if answer.Failed? {
        return;
      }
      var response := answer.response;
      if !response.ok || response.state.None? {
        if response.state.None? {
          response := response.(state := state);
        }
        return Answer(response);
      }
      state := response.state;
      if response.state.value.phase == Finished {
        phase := Closed;
      }
      SendAll(StateEvent, response.event);
      if phase == Closed {
        SendAll(ClosedEvent, None);
      }
    }

    /** Closes a seat's channel, once, and marks the player as away. */
    method Part(p: Player)
      requires p in seats && AllUsable(channels, seats)
      modifies this`channels, this`seats
      ensures View() == Disconnect(old(View()), p)
    {
      var s := seats[p];
      if s.events.Some? {
        var i := s.events.value;
        channels := channels[i := channels[i].(closed := true)];
      }
      seats := seats[p := s.(events := None, connected := false)];
    }

    method Release()
      requires ChannelsOk(View())
      modifies this`channels, this`seats
      ensures View() == ReleaseSeats(old(View()))
    {
      if Dark in seats {
        DisconnectKeepsChannelsOk(View(), Dark);
        Part(Dark);
      }
      if Light in seats {
        Part(Light);
      }
    }

    method Close()
      requires ChannelsOk(View())
      modifies this
      ensures View() == CloseRoom(old(View()))
    {
      if phase == Closed {
        Release();
        return;
      }
      phase := Closed;
      BroadcastKeepsChannelsOk(View(), ClosedEvent, None);
      SendAll(ClosedEvent, None);
      Release();
    }

    method Leave(playerId: string) returns (result: LeaveResult)
      requires RoomOk(View())
      modifies this
      ensures RoomLeave(View(), result) == LeaveRoom(old(View()), playerId)
    {
      hide InGame;
      var found := SeatOf(View(), playerId);
      if found.None? {
        return NotSeated;
      }
      DisconnectKeepsChannelsOk(View(), found.value);
      if seats[found.value].connected {
        Part(found.value);
      } else {
        assert seats == seats[found.value := seats[found.value].(events := None, connected := false)];
      }
      if !AnyConnected(seats) {
        Close();
        return Departed(true);
      }
      if phase == InPlay {
        phase := Suspended;
      }
      SendOthers(playerId, OpponentLeft);
      return Departed(false);
    }
  }
}
