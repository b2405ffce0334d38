/** Many callers at once (server/internal/match/manager.go).

    Join, Leave and Submit each take the manager's lock for a moment, let go of it, take the room's
    lock, and take the manager's lock again. Between two of its sections anybody else may run one.
    Joins are the exception among themselves: one lock is held through the whole of a Join. A run
    here is any order of such sections. A player who has joined leaves at most once for each time
    of joining, as the server's connection handler sees to; nothing else is assumed about callers. */
module Interleavings {
  import opened Options
  import opened Protocol
  import opened Rules
  import opened Games
  import opened Contract
  import opened Rooms
  import opened RoomRuns
  import opened Matches
  import opened Managers

  /** How far the one Join that may be under way has come. */
  datatype JoinStage =
    | NoJoin
    | JoinChosen(player: string, roomId: string)
    | JoinSeated(player: string, roomId: string)
    | JoinFailed(player: string, roomId: string)

  datatype LeaveStage =
    | LeaveFound(player: string, roomId: string)
    | LeaveDone(player: string, roomId: string, empty: bool)

  datatype Pending = Pending(player: string, roomId: string, command: Command)

  /** rooms holds every room ever made; members are the players who may yet call Leave. */
  datatype World = World(desk: Desk, rooms: map<string, RoomView>, join: JoinStage,
                         leaves: map<nat, LeaveStage>, submits: map<nat, Pending>, members: set<string>)

  const START := World(EMPTY_DESK, map[], NoJoin, map[], map[], {})

  datatype Act =
    | JoinBegin(player: string, seed: int)
    | JoinSit(runnerFails: bool)
    | JoinEnd
    | LeaveBegin(ticket: nat, player: string)
    | LeaveStand(ticket: nat)
    | LeaveEnd(ticket: nat)
    | SubmitBegin(ticket: nat, player: string, roomId: string, command: Command)
    | SubmitPlay(ticket: nat, runnerFails: bool)
    | Receive(roomId: string, channel: nat)

  // ----- what a room looks like from outside ------------------------------------------

  function Online(v: RoomView): set<string> {
    (if Dark in v.seats && v.seats[Dark].connected then {v.seats[Dark].playerId} else {})
    + (if Light in v.seats && v.seats[Light].connected then {v.seats[Light].playerId} else {})
  }

  predicate Paired(v: RoomView) {
    BothSeated(v.seats)
  }

  lemma SeatsShow(v: RoomView)
    requires RoomOk(v)
    ensures v.seats == map[] <==> Seated(v) == {}
    ensures Online(v) <= Seated(v)
    ensures v.phase != Closed && Seated(v) != {} ==> Online(v) != {}
    ensures forall x :: x in Seated(v) <==> SeatOf(v, x).Some?
  {
    hide InGame, ChannelsOk;
    if Seated(v) == {} {
      assert forall p :: p !in v.seats;
    }
  }

  /** The player is newly online and seated in a room that is open before and after; for the rest
      the room looks the same. */
  ghost predicate ComesOnline(v: RoomView, u: RoomView, playerId: string) {
    && v.phase != Closed && u.phase != Closed && playerId !in Online(v)
    && Seated(u) == Seated(v) + {playerId} && Online(u) == Online(v) + {playerId}
    && (Paired(v) ==> Paired(u))
  }

  lemma ReconnectEffect(v: RoomView, p: Player, playerId: string)
    requires RoomOk(v) && v.phase != Closed && SeatOf(v, playerId) == Some(p) && !v.seats[p].connected
    ensures ComesOnline(v, Reconnect(v, p, playerId).view, playerId)
    ensures Reconnect(v, p, playerId).view.id == v.id && Reconnect(v, p, playerId).result.Joined?
  {
    hide InGame, ChannelsOk, NotifyOthers, DeliverTo, AllUsable;
  }

  lemma TakeSeatEffect(v: RoomView, p: Player, playerId: string, runnerFails: bool)
    requires RoomOk(v) && v.phase != Closed && SeatOf(v, playerId).None?
    requires p == (if Dark !in v.seats then Dark else Light) && p !in v.seats
    ensures var j := TakeSeat(v, p, playerId, runnerFails);
            && j.view.id == v.id && (j.result.JoinRefused? ==> j.view == v)
            && (j.result.Joined? ==> ComesOnline(v, j.view, playerId))
            && (Seated(v) == {} ==> j.result.Joined?)
  {
    hide InGame, ChannelsOk, RunEngine, DeliverTo, Broadcast, AllUsable;
  }

  /** A player who sits down was not online; the room is open, and nobody else changes. */
  lemma JoinEffect(v: RoomView, playerId: string, runnerFails: bool)
    requires RoomOk(v)
    ensures var j := JoinRoom(v, playerId, runnerFails);
            && RoomOk(j.view) && j.view.id == v.id
            && (j.result.JoinRefused? ==> j.view == v)
            && (j.result.Joined? ==> ComesOnline(v, j.view, playerId))
            && (v.phase != Closed && Seated(v) == {} ==> j.result.Joined?)
  {
    hide RoomOk, Reconnect, TakeSeat, Online, Paired;
    JoinKeepsOk(v, playerId, runnerFails);
    if v.phase != Closed {
      match SeatOf(v, playerId)
      case Some(p) =>
        if !v.seats[p].connected {
          ReconnectEffect(v, p, playerId);
        }
      case None =>
        if !BothSeated(v.seats) {
          TakeSeatEffect(v, if Dark !in v.seats then Dark else Light, playerId, runnerFails);
        }
    }
  }

  lemma DisconnectEffect(v: RoomView, p: Player)
    requires RoomOk(v) && p in v.seats && AllUsable(v.channels, v.seats)
    ensures var w := Disconnect(v, p);
            && w == v.(seats := w.seats, channels := w.channels)
            && Seated(w) == Seated(v) && Online(w) == Online(v) - {v.seats[p].playerId} && (Paired(w) <==> Paired(v))
            && (AnyConnected(w.seats) <==> Online(w) != {})
  {
    hide InGame, ChannelsOk, AllUsable, CloseChannel;
  }

  lemma CloseEffect(v: RoomView)
    requires ChannelsOk(v)
    ensures var w := CloseRoom(v);
            w.phase == Closed && w.id == v.id && Seated(w) == Seated(v) && Online(w) == {} && (Paired(w) <==> Paired(v))
  {
    hide ChannelsOk, CloseRoom;
    CloseKeepsChannelsOk(v);
  }

  /** The player goes offline, and the room closes exactly when that leaves nobody online. */
  lemma LeaveEffect(v: RoomView, playerId: string)
    requires RoomOk(v) && playerId in Seated(v)
    ensures var l := LeaveRoom(v, playerId);
            && RoomOk(l.view) && l.view.id == v.id && l.result.Departed?
            && Seated(l.view) == Seated(v) && Online(l.view) == Online(v) - {playerId}
            && (Paired(l.view) <==> Paired(v))
            && (l.result.empty <==> Online(l.view) == {})
            && (l.view.phase == Closed <==> v.phase == Closed || l.result.empty)
  {
    hide RoomOk, ChannelsOk, CloseRoom, NotifyOthers, AllUsable, Disconnect, Seated, Online, Paired, AnyConnected;
    LeaveKeepsOk(v, playerId);
    SeatsShow(v);
    var p := SeatOf(v, playerId).value;
    OkChannels(v);
    ChannelsUsable(v);
    DisconnectKeepsChannelsOk(v, p);
    DisconnectEffect(v, p);
    var away := Disconnect(v, p);
    CloseEffect(away);
    var phased := away.(phase := if v.phase == InPlay then Suspended else v.phase);
    SamePhaselessChannels(away, phased);
    SameSeatsShow(phased, away);
    SameSeatsShow(NotifyOthers(phased, playerId, OpponentLeft), phased);
  }

  lemma SubmitEffect(v: RoomView, playerId: string, c: Command, runnerFails: bool)
    requires RoomOk(v)
    ensures var w := SubmitRoom(v, playerId, c, runnerFails).view;
            && RoomOk(w) && w.id == v.id && w.seats == v.seats && (v.phase == Closed ==> w.phase == Closed)
            && (Seated(v) == {} ==> w == v)
  {
    hide InGame, ChannelsOk, RunEngine, CommandError;
    SubmitKeepsOk(v, playerId, c, runnerFails);
  }

  lemma ReceiveEffect(v: RoomView, channel: nat)
    requires RoomOk(v)
    ensures var w := TakeFrom(v, channel);
            RoomOk(w) && w.id == v.id && w.seats == v.seats && w.phase == v.phase
  {
    hide RoomOk;
    TakeKeepsOk(v, channel);
  }

  // ----- the invariant ----------------------------------------------------------------

  ghost predicate RoomsSound(w: World) {
    && w.desk.registered <= w.rooms.Keys
    && (forall id :: id in w.rooms ==> RoomOk(w.rooms[id]) && w.rooms[id].id == id && id != "")
    && (forall n :: n > w.desk.nextId ==> RoomName(n) !in w.rooms)
    && (forall t :: t in w.leaves ==> w.leaves[t].roomId in w.rooms)
    && (forall t :: t in w.submits ==> w.submits[t].roomId in w.rooms)
    && (w.join != NoJoin ==> w.join.roomId in w.rooms)
  }

  /** The players' table leads to registered rooms in which they are seated, and to every such seat,
      but for one that a Join has taken and not yet entered in the table. */
  ghost predicate TableSound(w: World)
    requires RoomsSound(w)
  {
    && (forall x :: x in w.desk.players ==>
          w.desk.players[x] in w.desk.registered && x in Seated(w.rooms[w.desk.players[x]]))
    && (forall x, id :: id in w.desk.registered && x in Seated(w.rooms[id])
          ==> (x in w.desk.players && w.desk.players[x] == id) || w.join == JoinSeated(x, id))
  }

  ghost predicate JoinSound(w: World)
    requires RoomsSound(w)
  {
    && (w.join.JoinChosen? || w.join.JoinSeated? ==>
          forall id :: id in w.desk.registered && id != w.join.roomId ==> w.join.player !in Seated(w.rooms[id]))
    && (w.join.JoinFailed? ==> Seated(w.rooms[w.join.roomId]) != {})
    && (forall id :: id in w.rooms && Seated(w.rooms[id]) == {} ==>
          w.join.JoinChosen? && w.join.roomId == id && id in w.desk.registered && w.rooms[id].phase != Closed)
  }

  ghost predicate IsLeaving(leaves: map<nat, LeaveStage>, x: string, id: string) {
    exists t :: t in leaves && leaves[t] == LeaveFound(x, id)
  }

  /** Why a player is online in a room: a member there, about to become one, or about to leave it. */
  ghost predicate Accounted(w: World, x: string, id: string) {
    || (x in w.members && x in w.desk.players && w.desk.players[x] == id)
    || w.join == JoinSeated(x, id)
    || IsLeaving(w.leaves, x, id)
  }

  ghost predicate OnlineSound(w: World)
    requires RoomsSound(w)
  {
    && (forall x :: x in w.members ==> x in w.desk.players && w.desk.players[x] in w.rooms)
    && (forall x, id :: id in w.rooms ==> (x in Online(w.rooms[id]) <==> Accounted(w, x, id)))
    && (w.join.JoinSeated? ==> w.join.player !in w.members)
    && (forall t :: t in w.leaves && w.leaves[t].LeaveFound? ==>
          && w.leaves[t].player !in w.members
          && !(w.join.JoinSeated? && w.join.player == w.leaves[t].player))
    && (forall t, u :: t in w.leaves && u in w.leaves && t != u && w.leaves[t].LeaveFound? && w.leaves[u].LeaveFound?
          ==> w.leaves[t].player != w.leaves[u].player)
  }

  /** A Leave that emptied a room is alone in that, and the room is still registered. */
  ghost predicate LeavesSound(w: World)
    requires RoomsSound(w)
  {
    && (forall t :: t in w.leaves && w.leaves[t].LeaveDone? && w.leaves[t].empty ==>
          && w.leaves[t].roomId in w.desk.registered && Online(w.rooms[w.leaves[t].roomId]) == {}
          && w.leaves[t].player in Seated(w.rooms[w.leaves[t].roomId]))
    && (forall t, u :: t in w.leaves && u in w.leaves && t != u
          && w.leaves[t].LeaveDone? && w.leaves[t].empty && w.leaves[u].LeaveDone? && w.leaves[u].empty
          ==> w.leaves[t].roomId != w.leaves[u].roomId)
  }

  /** A Leave that emptied the room is about to take it away. */
  ghost predicate Ending(leaves: map<nat, LeaveStage>, id: string) {
    exists t :: t in leaves && leaves[t].LeaveDone? && leaves[t].empty && leaves[t].roomId == id
  }

  ghost predicate RegistrySound(w: World)
    requires RoomsSound(w)
  {
    && (forall id :: id in w.desk.registered && w.rooms[id].phase != Closed && !Paired(w.rooms[id])
          ==> id == w.desk.waiting)
    && (forall id :: id in w.desk.registered ==>
          || Online(w.rooms[id]) != {}
          || (w.join.JoinChosen? && w.join.roomId == id && Seated(w.rooms[id]) == {})
          || Ending(w.leaves, id))
    && (forall id :: id in w.rooms && id !in w.desk.registered ==>
          w.rooms[id].phase == Closed && Online(w.rooms[id]) == {})
    && (w.desk.waiting in w.desk.registered && Paired(w.rooms[w.desk.waiting]) ==>
          w.join.JoinSeated? && w.join.roomId == w.desk.waiting)
    && (w.join.JoinChosen? ==> w.join.player in Seated(w.rooms[w.join.roomId]) || !Paired(w.rooms[w.join.roomId]))
  }

  ghost predicate Inv(w: World) {
    && RoomsSound(w)
    && TableSound(w)
    && JoinSound(w)
    && OnlineSound(w)
    && LeavesSound(w)
    && RegistrySound(w)
  }

  // ----- the steps --------------------------------------------------------------------

  function DoJoinBegin(w: World, x: string, seed: int): World
    requires RoomsSound(w)
  {
    if w.join != NoJoin || x == "" then w
    else
      var c := RoomForJoin(w.desk, w.rooms, x, seed);
      w.(desk := c.desk, rooms := c.rooms, join := JoinChosen(x, c.roomId))
  }

  function DoJoinSit(w: World, runnerFails: bool): World
    requires RoomsSound(w)
  {
    if !w.join.JoinChosen? then w
    else
      var j := JoinRoom(w.rooms[w.join.roomId], w.join.player, runnerFails);
      w.(rooms := w.rooms[w.join.roomId := j.view],
         join := if j.result.Joined? then JoinSeated(w.join.player, w.join.roomId)
                 else JoinFailed(w.join.player, w.join.roomId))
  }

  function DoJoinEnd(w: World): World
    requires RoomsSound(w)
  {
    match w.join
    case JoinSeated(x, id) =>
      w.(desk := FinishJoin(w.desk, w.rooms, x, id), join := NoJoin, members := w.members + {x})
    case JoinFailed(x, id) => w.(desk := ReleaseOnJoinFailure(w.desk, w.rooms, id), join := NoJoin)
    case _ => w
  }

  function DoLeaveBegin(w: World, t: nat, x: string): World {
    if t in w.leaves || x !in w.members then w
    else
      var gone := w.(members := w.members - {x});
      match RoomToLeave(w.desk, x)
      case None => gone
      case Some(id) => gone.(leaves := w.leaves[t := LeaveFound(x, id)])
  }

  function DoLeaveStand(w: World, t: nat): World
    requires RoomsSound(w)
  {
    if t !in w.leaves || !w.leaves[t].LeaveFound? then w
    else
      var x, id := w.leaves[t].player, w.leaves[t].roomId;
      var l := LeaveRoom(w.rooms[id], x);
      w.(rooms := w.rooms[id := l.view],
         leaves := if l.result.Departed? then w.leaves[t := LeaveDone(x, id, l.result.empty)] else w.leaves - {t})
  }

  function DoLeaveEnd(w: World, t: nat): World
    requires RoomsSound(w)
  {
    if t !in w.leaves || !w.leaves[t].LeaveDone? then w
    else
      var x, id := w.leaves[t].player, w.leaves[t].roomId;
      w.(desk := FinishLeave(w.desk, w.rooms, x, id, w.leaves[t].empty), leaves := w.leaves - {t})
  }

  function DoSubmitBegin(w: World, t: nat, x: string, id: string, c: Command): World {
    if t in w.submits || !MaySubmit(w.desk, x, id) then w else w.(submits := w.submits[t := Pending(x, id, c)])
  }

  function DoSubmitPlay(w: World, t: nat, runnerFails: bool): World
    requires RoomsSound(w)
  {
    if t !in w.submits then w
    else
      var s := w.submits[t];
      w.(rooms := w.rooms[s.roomId := SubmitRoom(w.rooms[s.roomId], s.player, s.command, runnerFails).view],
         submits := w.submits - {t})
  }

  function DoReceive(w: World, id: string, channel: nat): World {
    if id !in w.rooms then w else w.(rooms := w.rooms[id := TakeFrom(w.rooms[id], channel)])
  }

  /** A section that is not due leaves the world as it is. */
  function Next(w: World, a: Act): World
    requires RoomsSound(w)
  {
    match a
    case JoinBegin(x, seed) => DoJoinBegin(w, x, seed)
    case JoinSit(fails) => DoJoinSit(w, fails)
    case JoinEnd => DoJoinEnd(w)
    case LeaveBegin(t, x) => DoLeaveBegin(w, t, x)
    case LeaveStand(t) => DoLeaveStand(w, t)
    case LeaveEnd(t) => DoLeaveEnd(w, t)
    case SubmitBegin(t, x, id, c) => DoSubmitBegin(w, t, x, id, c)
    case SubmitPlay(t, fails) => DoSubmitPlay(w, t, fails)
    case Receive(id, channel) => DoReceive(w, id, channel)
  }

  // ----- every step keeps the invariant -----------------------------------------------

  lemma NameIsNotEmpty(n: nat)
    ensures RoomName(n) != ""
  {
  }

  lemma FreshRoomShows(id: string, seed: int)
    requires id != ""
    ensures var v := FreshRoom(id, seed);
            RoomOk(v) && v.id == id && Seated(v) == {} && Online(v) == {} && !Paired(v) && v.phase == Waiting
  {
    FreshRoomOk(id, seed);
  }

  /** What a step must keep, in two parts. */
  ghost predicate FirstPart(w: World) {
    RoomsSound(w) && TableSound(w) && JoinSound(w) && OnlineSound(w)
  }

  ghost predicate SecondPart(w: World)
    requires RoomsSound(w)
  {
    LeavesSound(w) && RegistrySound(w)
  }

  /** A room whose seats stay as they are. */
  ghost predicate Quiet(w: World, id: string, v: RoomView) {
    && id in w.rooms && RoomOk(v) && v.id == id && v.seats == w.rooms[id].seats
    && (w.rooms[id].phase == Closed ==> v.phase == Closed)
    && (Seated(v) == {} ==> v.phase == w.rooms[id].phase)
  }

  lemma QuietKeepsInv(w: World, id: string, v: RoomView)
    requires Inv(w) && Quiet(w, id, v)
    ensures Inv(w.(rooms := w.rooms[id := v]))
  {
    QuietKeepsRooms(w, id, v);
    QuietKeepsTable(w, id, v);
    QuietKeepsJoin(w, id, v);
    QuietKeepsOnline(w, id, v);
    QuietKeepsLeaves(w, id, v);
    QuietKeepsRegistry(w, id, v);
  }

  lemma QuietKeepsRooms(w: World, id: string, v: RoomView)
    requires Inv(w) && Quiet(w, id, v)
    ensures RoomsSound(w.(rooms := w.rooms[id := v]))
  {
    hide RoomOk, RoomName, Seated, TableSound, JoinSound, OnlineSound, LeavesSound, RegistrySound;
  }

  lemma QuietKeepsTable(w: World, id: string, v: RoomView)
    requires Inv(w) && Quiet(w, id, v) && RoomsSound(w.(rooms := w.rooms[id := v]))
    ensures TableSound(w.(rooms := w.rooms[id := v]))
  {
    hide RoomOk, RoomName, Seated, Online, Paired, JoinSound, OnlineSound, LeavesSound, RegistrySound;
    SameSeatsShow(w.rooms[id], v);
  }

  lemma QuietKeepsJoin(w: World, id: string, v: RoomView)
    requires Inv(w) && Quiet(w, id, v) && RoomsSound(w.(rooms := w.rooms[id := v]))
    ensures JoinSound(w.(rooms := w.rooms[id := v]))
  {
    hide RoomOk, RoomName, Seated, Online, Paired, TableSound, OnlineSound, LeavesSound, RegistrySound;
    SameSeatsShow(w.rooms[id], v);
  }

  lemma QuietKeepsOnline(w: World, id: string, v: RoomView)
    requires Inv(w) && Quiet(w, id, v) && RoomsSound(w.(rooms := w.rooms[id := v]))
    ensures OnlineSound(w.(rooms := w.rooms[id := v]))
  {
    hide RoomOk, RoomName, Seated, Online, Paired, Accounted, IsLeaving, TableSound, JoinSound, LeavesSound,
         RegistrySound;
    SameSeatsShow(w.rooms[id], v);
    AccountsAgree(w, w.(rooms := w.rooms[id := v]));
  }

  lemma QuietKeepsLeaves(w: World, id: string, v: RoomView)
    requires Inv(w) && Quiet(w, id, v) && RoomsSound(w.(rooms := w.rooms[id := v]))
    ensures LeavesSound(w.(rooms := w.rooms[id := v]))
  {
    hide RoomOk, RoomName, Seated, Online, Paired, TableSound, JoinSound, OnlineSound, RegistrySound;
    SameSeatsShow(w.rooms[id], v);
  }

  lemma QuietKeepsRegistry(w: World, id: string, v: RoomView)
    requires Inv(w) && Quiet(w, id, v) && RoomsSound(w.(rooms := w.rooms[id := v]))
    ensures RegistrySound(w.(rooms := w.rooms[id := v]))
  {
    hide RoomOk, RoomName, Seated, Online, Paired, Ending, TableSound, JoinSound, OnlineSound, LeavesSound;
    SameSeatsShow(w.rooms[id], v);
  }

  lemma AccountsKnown(w: World)
    requires RoomsSound(w) && OnlineSound(w)
    ensures forall y, i :: Accounted(w, y, i) ==> i in w.rooms
  {
    hide RoomOk, Seated, Online, RoomName;
  }

  lemma AccountsAgree(w: World, n: World)
    requires n.members == w.members && n.desk.players == w.desk.players && n.leaves == w.leaves
    requires w.join.JoinSeated? || n.join.JoinSeated? ==> n.join == w.join
    ensures forall y, i :: Accounted(n, y, i) <==> Accounted(w, y, i)
  {
    hide IsLeaving;
  }

  lemma BeginKeepsInv(w: World, x: string, seed: int)
    requires Inv(w)
    ensures Inv(DoJoinBegin(w, x, seed))
  {
    BeginKeepsRooms(w, x, seed);
    BeginKeepsTable(w, x, seed);
    BeginKeepsJoin(w, x, seed);
    BeginKeepsOnline(w, x, seed);
    BeginKeepsLeaves(w, x, seed);
    BeginKeepsRegistry(w, x, seed);
  }

  lemma BeginKeepsRooms(w: World, x: string, seed: int)
    requires Inv(w)
    ensures RoomsSound(DoJoinBegin(w, x, seed))
  {
    hide RoomOk, Seated, Online, Paired, RoomName, FreshRoom, TableSound, JoinSound, OnlineSound, LeavesSound,
         RegistrySound;
    if w.join == NoJoin && x != "" {
      var id := RoomName(w.desk.nextId + 1);
      NameIsNotEmpty(w.desk.nextId + 1);
      FreshRoomShows(id, seed);
      LaterNamesDiffer(w.desk.nextId + 1);
    }
  }

  /** No entry of the table is stale, so that choosing a room drops none. */
  lemma BeginKeepsPlayers(w: World, x: string, seed: int)
    requires Inv(w)
    ensures DoJoinBegin(w, x, seed).desk.players == w.desk.players
  {
    hide RoomOk, Seated, RoomName, FreshRoom, JoinSound, OnlineSound, LeavesSound, RegistrySound;
    if w.join == NoJoin && x != "" && x !in w.desk.players {
      assert w.desk.players - {x} == w.desk.players;
    }
  }

  lemma BeginKeepsTable(w: World, x: string, seed: int)
    requires Inv(w) && RoomsSound(DoJoinBegin(w, x, seed))
    ensures TableSound(DoJoinBegin(w, x, seed))
  {
    hide RoomOk, Seated, Online, Paired, RoomName, FreshRoom, JoinSound, OnlineSound, LeavesSound, RegistrySound;
    if w.join == NoJoin && x != "" {
      NameIsNotEmpty(w.desk.nextId + 1);
      FreshRoomShows(RoomName(w.desk.nextId + 1), seed);
      BeginKeepsPlayers(w, x, seed);
    }
  }

  lemma BeginKeepsJoin(w: World, x: string, seed: int)
    requires Inv(w) && RoomsSound(DoJoinBegin(w, x, seed))
    ensures JoinSound(DoJoinBegin(w, x, seed))
  {
    hide RoomOk, Seated, Online, Paired, RoomName, FreshRoom, OnlineSound, LeavesSound, RegistrySound, RoomForJoin;
    if w.join == NoJoin && x != "" {
      NameIsNotEmpty(w.desk.nextId + 1);
      FreshRoomShows(RoomName(w.desk.nextId + 1), seed);
      BeginOutcome(w, x, seed);
    }
  }

  lemma BeginKeepsOnline(w: World, x: string, seed: int)
    requires Inv(w) && RoomsSound(DoJoinBegin(w, x, seed))
    ensures OnlineSound(DoJoinBegin(w, x, seed))
  {
    hide RoomOk, Seated, Online, Paired, RoomName, FreshRoom, Accounted, IsLeaving, TableSound, JoinSound, LeavesSound,
         RegistrySound, RoomForJoin;
    if w.join == NoJoin && x != "" {
      NameIsNotEmpty(w.desk.nextId + 1);
      FreshRoomShows(RoomName(w.desk.nextId + 1), seed);
      var n := DoJoinBegin(w, x, seed);
      BeginOutcome(w, x, seed);
      AccountsAgree(w, n);
      AccountsKnown(w);
    }
  }

  lemma BeginKeepsLeaves(w: World, x: string, seed: int)
    requires Inv(w) && RoomsSound(DoJoinBegin(w, x, seed))
    ensures LeavesSound(DoJoinBegin(w, x, seed))
  {
    hide RoomOk, Seated, Online, Paired, RoomName, FreshRoom, TableSound, JoinSound, OnlineSound, RegistrySound;
  }

  /** What choosing a room comes to: the player's own one, the open waiting one, or a new one. */
  lemma BeginOutcome(w: World, x: string, seed: int)
    requires Inv(w) && w.join == NoJoin && x != ""
    ensures var n, id := DoJoinBegin(w, x, seed), RoomName(w.desk.nextId + 1);
            && n.join.JoinChosen? && n.join.player == x && n.leaves == w.leaves && n.members == w.members
            && n.desk.players == w.desk.players && (x in w.desk.players ==> n.join.roomId == w.desk.players[x])
            && (|| (n.rooms == w.rooms && n.desk == w.desk && n.join.roomId in w.desk.registered
                    && (x in Seated(w.rooms[n.join.roomId]) || n.join.roomId == w.desk.waiting))
                || (n.rooms == w.rooms[id := FreshRoom(id, seed)] && n.join.roomId == id && id !in w.rooms
                    && n.desk.registered == w.desk.registered + {id} && n.desk.waiting == id
                    && (w.desk.waiting in w.desk.registered ==> w.rooms[w.desk.waiting].phase == Closed)))
  {
    hide RoomOk, Seated, RoomName, FreshRoom, JoinSound, OnlineSound, LeavesSound, RegistrySound;
    BeginKeepsPlayers(w, x, seed);
  }

  lemma BeginKeepsRegistry(w: World, x: string, seed: int)
    requires Inv(w) && RoomsSound(DoJoinBegin(w, x, seed))
    ensures RegistrySound(DoJoinBegin(w, x, seed))
  {
    hide RoomOk, Seated, Online, Paired, RoomName, FreshRoom, Ending, TableSound, JoinSound, OnlineSound, LeavesSound,
         RoomForJoin;
    if w.join == NoJoin && x != "" {
      NameIsNotEmpty(w.desk.nextId + 1);
      FreshRoomShows(RoomName(w.desk.nextId + 1), seed);
      BeginOutcome(w, x, seed);
    }
  }

  lemma PlayKeepsInv(w: World, t: nat, runnerFails: bool)
    requires Inv(w)
    ensures Inv(DoSubmitPlay(w, t, runnerFails))
  {
    hide RoomOk, Seated, Online, Paired, RoomName, TableSound, JoinSound, OnlineSound, LeavesSound,
         RegistrySound, SubmitRoom;
    if t in w.submits {
      var s := w.submits[t];
      SubmitEffect(w.rooms[s.roomId], s.player, s.command, runnerFails);
      var v := SubmitRoom(w.rooms[s.roomId], s.player, s.command, runnerFails).view;
      SameSeatsShow(w.rooms[s.roomId], v);
      var n := w.(rooms := w.rooms[s.roomId := v]);
      QuietKeepsInv(w, s.roomId, v);
      SubmitsDoNotMatter(n, w.submits - {t});
    }
  }

  lemma SameSeatsShow(v: RoomView, u: RoomView)
    requires v.seats == u.seats
    ensures Seated(v) == Seated(u) && Online(v) == Online(u) && Paired(v) == Paired(u)
  {
  }

  lemma SubmitsDoNotMatter(w: World, submits: map<nat, Pending>)
    requires Inv(w) && forall t :: t in submits ==> submits[t].roomId in w.rooms
    ensures Inv(w.(submits := submits))
  {
    hide RoomsSound, TableSound, JoinSound, OnlineSound, LeavesSound, RegistrySound;
    SubmitsKeepFirst(w, submits);
    SubmitsKeepSecond(w, submits);
  }

  lemma SubmitsKeepFirst(w: World, submits: map<nat, Pending>)
    requires Inv(w) && forall t :: t in submits ==> submits[t].roomId in w.rooms
    ensures FirstPart(w.(submits := submits))
  {
    hide RoomOk, Seated, Online, Paired, RoomName, Accounted, IsLeaving, LeavesSound, RegistrySound;
    AccountsAgree(w, w.(submits := submits));
  }

  lemma SubmitsKeepSecond(w: World, submits: map<nat, Pending>)
    requires Inv(w) && RoomsSound(w.(submits := submits))
    ensures SecondPart(w.(submits := submits))
  {
    hide RoomOk, Seated, Online, Paired, RoomName, Ending, TableSound, JoinSound, OnlineSound;
  }

  lemma AskKeepsInv(w: World, t: nat, x: string, id: string, c: Command)
    requires Inv(w)
    ensures Inv(DoSubmitBegin(w, t, x, id, c))
  {
    hide RoomOk, Seated, Online, Paired, RoomName, TableSound, JoinSound, OnlineSound, LeavesSound, RegistrySound;
    if t !in w.submits && MaySubmit(w.desk, x, id) {
      SubmitsDoNotMatter(w, w.submits[t := Pending(x, id, c)]);
    }
  }

  lemma ReceiveKeepsInv(w: World, id: string, channel: nat)
    requires Inv(w)
    ensures Inv(DoReceive(w, id, channel))
  {
    hide RoomOk, Seated, Online, Paired, RoomName, TableSound, JoinSound, OnlineSound, LeavesSound,
         RegistrySound, TakeFrom;
    if id in w.rooms {
      ReceiveEffect(w.rooms[id], channel);
      QuietKeepsInv(w, id, TakeFrom(w.rooms[id], channel));
    }
  }

  /** A Join that goes on without having taken a seat. */
  lemma UnseatedKeepsInv(w: World, stage: JoinStage)
    requires Inv(w) && (w.join.JoinChosen? || w.join.JoinFailed?)
    requires Seated(w.rooms[w.join.roomId]) != {}
    requires stage == NoJoin || stage == JoinFailed(w.join.player, w.join.roomId)
    ensures Inv(w.(join := stage))
  {
    hide TableSound, JoinSound, OnlineSound, LeavesSound, RegistrySound;
    UnseatedKeepsFirst(w, stage);
    UnseatedKeepsSecond(w, stage);
  }

  lemma UnseatedKeepsFirst(w: World, stage: JoinStage)
    requires Inv(w) && (w.join.JoinChosen? || w.join.JoinFailed?)
    requires Seated(w.rooms[w.join.roomId]) != {}
    requires stage == NoJoin || stage == JoinFailed(w.join.player, w.join.roomId)
    ensures FirstPart(w.(join := stage))
  {
    hide RoomOk, Seated, Online, Paired, RoomName, Accounted, IsLeaving, LeavesSound, RegistrySound;
    AccountsAgree(w, w.(join := stage));
  }

  lemma UnseatedKeepsSecond(w: World, stage: JoinStage)
    requires Inv(w) && (w.join.JoinChosen? || w.join.JoinFailed?)
    requires Seated(w.rooms[w.join.roomId]) != {}
    requires stage == NoJoin || stage == JoinFailed(w.join.player, w.join.roomId)
    ensures RoomsSound(w.(join := stage)) && SecondPart(w.(join := stage))
  {
    hide RoomOk, Seated, Online, Paired, RoomName, Ending, TableSound, JoinSound, OnlineSound;
  }

  /** What a Join that takes a seat makes of the room. */
  ghost predicate SatDown(w: World, v: RoomView) {
    && RoomsSound(w) && w.join.JoinChosen? && RoomOk(v) && v.id == w.join.roomId
    && var x, u := w.join.player, w.rooms[w.join.roomId];
       && u.phase != Closed && v.phase != Closed && x !in Online(u) && (Paired(u) ==> Paired(v))
       && Seated(v) == Seated(u) + {x} && Online(v) == Online(u) + {x}
  }

  function Seating(w: World, v: RoomView): World
    requires w.join.JoinChosen?
  {
    w.(rooms := w.rooms[w.join.roomId := v], join := JoinSeated(w.join.player, w.join.roomId))
  }

  lemma SeatedKeepsRooms(w: World, v: RoomView)
    requires Inv(w) && SatDown(w, v)
    ensures RoomsSound(Seating(w, v))
  {
    hide RoomOk, Seated, Online, Paired, RoomName, TableSound, JoinSound, OnlineSound, LeavesSound, RegistrySound;
  }

  lemma SeatedKeepsTable(w: World, v: RoomView)
    requires Inv(w) && SatDown(w, v) && RoomsSound(Seating(w, v))
    ensures TableSound(Seating(w, v))
  {
    hide RoomOk, Seated, Online, Paired, RoomName, JoinSound, OnlineSound, LeavesSound, RegistrySound;
  }

  lemma SeatedKeepsJoin(w: World, v: RoomView)
    requires Inv(w) && SatDown(w, v) && RoomsSound(Seating(w, v))
    ensures JoinSound(Seating(w, v))
  {
    hide RoomOk, Seated, Online, Paired, RoomName, TableSound, OnlineSound, LeavesSound, RegistrySound;
    assert w.join.player in Seated(v);
  }

  lemma SeatedKeepsOnline(w: World, v: RoomView)
    requires Inv(w) && SatDown(w, v) && RoomsSound(Seating(w, v))
    ensures OnlineSound(Seating(w, v))
  {
    hide RoomOk, Seated, Online, Paired, RoomName, IsLeaving, LeavesSound, RegistrySound;
    var n := Seating(w, v);
    var x, id := w.join.player, w.join.roomId;
    AloneBeforeSeating(w);
    forall y, i | i in n.rooms
      ensures y in Online(n.rooms[i]) <==> Accounted(n, y, i)
    {
      assert y in Online(w.rooms[i]) <==> Accounted(w, y, i);
    }
  }

  /** Nobody who chooses a room is online in an open one. */
  lemma AloneBeforeSeating(w: World)
    requires Inv(w) && w.join.JoinChosen? && w.join.player !in Online(w.rooms[w.join.roomId])
    ensures w.join.player !in w.members
    ensures forall t :: t in w.leaves && w.leaves[t].LeaveFound? ==> w.leaves[t].player != w.join.player
  {
    hide RoomOk, Paired, RoomName, LeavesSound, Seated, Online;
    var x := w.join.player;
    forall i | i in w.rooms
      ensures x !in Online(w.rooms[i])
    {
      SeatsShow(w.rooms[i]);
    }
    assert x in w.members ==> Accounted(w, x, w.desk.players[x]);
    forall t | t in w.leaves && w.leaves[t].LeaveFound?
      ensures w.leaves[t].player != x
    {
      var y, i := w.leaves[t].player, w.leaves[t].roomId;
      assert IsLeaving(w.leaves, y, i);
      assert Accounted(w, y, i);
    }
  }

  lemma SeatedKeepsLeaves(w: World, v: RoomView)
    requires Inv(w) && SatDown(w, v) && RoomsSound(Seating(w, v))
    ensures LeavesSound(Seating(w, v))
  {
    hide RoomOk, Seated, Online, Paired, RoomName, TableSound, JoinSound, OnlineSound, RegistrySound;
    SeatsShow(w.rooms[w.join.roomId]);
  }

  lemma SeatedKeepsRegistry(w: World, v: RoomView)
    requires Inv(w) && SatDown(w, v) && RoomsSound(Seating(w, v))
    ensures RegistrySound(Seating(w, v))
  {
    hide RoomOk, Seated, Online, Paired, RoomName, Ending, TableSound, JoinSound, OnlineSound, LeavesSound;
    assert w.join.player in Online(v);
  }

  lemma SitKeepsInv(w: World, runnerFails: bool)
    requires Inv(w)
    ensures Inv(DoJoinSit(w, runnerFails))
  {
    hide RoomOk, Seated, Online, Paired, RoomName, JoinRoom, TableSound, OnlineSound, LeavesSound, RegistrySound;
    if w.join.JoinChosen? {
      var u := w.rooms[w.join.roomId];
      JoinEffect(u, w.join.player, runnerFails);
      var j := JoinRoom(u, w.join.player, runnerFails);
      if j.result.Joined? {
        SeatedKeepsRooms(w, j.view);
        SeatedKeepsTable(w, j.view);
        SeatedKeepsJoin(w, j.view);
        SeatedKeepsOnline(w, j.view);
        SeatedKeepsLeaves(w, j.view);
        SeatedKeepsRegistry(w, j.view);
      } else {
        assert w.rooms[w.join.roomId := j.view] == w.rooms;
        UnseatedKeepsInv(w, JoinFailed(w.join.player, w.join.roomId));
      }
    }
  }

  // ----- the end of a Join ------------------------------------------------------------

  function Entered(w: World): World
    requires RoomsSound(w) && w.join.JoinSeated?
  {
    var x, id := w.join.player, w.join.roomId;
    w.(desk := FinishJoin(w.desk, w.rooms, x, id), join := NoJoin, members := w.members + {x})
  }

  /** A player online in a room, about to be entered or to leave, is in a registered one. */
  lemma OnlineIsRegistered(w: World, x: string, id: string)
    requires Inv(w) && Accounted(w, x, id)
    ensures id in w.desk.registered && x in Online(w.rooms[id]) && x in Seated(w.rooms[id])
  {
    hide RoomOk, Paired, RoomName, LeavesSound, TableSound, JoinSound, IsLeaving, Seated, Online, Ending;
    AccountsKnown(w);
    SeatsShow(w.rooms[id]);
  }

  lemma EnteringKeepsFirst(w: World)
    requires Inv(w) && w.join.JoinSeated?
    ensures RoomsSound(Entered(w)) && TableSound(Entered(w)) && JoinSound(Entered(w))
  {
    hide RoomOk, Seated, Online, Paired, RoomName, IsLeaving, OnlineSound, LeavesSound, RegistrySound;
    OnlineIsRegistered(w, w.join.player, w.join.roomId);
  }

  lemma EnteringKeepsOnline(w: World)
    requires Inv(w) && w.join.JoinSeated? && RoomsSound(Entered(w))
    ensures OnlineSound(Entered(w))
  {
    hide RoomOk, Seated, Online, Paired, RoomName, LeavesSound, RegistrySound, TableSound, JoinSound;
    var n := Entered(w);
    forall y, i
      ensures Accounted(n, y, i) <==> Accounted(w, y, i)
    {
    }
  }

  lemma EnteringKeepsSecond(w: World)
    requires Inv(w) && w.join.JoinSeated? && RoomsSound(Entered(w))
    ensures SecondPart(Entered(w))
  {
    hide RoomOk, Seated, Online, RoomName, Ending, TableSound, OnlineSound;
  }

  lemma JoinEndKeepsInv(w: World)
    requires Inv(w)
    ensures Inv(DoJoinEnd(w))
  {
    hide RoomOk, Seated, Online, Paired, RoomName, TableSound, OnlineSound, LeavesSound, RegistrySound;
    if w.join.JoinSeated? {
      EnteringKeepsFirst(w);
      EnteringKeepsOnline(w);
      EnteringKeepsSecond(w);
    } else if w.join.JoinFailed? {
      SeatsShow(w.rooms[w.join.roomId]);
      UnseatedKeepsInv(w, NoJoin);
    }
  }

  // ----- leaving ----------------------------------------------------------------------

  function Setting(w: World, t: nat, x: string): World
    requires x in w.desk.players
  {
    w.(members := w.members - {x}, leaves := w.leaves[t := LeaveFound(x, w.desk.players[x])])
  }

  lemma SettingKeepsFirst(w: World, t: nat, x: string)
    requires Inv(w) && x in w.members && t !in w.leaves
    ensures x in w.desk.players && w.desk.players[x] in w.desk.registered
    ensures RoomsSound(Setting(w, t, x)) && TableSound(Setting(w, t, x)) && JoinSound(Setting(w, t, x))
  {
    hide RoomOk, Seated, Online, Paired, RoomName, Accounted, LeavesSound, RegistrySound;
  }

  lemma SettingKeepsOnline(w: World, t: nat, x: string)
    requires Inv(w) && x in w.members && t !in w.leaves && x in w.desk.players && RoomsSound(Setting(w, t, x))
    ensures OnlineSound(Setting(w, t, x))
  {
    hide RoomOk, Seated, Online, Paired, RoomName, IsLeaving, LeavesSound, RegistrySound, TableSound, JoinSound;
    var n := Setting(w, t, x);
    var id := w.desk.players[x];
    FoundAdds(w.leaves, t, x, id);
    forall y, i
      ensures Accounted(n, y, i) <==> Accounted(w, y, i)
    {
      assert IsLeaving(n.leaves, y, i) <==> IsLeaving(w.leaves, y, i) || (y == x && i == id);
    }
  }

  lemma FoundAdds(leaves: map<nat, LeaveStage>, t: nat, x: string, id: string)
    requires t !in leaves
    ensures forall y, i ::
      IsLeaving(leaves[t := LeaveFound(x, id)], y, i) <==> IsLeaving(leaves, y, i) || (y == x && i == id)
  {
    var n := leaves[t := LeaveFound(x, id)];
    forall y, i
      ensures IsLeaving(n, y, i) <==> IsLeaving(leaves, y, i) || (y == x && i == id)
    {
      if IsLeaving(leaves, y, i) {
        var u :| u in leaves && leaves[u] == LeaveFound(y, i);
        assert u in n && n[u] == LeaveFound(y, i);
      }
      assert t in n && n[t] == LeaveFound(x, id);
    }
  }

  lemma SettingKeepsLeaves(w: World, t: nat, x: string)
    requires Inv(w) && x in w.members && t !in w.leaves && x in w.desk.players && RoomsSound(Setting(w, t, x))
    ensures LeavesSound(Setting(w, t, x))
  {
    hide RoomOk, Seated, Online, Paired, RoomName, TableSound, OnlineSound, JoinSound, RegistrySound;
  }

  lemma SettingKeepsRegistry(w: World, t: nat, x: string)
    requires Inv(w) && x in w.members && t !in w.leaves && x in w.desk.players && RoomsSound(Setting(w, t, x))
    ensures RegistrySound(Setting(w, t, x))
  {
    hide RoomOk, Seated, Online, Paired, RoomName, Ending, TableSound, OnlineSound, JoinSound, LeavesSound;
    EndingStays(w.leaves, t, LeaveFound(x, w.desk.players[x]));
  }

  /** Changing a Leave that has not emptied a room ends no other room's ending. */
  lemma EndingStays(leaves: map<nat, LeaveStage>, t: nat, stage: LeaveStage)
    requires t in leaves ==> leaves[t].LeaveFound?
    ensures forall i :: Ending(leaves, i) ==> Ending(leaves[t := stage], i)
  {
    forall i | Ending(leaves, i)
      ensures Ending(leaves[t := stage], i)
    {
      var u :| u in leaves && leaves[u].LeaveDone? && leaves[u].empty && leaves[u].roomId == i;
      assert u in leaves[t := stage] && leaves[t := stage][u] == leaves[u];
    }
  }

  lemma LeaveBeginKeepsInv(w: World, t: nat, x: string)
    requires Inv(w)
    ensures Inv(DoLeaveBegin(w, t, x))
  {
    hide RoomOk, Seated, Online, Paired, RoomName, TableSound, JoinSound, OnlineSound, LeavesSound, RegistrySound;
    if t !in w.leaves && x in w.members {
      SettingKeepsFirst(w, t, x);
      SettingKeepsOnline(w, t, x);
      SettingKeepsLeaves(w, t, x);
      SettingKeepsRegistry(w, t, x);
    }
  }

  /** What a Leave makes of the room: empty says that it left nobody online. */
  ghost predicate StoodUp(w: World, t: nat, v: RoomView, empty: bool) {
    && RoomsSound(w) && t in w.leaves && w.leaves[t].LeaveFound? && RoomOk(v) && v.id == w.leaves[t].roomId
    && var x, u := w.leaves[t].player, w.rooms[w.leaves[t].roomId];
       && Seated(v) == Seated(u) && Online(v) == Online(u) - {x} && (Paired(v) <==> Paired(u))
       && (empty <==> Online(v) == {}) && (v.phase == Closed <==> u.phase == Closed || empty)
       && x in Online(u) && x in Seated(u) && w.leaves[t].roomId in w.desk.registered
  }

  function Standing(w: World, t: nat, v: RoomView, empty: bool): World
    requires t in w.leaves
  {
    var x, id := w.leaves[t].player, w.leaves[t].roomId;
    w.(rooms := w.rooms[id := v], leaves := w.leaves[t := LeaveDone(x, id, empty)])
  }

  lemma StandingKeepsRooms(w: World, t: nat, v: RoomView, empty: bool)
    requires Inv(w) && StoodUp(w, t, v, empty)
    ensures RoomsSound(Standing(w, t, v, empty))
  {
    hide RoomOk, Seated, Online, Paired, RoomName, TableSound, JoinSound, OnlineSound, LeavesSound, RegistrySound;
  }

  lemma StandingKeepsTable(w: World, t: nat, v: RoomView, empty: bool)
    requires Inv(w) && StoodUp(w, t, v, empty) && RoomsSound(Standing(w, t, v, empty))
    ensures TableSound(Standing(w, t, v, empty))
  {
    hide RoomOk, Seated, Online, Paired, RoomName, JoinSound, OnlineSound, LeavesSound, RegistrySound;
  }

  lemma StandingKeepsJoin(w: World, t: nat, v: RoomView, empty: bool)
    requires Inv(w) && StoodUp(w, t, v, empty) && RoomsSound(Standing(w, t, v, empty))
    ensures JoinSound(Standing(w, t, v, empty))
  {
    hide RoomOk, Seated, Online, Paired, RoomName, TableSound, OnlineSound, LeavesSound, RegistrySound;
  }

  lemma StandingKeepsOnline(w: World, t: nat, v: RoomView, empty: bool)
    requires Inv(w) && StoodUp(w, t, v, empty) && RoomsSound(Standing(w, t, v, empty))
    ensures OnlineSound(Standing(w, t, v, empty))
  {
    hide RoomOk, Seated, Online, Paired, RoomName, IsLeaving, LeavesSound, RegistrySound, TableSound, JoinSound;
    var x, id := w.leaves[t].player, w.leaves[t].roomId;
    var n := Standing(w, t, v, empty);
    DoneTakes(w.leaves, t, x, id, empty);
    forall y, i | i in n.rooms
      ensures y in Online(n.rooms[i]) <==> Accounted(n, y, i)
    {
      assert y in Online(w.rooms[i]) <==> Accounted(w, y, i);
    }
  }

  lemma DoneTakes(leaves: map<nat, LeaveStage>, t: nat, x: string, id: string, empty: bool)
    requires t in leaves && leaves[t] == LeaveFound(x, id)
    requires forall u :: u in leaves && u != t && leaves[u].LeaveFound? ==> leaves[u].player != x
    ensures forall y, i :: IsLeaving(leaves[t := LeaveDone(x, id, empty)], y, i) <==> IsLeaving(leaves, y, i) && y != x
    ensures forall i :: IsLeaving(leaves, x, i) <==> i == id
  {
    var n := leaves[t := LeaveDone(x, id, empty)];
    forall y, i
      ensures IsLeaving(n, y, i) <==> IsLeaving(leaves, y, i) && y != x
    {
      if IsLeaving(leaves, y, i) && y != x {
        var u :| u in leaves && leaves[u] == LeaveFound(y, i);
        assert u in n && n[u] == LeaveFound(y, i);
      }
    }
  }

  lemma StandingKeepsLeaves(w: World, t: nat, v: RoomView, empty: bool)
    requires Inv(w) && StoodUp(w, t, v, empty) && RoomsSound(Standing(w, t, v, empty))
    ensures LeavesSound(Standing(w, t, v, empty))
  {
    hide RoomOk, Seated, Online, Paired, RoomName, TableSound, OnlineSound, JoinSound, RegistrySound;
  }

  lemma StandingKeepsRegistry(w: World, t: nat, v: RoomView, empty: bool)
    requires Inv(w) && StoodUp(w, t, v, empty) && RoomsSound(Standing(w, t, v, empty))
    ensures RegistrySound(Standing(w, t, v, empty))
  {
    hide RoomOk, Seated, Online, Paired, RoomName, Ending, TableSound, OnlineSound, JoinSound, LeavesSound;
    var x, id := w.leaves[t].player, w.leaves[t].roomId;
    EndingStays(w.leaves, t, LeaveDone(x, id, empty));
    EndingComes(w.leaves, t, x, id);
  }

  lemma EndingComes(leaves: map<nat, LeaveStage>, t: nat, x: string, id: string)
    ensures Ending(leaves[t := LeaveDone(x, id, true)], id)
  {
    var n := leaves[t := LeaveDone(x, id, true)];
    assert t in n && n[t].LeaveDone? && n[t].empty && n[t].roomId == id;
  }

  lemma StandKeepsInv(w: World, t: nat)
    requires Inv(w)
    ensures Inv(DoLeaveStand(w, t))
  {
    hide RoomOk, Seated, Online, Paired, RoomName, LeaveRoom, TableSound, JoinSound, OnlineSound, LeavesSound,
         RegistrySound;
    if t in w.leaves && w.leaves[t].LeaveFound? {
      var x, id := w.leaves[t].player, w.leaves[t].roomId;
      assert IsLeaving(w.leaves, x, id);
      OnlineIsRegistered(w, x, id);
      LeaveEffect(w.rooms[id], x);
      var l := LeaveRoom(w.rooms[id], x);
      StandingKeepsRooms(w, t, l.view, l.result.empty);
      StandingKeepsTable(w, t, l.view, l.result.empty);
      StandingKeepsJoin(w, t, l.view, l.result.empty);
      StandingKeepsOnline(w, t, l.view, l.result.empty);
      StandingKeepsLeaves(w, t, l.view, l.result.empty);
      StandingKeepsRegistry(w, t, l.view, l.result.empty);
    }
  }

  // ----- the end of a Leave -----------------------------------------------------------

  function Dropped(w: World, t: nat): World {
    w.(leaves := w.leaves - {t})
  }

  lemma DroppedKeepsFirst(w: World, t: nat)
    requires Inv(w) && t in w.leaves && w.leaves[t].LeaveDone?
    ensures FirstPart(Dropped(w, t))
  {
    hide RoomOk, Seated, Online, Paired, RoomName, IsLeaving, LeavesSound, RegistrySound;
    DropIsQuiet(w.leaves, t);
  }

  lemma DroppedKeepsSecond(w: World, t: nat)
    requires Inv(w) && t in w.leaves && w.leaves[t].LeaveDone? && !w.leaves[t].empty && RoomsSound(Dropped(w, t))
    ensures SecondPart(Dropped(w, t))
  {
    hide RoomOk, Seated, Online, Paired, RoomName, Ending, TableSound, JoinSound, OnlineSound;
    DropIsQuiet(w.leaves, t);
  }

  lemma DropIsQuiet(leaves: map<nat, LeaveStage>, t: nat)
    requires t in leaves && leaves[t].LeaveDone?
    ensures forall y, i :: IsLeaving(leaves - {t}, y, i) <==> IsLeaving(leaves, y, i)
    ensures forall i :: (!leaves[t].empty || i != leaves[t].roomId) ==> (Ending(leaves - {t}, i) <==> Ending(leaves, i))
  {
    var n := leaves - {t};
    forall y, i
      ensures IsLeaving(n, y, i) <==> IsLeaving(leaves, y, i)
    {
      if IsLeaving(leaves, y, i) {
        var u :| u in leaves && leaves[u] == LeaveFound(y, i);
        assert u in n && n[u] == LeaveFound(y, i);
      }
    }
    forall i | !leaves[t].empty || i != leaves[t].roomId
      ensures Ending(n, i) <==> Ending(leaves, i)
    {
      if Ending(leaves, i) {
        var u :| u in leaves && leaves[u].LeaveDone? && leaves[u].empty && leaves[u].roomId == i;
        assert u in n && n[u] == leaves[u];
      }
    }
  }

  function Removed(w: World, t: nat): World
    requires RoomsSound(w) && t in w.leaves
  {
    w.(desk := FinishLeave(w.desk, w.rooms, w.leaves[t].player, w.leaves[t].roomId, true), leaves := w.leaves - {t})
  }

  /** The players taken out of the table are those whose entry led to the room. */
  lemma RemovedEntries(w: World, t: nat)
    requires Inv(w) && t in w.leaves && w.leaves[t].LeaveDone? && w.leaves[t].empty
    ensures var id := w.leaves[t].roomId;
            forall y :: y in w.desk.players ==> (y in Removed(w, t).desk.players <==> w.desk.players[y] != id)
    ensures forall y :: !Accounted(w, y, w.leaves[t].roomId)
  {
    hide RoomOk, Seated, Online, Paired, RoomName, IsLeaving, RegistrySound, JoinSound;
    var id := w.leaves[t].roomId;
    forall y
      ensures !Accounted(w, y, id)
    {
      assert y !in Online(w.rooms[id]);
    }
    assert w.leaves[t].player in Seated(w.rooms[id]);
  }

  lemma RemovedKeepsFirst(w: World, t: nat)
    requires Inv(w) && t in w.leaves && w.leaves[t].LeaveDone? && w.leaves[t].empty
    ensures RoomsSound(Removed(w, t)) && TableSound(Removed(w, t)) && JoinSound(Removed(w, t))
  {
    hide RoomOk, Seated, Online, Paired, RoomName, Accounted, IsLeaving, RegistrySound, OnlineSound;
    RemovedEntries(w, t);
  }

  lemma RemovedKeepsOnline(w: World, t: nat)
    requires Inv(w) && t in w.leaves && w.leaves[t].LeaveDone? && w.leaves[t].empty && RoomsSound(Removed(w, t))
    ensures OnlineSound(Removed(w, t))
  {
    hide RoomOk, Seated, Online, Paired, RoomName, IsLeaving, RegistrySound, JoinSound, LeavesSound, TableSound;
    RemovedEntries(w, t);
    DropIsQuiet(w.leaves, t);
    var n := Removed(w, t);
    forall y | y in w.members
      ensures w.desk.players[y] != w.leaves[t].roomId
    {
      assert !Accounted(w, y, w.leaves[t].roomId);
    }
    forall y, i
      ensures Accounted(n, y, i) <==> Accounted(w, y, i)
    {
    }
  }

  lemma RemovedKeepsLeaves(w: World, t: nat)
    requires Inv(w) && t in w.leaves && w.leaves[t].LeaveDone? && w.leaves[t].empty && RoomsSound(Removed(w, t))
    ensures LeavesSound(Removed(w, t))
  {
    hide RoomOk, Seated, Online, Paired, RoomName, JoinSound, OnlineSound, TableSound, RegistrySound;
  }

  lemma RemovedKeepsRegistry(w: World, t: nat)
    requires Inv(w) && t in w.leaves && w.leaves[t].LeaveDone? && w.leaves[t].empty && RoomsSound(Removed(w, t))
    ensures RegistrySound(Removed(w, t))
  {
    hide RoomOk, Seated, Online, Paired, RoomName, Ending, JoinSound, OnlineSound, TableSound;
    SeatsShow(w.rooms[w.leaves[t].roomId]);
    DropIsQuiet(w.leaves, t);
  }

  lemma LeaveEndKeepsInv(w: World, t: nat)
    requires Inv(w)
    ensures Inv(DoLeaveEnd(w, t))
  {
    hide RoomOk, Seated, Online, Paired, RoomName, TableSound, JoinSound, OnlineSound, LeavesSound, RegistrySound;
    if t in w.leaves && w.leaves[t].LeaveDone? {
      if w.leaves[t].empty {
        RemovedKeepsFirst(w, t);
        RemovedKeepsOnline(w, t);
        RemovedKeepsLeaves(w, t);
        RemovedKeepsRegistry(w, t);
      } else {
        DroppedKeepsFirst(w, t);
        DroppedKeepsSecond(w, t);
      }
    }
  }

  lemma NextKeepsInv(w: World, a: Act)
    requires Inv(w)
    ensures Inv(Next(w, a))
  {
    hide RoomsSound, TableSound, JoinSound, OnlineSound, LeavesSound, RegistrySound;
    match a
    case JoinBegin(x, seed) => BeginKeepsInv(w, x, seed);
    case JoinSit(fails) => SitKeepsInv(w, fails);
    case JoinEnd => JoinEndKeepsInv(w);
    case LeaveBegin(t, x) => LeaveBeginKeepsInv(w, t, x);
    case LeaveStand(t) => StandKeepsInv(w, t);
    case LeaveEnd(t) => LeaveEndKeepsInv(w, t);
    case SubmitBegin(t, x, id, c) => AskKeepsInv(w, t, x, id, c);
    case SubmitPlay(t, fails) => PlayKeepsInv(w, t, fails);
    case Receive(id, channel) => ReceiveKeepsInv(w, id, channel);
  }

  // ----- all runs ---------------------------------------------------------------------

  /** The world after any sections in any order. */
  function After(acts: seq<Act>): (w: World)
    ensures Inv(w)
  {
    if acts == [] then
      StartIsSound();
      START
    else
      var before := After(acts[..|acts| - 1]);
      NextKeepsInv(before, acts[|acts| - 1]);
      Next(before, acts[|acts| - 1])
  }

  lemma StartIsSound()
    ensures Inv(START)
  {
    hide RoomOk, RoomName;
  }

  /** No player has a seat in two registered rooms. */
  lemma NoPlayerInTwoRooms(acts: seq<Act>, x: string, a: string, b: string)
    requires var w := After(acts);
             && a in w.desk.registered && b in w.desk.registered
             && x in Seated(w.rooms[a]) && x in Seated(w.rooms[b])
    ensures a == b
  {
    hide After, RoomOk, Seated, Online, RoomName, OnlineSound, LeavesSound, RegistrySound;
    var w := After(acts);
    assert (x in w.desk.players && w.desk.players[x] == a) || w.join == JoinSeated(x, a);
    assert (x in w.desk.players && w.desk.players[x] == b) || w.join == JoinSeated(x, b);
  }

  /** At most one open room has a free seat, so that the next player pairs up rather than opens another. */
  lemma OneRoomWaits(acts: seq<Act>, a: string, b: string)
    requires var w := After(acts);
             && a in w.desk.registered && w.rooms[a].phase != Closed && !Paired(w.rooms[a])
             && b in w.desk.registered && w.rooms[b].phase != Closed && !Paired(w.rooms[b])
    ensures a == b && a == After(acts).desk.waiting
  {
    hide After, RoomOk, Seated, Online, RoomName, TableSound, JoinSound, OnlineSound, LeavesSound;
  }

  /** A registered room has somebody online, unless its first player's Join or its last player's
      Leave is still under way. */
  lemma RoomsAreInUse(acts: seq<Act>, id: string)
    requires id in After(acts).desk.registered
    ensures var w := After(acts);
            || Online(w.rooms[id]) != {}
            || (w.join.JoinChosen? && w.join.roomId == id && w.rooms[id].seats == map[])
            || Ending(w.leaves, id)
  {
    hide After, RoomOk, Seated, Online, RoomName, TableSound, JoinSound, OnlineSound, LeavesSound;
    SeatsShow(After(acts).rooms[id]);
  }

  /** With nothing under way the registered rooms are exactly those with somebody online; and when
      everybody has left, no room and no entry of the players' table is left behind. */
  lemma NothingIsLeftBehind(acts: seq<Act>)
    requires After(acts).join == NoJoin && After(acts).leaves == map[]
    ensures var w := After(acts);
            forall id :: id in w.rooms ==> (id in w.desk.registered <==> Online(w.rooms[id]) != {})
    ensures var w := After(acts);
            w.members == {} ==> w.desk.registered == {} && w.desk.players == map[]
  {
    hide After, RoomOk, Seated, Online, RoomName;
    var w := After(acts);
    forall id | id in w.desk.registered
      ensures w.members != {}
    {
      assert Online(w.rooms[id]) != {};
      var x :| x in Online(w.rooms[id]);
      assert Accounted(w, x, id);
    }
    assert w.members == {} ==> forall x :: x !in w.desk.players;
  }

  /** A player who has joined is found when leaving, and is put offline. */
  lemma LeaveFindsItsPlace(acts: seq<Act>, x: string)
    requires x in After(acts).members
    ensures var w := After(acts);
            && RoomToLeave(w.desk, x).Some? && RoomToLeave(w.desk, x).value in w.rooms
            && x in Online(w.rooms[RoomToLeave(w.desk, x).value])
  {
    hide After, RoomOk, Seated, Online, RoomName, LeavesSound, RegistrySound, JoinSound;
    var w := After(acts);
    assert Accounted(w, x, w.desk.players[x]);
  }

  ghost predicate TakesEffect(w: World, t: nat)
    requires RoomsSound(w) && t in w.leaves
  {
    var x, id := w.leaves[t].player, w.leaves[t].roomId;
    var l := LeaveRoom(w.rooms[id], x);
    l.result.Departed? && id in w.desk.registered && x !in Online(l.view)
  }

  lemma LeaveTakesEffect(acts: seq<Act>, t: nat)
    requires t in After(acts).leaves && After(acts).leaves[t].LeaveFound?
    ensures TakesEffect(After(acts), t)
  {
    hide After, RoomOk, Seated, Online, RoomName, LeaveRoom, TableSound, JoinSound, OnlineSound, LeavesSound,
         RegistrySound;
    var w := After(acts);
    var x, id := w.leaves[t].player, w.leaves[t].roomId;
    assert IsLeaving(w.leaves, x, id);
    OnlineIsRegistered(w, x, id);
    LeaveEffect(w.rooms[id], x);
  }

  /** When a Join fails: the room closed after it was chosen, or was the player's own closed one; or
      the player is online there already; or a newcomer would be the second player and the engine
      does not start the match, because it does not run or gets a seed that is not a 32-bit number.
      It never fails for want of a seat. */
  lemma JoinFailsIff(acts: seq<Act>, runnerFails: bool)
    requires After(acts).join.JoinChosen?
    ensures var w := After(acts);
            var x, v := w.join.player, w.rooms[w.join.roomId];
            JoinRoom(v, x, runnerFails).result.JoinRefused? <==>
              || v.phase == Closed
              || x in Online(v)
              || (x !in Seated(v) && Seated(v) != {} && (runnerFails || !IsUint32(v.seed)))
  {
    hide After, RoomOk, Seated, Online, RoomName, JoinRoom, TableSound, JoinSound, OnlineSound, LeavesSound;
    var w := After(acts);
    RefusedIff(w.rooms[w.join.roomId], w.join.player, runnerFails);
  }

  lemma RefusedIff(v: RoomView, x: string, runnerFails: bool)
    requires RoomOk(v) && v.id != "" && (x in Seated(v) || !Paired(v))
    ensures JoinRoom(v, x, runnerFails).result.JoinRefused? <==>
              || v.phase == Closed
              || x in Online(v)
              || (x !in Seated(v) && Seated(v) != {} && (runnerFails || !IsUint32(v.seed)))
  {
    hide InGame, ChannelsOk, RunEngine, NewGame, DeliverTo, NotifyOthers, Broadcast, AllUsable;
    RoomNewGame(v.id, v.seed);
  }

  /** A Join that fails takes no room away: the room it chose has, or had, another player. */
  lemma FailedJoinRemovesNothing(acts: seq<Act>)
    requires After(acts).join.JoinFailed?
    ensures Next(After(acts), JoinEnd).desk == After(acts).desk
  {
    hide After, RoomOk, Seated, Online, Paired, RoomName, TableSound, OnlineSound, LeavesSound, RegistrySound;
    var w := After(acts);
    SeatsShow(w.rooms[w.join.roomId]);
  }
}
