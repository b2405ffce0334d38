/** Pairing players into rooms (server/internal/match/manager.go).

    The manager's lock is held for a whole critical section, and a section looks at a room at most
    once, so that each section is one atomic step. They are functions here; the class Manager runs
    them one after another, and Interleavings lets the sections of many callers mix. */
module Managers {
  import opened Options
  import opened Protocol
  import opened Rules
  import opened Contract
  import opened Rooms
  import opened RoomRuns
  import opened Matches

  /** What the manager's lock protects. */
  datatype Desk = Desk(registered: set<string>, players: map<string, string>, waiting: string, nextId: nat)

  const EMPTY_DESK := Desk({}, map[], "", 0)

  // ----- the critical sections --------------------------------------------------------

  datatype Choice = Choice(desk: Desk, rooms: map<string, RoomView>, roomId: string)

  /** roomForJoin: the player's own room, else the waiting room, else a new one. */
  function RoomForJoin(d: Desk, rooms: map<string, RoomView>, playerId: string, seed: int): Choice
    requires d.registered <= rooms.Keys
  {
    if playerId in d.players && d.players[playerId] in d.registered then Choice(d, rooms, d.players[playerId])
    else
      var d1 := d.(players := d.players - {playerId});
      if d1.waiting != "" && d1.waiting in d1.registered && rooms[d1.waiting].phase != Closed
      then Choice(d1, rooms, d1.waiting)
      else
        var id := RoomName(d1.nextId + 1);
        Choice(d1.(registered := d1.registered + {id}, waiting := id, nextId := d1.nextId + 1),
               rooms[id := FreshRoom(id, seed)], id)
  }

  /** The end of a successful Join. */
  function FinishJoin(d: Desk, rooms: map<string, RoomView>, playerId: string, roomId: string): Desk
    requires roomId in rooms
  {
    d.(players := d.players[playerId := roomId],
       waiting := if BothSeated(rooms[roomId].seats) && d.waiting == roomId then "" else d.waiting)
  }

  /** The end of a failed Join. */
  function ReleaseOnJoinFailure(d: Desk, rooms: map<string, RoomView>, roomId: string): Desk
    requires roomId in rooms
  {
    if rooms[roomId].seats != map[] then d
    else d.(registered := d.registered - {roomId}, waiting := if d.waiting == roomId then "" else d.waiting)
  }

  /** The room a player leaves, if any. */
  function RoomToLeave(d: Desk, playerId: string): Option<string> {
    if playerId in d.players && d.players[playerId] in d.registered then Some(d.players[playerId]) else None
  }

  function Seated(v: RoomView): set<string> {
    (if Dark in v.seats then {v.seats[Dark].playerId} else {})
    + (if Light in v.seats then {v.seats[Light].playerId} else {})
  }

  /** The end of a Leave: an empty room goes, with everybody's way back to it. */
  function FinishLeave(d: Desk, rooms: map<string, RoomView>, playerId: string, roomId: string, empty: bool): Desk
    requires roomId in rooms
  {
    if !empty then d
    else d.(players := d.players - Seated(rooms[roomId]) - {playerId},
            registered := d.registered - {roomId},
            waiting := if d.waiting == roomId then "" else d.waiting)
  }

  /** Whether a submission may go to the room it names. */
  predicate MaySubmit(d: Desk, playerId: string, roomId: string) {
    playerId in d.players && d.players[playerId] == roomId && roomId in d.registered
  }

  // ----- the manager itself -----------------------------------------------------------

  datatype JoinOutcome = JoinedRoom(roomId: string, seat: Player, channel: nat, reconnected: bool) | NotJoined

  datatype LeaveOutcome = LeftRoom(roomId: string, empty: bool) | NotInRoom

  /** created remembers every room ever made, registered or not: callers may still hold one. */
  class Manager {
    var rooms: map<string, Room>
    var players: map<string, string>
    var waiting: string
    var nextId: nat
    ghost var created: map<string, Room>

    ghost predicate Valid()
      reads this, created.Values
    {
      && rooms.Keys <= created.Keys
      && (forall id :: id in rooms ==> rooms[id] == created[id])
      && (forall id :: id in created ==> created[id].id == id && RoomOk(created[id].View()))
      && (forall n :: n > nextId ==> RoomName(n) !in created)
    }

    ghost function DeskView(): Desk
      reads this
    {
      Desk(rooms.Keys, players, waiting, nextId)
    }

    ghost function RoomViews(): map<string, RoomView>
      reads this, created.Values
    {
      map id | id in created :: created[id].View()
    }

    constructor ()
      ensures Valid() && DeskView() == EMPTY_DESK && RoomViews() == map[]
    {
      rooms, players, waiting, nextId, created := map[], map[], "", 0, map[];
    }

    /** A room that one of the sections has handed to its caller. */
    ghost predicate Knows(room: Room)
      reads this, room
    {
      room.id in created && created[room.id] == room
    }

    method Register(seed: int) returns (room: Room)
      requires Valid()
      modifies this`rooms, this`created, this`waiting, this`nextId
      ensures Valid() && fresh(room) && room.View() == FreshRoom(room.id, seed) && room.id == RoomName(nextId)
      ensures created == old(created)[room.id := room] && rooms == old(rooms)[room.id := room]
      ensures nextId == old(nextId) + 1 && waiting == room.id
    {
      hide RoomOk, RoomName, FreshRoom, Valid;
      nextId := nextId + 1;
      var id := RoomName(nextId);
      room := new Room(id, seed);
      FreshRoomIs(id, seed);
      rooms := rooms[id := room];
      created := created[id := room];
      waiting := id;
      RegisteredIsValid(room, seed);
    }

    twostate lemma RegisteredIsValid(new room: Room, seed: int)
      requires old(Valid()) && nextId == old(nextId) + 1 && room.id == RoomName(nextId)
      requires room.View() == FreshRoom(room.id, seed)
      requires created == old(created)[room.id := room] && rooms == old(rooms)[room.id := room]
      requires forall k :: k in old(created) ==> old(created)[k].View() == old(created[k].View())
      ensures Valid()
    {
      hide RoomOk, RoomName, FreshRoom;
      FreshRoomOk(room.id, seed);
      LaterNamesDiffer(nextId);
      forall k | k in created
        ensures created[k].id == k && RoomOk(created[k].View())
      {
        if k != room.id {
          assert created[k] == old(created)[k];
        }
      }
    }

    /** Makes the next room and lets it wait. */
    method AddRoom(seed: int) returns (room: Room)
      requires Valid()
      modifies this`rooms, this`created, this`waiting, this`nextId
      ensures Valid() && Knows(room) && fresh(room) && room.id == RoomName(nextId)
      ensures DeskView() == Desk(old(rooms.Keys) + {room.id}, players, room.id, old(nextId) + 1)
      ensures RoomViews() == old(RoomViews())[room.id := FreshRoom(room.id, seed)]
    {
      hide RoomOk, RoomName, FreshRoom, Valid;
      room := Register(seed);
    }

    lemma KnowsRegistered(id: string)
      requires Valid() && id in rooms
      ensures Knows(rooms[id]) && rooms[id].id == id && rooms[id] in created.Values
      ensures id in RoomViews() && RoomViews()[id].phase == rooms[id].phase
    {
      hide RoomOk, RoomName;
    }

    /** Drops what a player or a waiting room no longer stands for. */
    method Forget(playerId: string, stale: bool)
      requires Valid()
      modifies this`players, this`waiting
      ensures Valid() && RoomViews() == old(RoomViews())
      ensures players == old(players) - {playerId} && waiting == (if stale then "" else old(waiting))
    {
      hide RoomOk, RoomName;
      players := players - {playerId};
      if stale {
        waiting := "";
      }
    }

    /** The section of Join that decides where to. */
    method ChooseRoom(playerId: string, seed: int) returns (room: Room)
      requires Valid()
      modifies this
      ensures Valid() && Knows(room)
      ensures Choice(DeskView(), RoomViews(), room.id) == old(RoomForJoin(DeskView(), RoomViews(), playerId, seed))
      ensures room in old(created.Values) || fresh(room)
    {
      hide RoomOk, RoomName, FreshRoom, Valid, RoomViews;
      if playerId in players && players[playerId] in rooms {
        KnowsRegistered(players[playerId]);
        return rooms[players[playerId]];
      }
      if waiting != "" && waiting in rooms {
        KnowsRegistered(waiting);
        if rooms[waiting].phase != Closed {
          room := rooms[waiting];
          Forget(playerId, false);
          return;
        }
      }
      Forget(playerId, true);
      room := AddRoom(seed);
    }

    /** The section of Join inside the room. */
    method SitIn(room: Room, playerId: string, runnerFails: bool) returns (result: JoinResult)
      requires Valid() && Knows(room)
      modifies room
      ensures Valid()
      ensures room.id in old(RoomViews()) && RoomOk(old(RoomViews())[room.id])
      ensures var joined := JoinRoom(old(RoomViews())[room.id], playerId, runnerFails);
              result == joined.result && RoomViews() == old(RoomViews())[room.id := joined.view]
    {
      hide RoomOk, JoinRoom, RoomName;
      ghost var before := RoomViews();
      JoinKeepsOk(room.View(), playerId, runnerFails);
      result := room.Join(playerId, runnerFails);
      assert RoomViews() == before[room.id := room.View()];
    }

    /** The section of Join that registers a seated player. */
    method EndJoin(room: Room, playerId: string)
      requires Valid() && Knows(room)
      modifies this`players, this`waiting
      ensures Valid() && RoomViews() == old(RoomViews())
      ensures DeskView() == FinishJoin(old(DeskView()), RoomViews(), playerId, room.id)
    {
      hide RoomOk, RoomName;
      players := players[playerId := room.id];
      if BothSeated(room.seats) && waiting == room.id {
        waiting := "";
      }
    }

    method Release(room: Room)
      requires Valid() && Knows(room)
      modifies this`rooms, this`waiting
      ensures Valid() && RoomViews() == old(RoomViews())
      ensures DeskView() == ReleaseOnJoinFailure(old(DeskView()), RoomViews(), room.id)
    {
      hide RoomOk, RoomName;
      if room.seats != map[] {
        return;
      }
      rooms := rooms - {room.id};
      if waiting == room.id {
        waiting := "";
      }
    }

    /** Join without interference: its sections in a row. */
    method Join(playerId: string, seed: int, runnerFails: bool) returns (r: JoinOutcome)
      requires Valid()
      modifies this, created.Values
      ensures Valid()
      ensures playerId == "" ==> r == NotJoined && DeskView() == old(DeskView()) && RoomViews() == old(RoomViews())
      ensures playerId != "" ==>
        var choice := old(RoomForJoin(DeskView(), RoomViews(), playerId, seed));
        && choice.roomId in choice.rooms && RoomOk(choice.rooms[choice.roomId])
        && var joined := JoinRoom(choice.rooms[choice.roomId], playerId, runnerFails);
           && RoomViews() == choice.rooms[choice.roomId := joined.view]
           && match joined.result
              case JoinRefused =>
                r == NotJoined && DeskView() == ReleaseOnJoinFailure(choice.desk, RoomViews(), choice.roomId)
              case Joined(seat, channel, again) =>
                r == JoinedRoom(choice.roomId, seat, channel, again)
                && DeskView() == FinishJoin(choice.desk, RoomViews(), playerId, choice.roomId)
    {
      hide RoomOk, JoinRoom, RoomForJoin, RoomName, Valid, FinishJoin, ReleaseOnJoinFailure;
      if playerId == "" {
        return NotJoined;
      }
      var room := ChooseRoom(playerId, seed);
      var result := SitIn(room, playerId, runnerFails);
      if result == JoinRefused {
        Release(room);
        return NotJoined;
      }
      EndJoin(room, playerId);
      return JoinedRoom(room.id, result.seat, result.channel, result.reconnected);
    }

    /** The section of Leave inside the room. */
    method StandUp(room: Room, playerId: string) returns (result: LeaveResult)
      requires Valid() && Knows(room)
      modifies room
      ensures Valid()
      ensures room.id in old(RoomViews()) && RoomOk(old(RoomViews())[room.id])
      ensures var left := LeaveRoom(old(RoomViews())[room.id], playerId);
              result == left.result && RoomViews() == old(RoomViews())[room.id := left.view]
    {
      hide RoomOk, LeaveRoom, RoomName;
      ghost var before := RoomViews();
      LeaveKeepsOk(room.View(), playerId);
      result := room.Leave(playerId);
      assert RoomViews() == before[room.id := room.View()];
    }

    /** The section of Leave that takes an empty room away. */
    method EndLeave(room: Room, playerId: string, empty: bool)
      requires Valid() && Knows(room)
      modifies this`players, this`rooms, this`waiting
      ensures Valid() && RoomViews() == old(RoomViews())
      ensures DeskView() == FinishLeave(old(DeskView()), RoomViews(), playerId, room.id, empty)
    {
      hide RoomOk, RoomName, Seated, Valid;
      if !empty {
        FewerRoomsValid();
        return;
      }
      players := players - Seated(room.View()) - {playerId};
      rooms := rooms - {room.id};
      if waiting == room.id {
        waiting := "";
      }
      assert RoomViews()[room.id] == room.View();
      FewerRoomsValid();
    }

    /** Taking rooms out of the registry, or entries out of the table, harms nothing. */
    twostate lemma FewerRoomsValid()
      requires old(Valid()) && created == old(created) && nextId == old(nextId)
      requires rooms.Keys <= old(rooms).Keys && forall id :: id in rooms ==> rooms[id] == old(rooms)[id]
      requires forall k :: k in created ==> created[k].View() == old(created[k].View())
      ensures Valid()
    {
      hide RoomOk, RoomName;
    }

    /** Leave without interference. */
    method Leave(playerId: string) returns (r: LeaveOutcome)
      requires Valid()
      modifies this, created.Values
      ensures Valid()
      ensures match old(RoomToLeave(DeskView(), playerId))
              case None => r == NotInRoom && DeskView() == old(DeskView()) && RoomViews() == old(RoomViews())
              case Some(id) =>
                && id in old(RoomViews()) && RoomOk(old(RoomViews())[id])
                && var left := LeaveRoom(old(RoomViews())[id], playerId);
                   && RoomViews() == old(RoomViews())[id := left.view]
                   && match left.result
                      case NotSeated => r == NotInRoom && DeskView() == old(DeskView())
                      case Departed(empty) =>
                        r == LeftRoom(id, empty)
                        && DeskView() == FinishLeave(old(DeskView()), RoomViews(), playerId, id, empty)
    {
      hide RoomOk, LeaveRoom, RoomName, FinishLeave;
      if playerId !in players || players[playerId] !in rooms {
        return NotInRoom;
      }
      var room := rooms[players[playerId]];
      var result := StandUp(room, playerId);
      if result.NotSeated? {
        return NotInRoom;
      }
      EndLeave(room, playerId, result.empty);
      return LeftRoom(room.id, result.empty);
    }

    /** The section of Submit inside the room. */
    method PlayIn(room: Room, playerId: string, c: Command, runnerFails: bool) returns (answer: RunnerAnswer)
      requires Valid() && Knows(room)
      modifies room
      ensures Valid()
      ensures room.id in old(RoomViews()) && RoomOk(old(RoomViews())[room.id])
      ensures var s := SubmitRoom(old(RoomViews())[room.id], playerId, c, runnerFails);
              answer == s.answer && RoomViews() == old(RoomViews())[room.id := s.view]
    {
      hide RoomOk, SubmitRoom, RoomName;
      ghost var before := RoomViews();
      SubmitKeepsOk(room.View(), playerId, c, runnerFails);
      answer := room.Submit(playerId, c, runnerFails);
      assert RoomViews() == before[room.id := room.View()];
    }

    /** Submit: only to the room the player is registered in. */
    method Submit(roomId: string, playerId: string, c: Command, runnerFails: bool) returns (answer: RunnerAnswer)
      requires Valid()
      modifies created.Values
      ensures Valid() && DeskView() == old(DeskView())
      ensures !old(MaySubmit(DeskView(), playerId, roomId)) ==>
                answer == Answer(Rejected(InvalidRequest, None)) && RoomViews() == old(RoomViews())
      ensures old(MaySubmit(DeskView(), playerId, roomId)) ==>
                && roomId in old(RoomViews()) && RoomOk(old(RoomViews())[roomId])
                && var s := SubmitRoom(old(RoomViews())[roomId], playerId, c, runnerFails);
                   answer == s.answer && RoomViews() == old(RoomViews())[roomId := s.view]
    {
      hide RoomOk, SubmitRoom, RoomName;
      if playerId !in players || players[playerId] != roomId || roomId !in rooms {
        return Answer(Rejected(InvalidRequest, None));
      }
      answer := PlayIn(rooms[roomId], playerId, c, runnerFails);
    }
  }

  lemma LaterNamesDiffer(m: nat)
    ensures forall n :: n > m ==> RoomName(n) != RoomName(m)
  {
    hide RoomName;
    forall n | n > m
      ensures RoomName(n) != RoomName(m)
    {
      if RoomName(m) == RoomName(n) {
        NameIsInjective(m, n);
      }
    }
  }

  lemma FreshRoomIs(id: string, seed: int)
    ensures FreshRoom(id, seed).id == id
  {
  }
}
