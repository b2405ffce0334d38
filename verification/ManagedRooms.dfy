/** The rooms of a run with many callers are rooms: whatever the manager's sections do to one of them
    is a sequence of the room's own operations, so that everything proved of a room's whole life
    holds of the rooms that the manager makes. */
module ManagedRooms {
  import opened Protocol
  import opened Rules
  import opened Games
  import opened Grammar
  import opened Rooms
  import opened RoomRuns
  import opened Agreement
  import opened Matches
  import opened Interleavings

  ghost predicate IsLife(v: RoomView) {
    exists ops :: v == Life(v.id, v.seed, ops)
  }

  ghost predicate IsNameUpTo(id: string, n: nat) {
    exists k: nat :: k <= n && id == RoomName(k)
  }

  ghost predicate AllMade(w: World) {
    forall id :: id in w.rooms ==> w.rooms[id].id == id && IsLife(w.rooms[id]) && IsNameUpTo(id, w.desk.nextId)
  }

  lemma FreshIsLife(id: string, seed: int)
    ensures IsLife(FreshRoom(id, seed)) && FreshRoom(id, seed).id == id
  {
    assert FreshRoom(id, seed) == Life(id, seed, []);
  }

  lemma StepIsLife(v: RoomView, op: RoomOp)
    requires IsLife(v)
    ensures RoomOk(v) && IsLife(StepRoom(v, op)) && StepRoom(v, op).id == v.id && StepRoom(v, op).seed == v.seed
  {
    hide RoomOk, StepRoom;
    var ops :| v == Life(v.id, v.seed, ops);
    StepState(v, op);
    var longer := ops + [op];
    assert longer[..|ops|] == ops;
    assert StepRoom(v, op) == Life(v.id, v.seed, longer);
  }

  lemma OneRoomSteps(w: World, id: string, op: RoomOp, n: World)
    requires AllMade(w) && id in w.rooms && n.desk.nextId == w.desk.nextId
    requires RoomOk(w.rooms[id]) && n.rooms == w.rooms[id := StepRoom(w.rooms[id], op)]
    ensures AllMade(n)
  {
    hide RoomOk, StepRoom, IsLife, IsNameUpTo;
    StepIsLife(w.rooms[id], op);
  }

  lemma BeginRooms(w: World, x: string, seed: int)
    requires RoomsSound(w)
    ensures var n, id := DoJoinBegin(w, x, seed), RoomName(w.desk.nextId + 1);
            || (n.rooms == w.rooms && n.desk.nextId == w.desk.nextId)
            || (n.rooms == w.rooms[id := FreshRoom(id, seed)] && n.desk.nextId == w.desk.nextId + 1)
  {
    hide RoomOk, RoomName, FreshRoom;
  }

  lemma BeginIsMade(w: World, x: string, seed: int)
    requires RoomsSound(w) && AllMade(w)
    ensures AllMade(DoJoinBegin(w, x, seed))
  {
    hide RoomsSound, RoomOk, IsLife, RoomName, FreshRoom, DoJoinBegin;
    BeginRooms(w, x, seed);
    var id := RoomName(w.desk.nextId + 1);
    FreshIsLife(id, seed);
    var n := DoJoinBegin(w, x, seed);
    forall i | i in n.rooms
      ensures IsNameUpTo(i, n.desk.nextId)
    {
      if i in w.rooms {
        var k: nat :| k <= w.desk.nextId && i == RoomName(k);
      }
    }
  }

  lemma NextIsMade(w: World, a: Act)
    requires RoomsSound(w) && AllMade(w)
    ensures AllMade(Next(w, a))
  {
    hide RoomOk, IsLife, IsNameUpTo, RoomName, DoJoinBegin, AllMade, JoinRoom, LeaveRoom, SubmitRoom, TakeFrom;
    match a {
      case JoinBegin(x, seed) => BeginIsMade(w, x, seed);
      case JoinSit(fails) =>
        if w.join.JoinChosen? {
          OneRoomSteps(w, w.join.roomId, JoinOp(w.join.player, fails), DoJoinSit(w, fails));
        }
      case JoinEnd => SameRoomsMade(w, DoJoinEnd(w));
      case LeaveBegin(t, x) => SameRoomsMade(w, DoLeaveBegin(w, t, x));
      case LeaveStand(t) =>
        if t in w.leaves && w.leaves[t].LeaveFound? {
          OneRoomSteps(w, w.leaves[t].roomId, LeaveOp(w.leaves[t].player), DoLeaveStand(w, t));
        }
      case LeaveEnd(t) => SameRoomsMade(w, DoLeaveEnd(w, t));
      case SubmitBegin(t, x, id, c) => SameRoomsMade(w, DoSubmitBegin(w, t, x, id, c));
      case SubmitPlay(t, fails) =>
        if t in w.submits {
          var s := w.submits[t];
          OneRoomSteps(w, s.roomId, SubmitOp(s.player, s.command, fails), DoSubmitPlay(w, t, fails));
        }
      case Receive(id, channel) =>
        if id in w.rooms {
          OneRoomSteps(w, id, TakeOp(channel), DoReceive(w, id, channel));
        }
    }
  }

  lemma SameRoomsMade(w: World, n: World)
    requires AllMade(w) && n.rooms == w.rooms && n.desk.nextId == w.desk.nextId
    ensures AllMade(n)
  {
  }

  lemma {:induction false} AfterIsMade(acts: seq<Act>)
    ensures AllMade(After(acts))
  {
    hide RoomOk, IsLife, IsNameUpTo, Next;
    if acts != [] {
      AfterIsMade(acts[..|acts| - 1]);
      NextIsMade(After(acts[..|acts| - 1]), acts[|acts| - 1]);
    }
  }

  // ----- the theorems -----------------------------------------------------------------

  /** Every room ever made, in any run, has lived through some operations of its own. */
  lemma EveryRoomIsALife(acts: seq<Act>, id: string)
    requires id in After(acts).rooms
    ensures var v := After(acts).rooms[id];
            exists ops :: v == Life(id, v.seed, ops)
    ensures IsNameUpTo(id, After(acts).desk.nextId)
  {
    hide After, Life, IsNameUpTo;
    AfterIsMade(acts);
  }

  /** So the clients of every room agree, however the callers mix. */
  lemma ManagedClientsAgree(acts: seq<Act>, id: string, a: nat, i: nat, b: nat, j: nat)
    requires id in After(acts).rooms
    requires var channels := After(acts).rooms[id].channels;
             a < |channels| && i < |channels[a].sent| && b < |channels| && j < |channels[b].sent|
    ensures var channels := After(acts).rooms[id].channels;
            var d, e := channels[a].sent[i], channels[b].sent[j];
            d.state.Some? && e.state.Some? ==>
              && (d.state.value.turnNumber == e.state.value.turnNumber ==> d.state == e.state)
              && (a == b && i < j ==> d.state.value.turnNumber <= e.state.value.turnNumber)
  {
    hide After, Life, IsNameUpTo, Ledger, NewGame, Run;
    EveryRoomIsALife(acts, id);
    var v := After(acts).rooms[id];
    var ops :| v == Life(id, v.seed, ops);
    ClientsAgree(id, v.seed, ops, a, i, b, j);
  }

  /** The room has lived through these operations, and whatever times the server's clock showed, its
      record of them holds what it should. */
  ghost predicate IsRecorded(v: RoomView, startedAt: string, ops: seq<RoomOp>)
    requires IsUint32(v.seed)
  {
    && v == Life(v.id, v.seed, ops)
    && forall ts :: OpsOf(ts) == ops && Stamped(ts) ==>
         && Match(v.id, v.seed, startedAt, ts).room == v
         && Recording(Match(v.id, v.seed, startedAt, ts), Ledger(v.id, v.seed, ops), startedAt,
                      EndTime(v.id, v.seed, startedAt, ts))
  }

  predicate Stamped(ts: seq<TimedOp>) {
    forall i :: 0 <= i < |ts| ==> Stamp(ts[i].now)
  }

  /** And so every match of every room is recorded, and saved exactly when it has finished. */
  lemma ManagedMatchesSave(acts: seq<Act>, id: string, v: RoomView, startedAt: string)
    requires id in After(acts).rooms && After(acts).rooms[id] == v && IsUint32(v.seed)
    requires After(acts).desk.nextId <= 0x7fff_ffff_ffff_ffff && Stamp(startedAt)
    ensures exists ops :: IsRecorded(v, startedAt, ops)
  {
    hide After, Life, RoomName, IsRecorded, Stamp, RoomOk;
    EveryRoomIsALife(acts, id);
    AfterIsMade(acts);
    var ops :| v == Life(id, v.seed, ops);
    var k: nat :| k <= After(acts).desk.nextId && id == RoomName(k);
    RoomNamesAreIds(k, k);
    LifeIsRecorded(v, startedAt, ops);
  }

  lemma LifeIsRecorded(v: RoomView, startedAt: string, ops: seq<RoomOp>)
    requires ValidGameId(v.id) && IsUint32(v.seed) && Stamp(startedAt) && v == Life(v.id, v.seed, ops)
    ensures IsRecorded(v, startedAt, ops)
  {
    hide Life, Match, Recording, Ledger, OpsOf, EndTime, RoomOk, Stamp, ValidGameId;
    forall ts | OpsOf(ts) == ops && Stamped(ts)
      ensures Match(v.id, v.seed, startedAt, ts).room == v
      ensures Recording(Match(v.id, v.seed, startedAt, ts), Ledger(v.id, v.seed, ops), startedAt,
                        EndTime(v.id, v.seed, startedAt, ts))
    {
      MatchRoomIsLife(v.id, v.seed, startedAt, ts);
      EveryFinishedMatchSaves(v.id, v.seed, startedAt, ts);
    }
  }
}
