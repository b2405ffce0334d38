/** Where players and submissions end up, in every reachable world: submissions judged by who sits
    where and not by the manager's table, newcomers by who waits, returning players by their seats. */
module Routing {
  import opened Options
  import opened Protocol
  import opened Rules
  import opened Games
  import opened Contract
  import opened Rooms
  import opened RoomRuns
  import opened Agreement
  import opened Matches
  import opened Managers
  import opened Interleavings
  import opened Notices

  /** This player's Join has taken a seat and not yet entered it in the table. */
  predicate HalfJoined(w: World, x: string) {
    w.join.JoinSeated? && w.join.player == x
  }

  /** In every reachable world a submission goes to the room it names only if the player has a seat
      in that registered room; and, unless the player is just joining, always then. */
  lemma SubmissionIsRouted(acts: seq<Act>, t: nat, x: string, id: string, c: Command)
    requires t !in After(acts).submits
    ensures var w := After(acts);
            var n := Next(w, SubmitBegin(t, x, id, c));
            && (t in n.submits ==>
                  && id in w.desk.registered && x in Seated(w.rooms[id])
                  && n == w.(submits := w.submits[t := Pending(x, id, c)]))
            && (t !in n.submits ==> n == w)
            && (!HalfJoined(w, x) ==> (t in n.submits <==> id in w.desk.registered && x in Seated(w.rooms[id])))
  {
    hide After, RoomOk, Seated, Online, RoomName, JoinSound, OnlineSound, LeavesSound, RegistrySound;
    var w := After(acts);
    if MaySubmit(w.desk, x, id) {
      assert x in Seated(w.rooms[w.desk.players[x]]);
    }
  }

  /** While the own Join is under way a submission gets through only to a player who had joined
      that room before. */
  lemma HalfJoinedMaySubmit(acts: seq<Act>, t: nat, x: string, id: string, c: Command)
    requires t !in After(acts).submits && HalfJoined(After(acts), x)
    ensures var w := After(acts);
            t in Next(w, SubmitBegin(t, x, id, c)).submits
            <==> id in w.desk.registered && x in w.desk.players && w.desk.players[x] == id
  {
    hide After, RoomOk, Seated, Online, RoomName, JoinSound, OnlineSound, LeavesSound, RegistrySound, TableSound;
  }

  /** A command that the open match of a registered room waits for: by the player to move, from the
      own seat, for the current turn, on a listed cell. */
  predicate IsDue(v: RoomView, x: string, c: Command) {
    && v.phase != Closed && v.state.Some?
    && c.player in v.seats && v.seats[c.player].playerId == x
    && var s := v.state.value;
       && c.commandId != "" && c.kind == PlaceType && c.row.Some? && c.col.Some?
       && c.player == s.currentPlayer && c.expectedTurn == s.turnNumber
       && Position(c.row.value, c.col.value) in s.legalMoves
  }

  lemma DueIsAccepted(v: RoomView, x: string, c: Command)
    requires RoomOk(v) && IsDue(v, x, c)
    ensures MakesMove(v, SubmitOp(x, c, false))
  {
    hide InGame, ChannelsOk, SubmitRoom, Accepts, Step, CommandError, MakesMove;
    AcceptedIffListed(v.state.value, v.id, v.seed, c);
    AcceptedIsWellFormed(v.state.value, v.id, v.seed, c);
    SubmitAcceptsIff(v, x, c, false);
  }

  lemma MadeMoveIs(v: RoomView, x: string, c: Command)
    requires RoomOk(v) && MakesMove(v, SubmitOp(x, c, false))
    ensures v.state.Some?
    ensures var s := SubmitRoom(v, x, c, false);
            && s.view.state == Some(Step(v.state.value, c))
            && Step(v.state.value, c).turnNumber == v.state.value.turnNumber + 1
  {
    hide RoomOk, SubmitRoom, Accepts, Step;
    SubmitIsStepOrNothing(v, x, c, false);
    AcceptConsumesTurn(v.state.value, c);
  }

  /** The command becomes the next move of that room's game, and nothing else in the world changes. */
  ghost predicate IsPlayed(w: World, n: World, id: string, c: Command) {
    && id in w.rooms && id in n.rooms && w.rooms[id].state.Some? && n.rooms[id].state.Some?
    && n.rooms[id].state.value == Step(w.rooms[id].state.value, c)
    && n.rooms[id].state.value.turnNumber == w.rooms[id].state.value.turnNumber + 1
    && n == w.(rooms := w.rooms[id := n.rooms[id]])
  }

  lemma PlayIsPlayed(w: World, u: World, t: nat, x: string, id: string, c: Command)
    requires RoomsSound(w) && RoomsSound(u) && id in w.rooms && IsDue(w.rooms[id], x, c)
    requires t !in w.submits && u == w.(submits := w.submits[t := Pending(x, id, c)])
    ensures IsPlayed(w, DoSubmitPlay(u, t, false), id, c)
  {
    hide RoomOk, RoomName, Step, SubmitRoom, IsDue;
    DueIsAccepted(w.rooms[id], x, c);
    MadeMoveIs(w.rooms[id], x, c);
    assert u.submits - {t} == w.submits;
  }

  lemma AfterIsSound(acts: seq<Act>)
    ensures RoomsSound(After(acts)) && TableSound(After(acts))
  {
    hide RoomsSound, TableSound, JoinSound, OnlineSound, LeavesSound, RegistrySound, After;
  }

  /** So a due command gets to its room and is played. */
  lemma DueCommandIsPlayed(acts: seq<Act>, t: nat, x: string, id: string, c: Command)
    requires var w := After(acts);
             && t !in w.submits && !HalfJoined(w, x) && id in w.desk.registered && id in w.rooms
             && IsDue(w.rooms[id], x, c)
    ensures IsPlayed(After(acts), After(acts + [SubmitBegin(t, x, id, c), SubmitPlay(t, false)]), id, c)
  {
    hide RoomOk, Seated, RoomName, TableSound, Inv, IsDue, After, Next, IsPlayed;
    var w := After(acts);
    var begin, play := SubmitBegin(t, x, id, c), SubmitPlay(t, false);
    AfterIsSound(acts);
    AfterIsSound(acts + [begin]);
    DueHasSeat(w.rooms[id], x, c);
    OneMoreAct(acts, begin);
    OneMoreAct(acts + [begin], play);
    SubmissionIsRouted(acts, t, x, id, c);
    PlayIsPlayed(w, After(acts + [begin]), t, x, id, c);
    assert acts + [begin] + [play] == acts + [begin, play];
    PlayIs(After(acts + [begin]), t);
  }

  lemma PlayIs(w: World, t: nat)
    requires RoomsSound(w)
    ensures Next(w, SubmitPlay(t, false)) == DoSubmitPlay(w, t, false)
  {
    hide RoomsSound, DoSubmitPlay;
  }

  lemma DueHasSeat(v: RoomView, x: string, c: Command)
    requires RoomOk(v) && IsDue(v, x, c)
    ensures x in Seated(v)
  {
    hide InGame, ChannelsOk;
  }

  lemma OneMoreAct(acts: seq<Act>, a: Act)
    ensures After(acts + [a]) == Next(After(acts), a)
  {
    hide Next, RoomsSound, TableSound, JoinSound, OnlineSound, LeavesSound, RegistrySound;
    assert (acts + [a])[..|acts|] == acts;
  }

  // ----- pairing ----------------------------------------------------------------------

  /** An open room with one player in it. */
  predicate IsWaiting(v: RoomView) {
    v.phase != Closed && Seated(v) != {} && !Paired(v)
  }

  /** The room starts its match with this player as the second, and the table and the waiting place
      say so. */
  ghost predicate IsPairedWith(w: World, n: World, x: string, id: string) {
    && id in w.rooms && id in n.rooms
    && Paired(n.rooms[id]) && Seated(n.rooms[id]) == Seated(w.rooms[id]) + {x}
    && n.rooms[id].phase == InPlay && n.rooms[id].state == Some(NewGame(id, w.rooms[id].seed))
    && n.desk == w.desk.(players := w.desk.players[x := id], waiting := "")
    && n.rooms == w.rooms[id := n.rooms[id]] && n.members == w.members + {x} && n.join == NoJoin
  }

  lemma SecondPlayerStarts(v: RoomView, x: string)
    requires RoomOk(v) && IsWaiting(v) && x !in Seated(v) && v.id != "" && IsUint32(v.seed)
    ensures var j := JoinRoom(v, x, false);
            && j.result.Joined? && Paired(j.view) && Seated(j.view) == Seated(v) + {x}
            && j.view.phase == InPlay && j.view.state == Some(NewGame(v.id, v.seed))
  {
    hide InGame, NewGame, ChannelsOk, JoinRoom;
    JoinEffect(v, x, false);
    MatchStarts(v, x);
    SecondSeat(v, x);
  }

  lemma SecondSeat(v: RoomView, x: string)
    requires RoomOk(v) && v.phase == Waiting && Dark in v.seats && v.seats[Dark].playerId != x
    requires JoinRoom(v, x, false).result == Joined(Light, |v.channels|, false)
    ensures Paired(JoinRoom(v, x, false).view)
  {
    hide InGame, NewGame, ChannelsOk, RunEngine, Broadcast, AllUsable;
  }

  lemma BeginsAt(w: World, x: string, seed: int, id: string)
    requires RoomsSound(w) && w.join == NoJoin && x != "" && x !in w.desk.players
    requires id in w.desk.registered && id == w.desk.waiting && w.rooms[id].phase != Closed
    ensures Next(w, JoinBegin(x, seed)) == w.(join := JoinChosen(x, id))
  {
    hide RoomOk, RoomName, Seated;
    assert w.desk.players - {x} == w.desk.players;
  }

  lemma SitsDown(w: World, x: string, id: string)
    requires RoomsSound(w) && w.join == JoinChosen(x, id)
    requires IsWaiting(w.rooms[id]) && x !in Seated(w.rooms[id]) && IsUint32(w.rooms[id].seed)
    ensures var n := Next(w, JoinSit(false));
            && id in n.rooms && n == w.(rooms := w.rooms[id := n.rooms[id]], join := JoinSeated(x, id))
            && Paired(n.rooms[id]) && Seated(n.rooms[id]) == Seated(w.rooms[id]) + {x}
            && n.rooms[id].phase == InPlay && n.rooms[id].state == Some(NewGame(id, w.rooms[id].seed))
  {
    hide RoomOk, RoomName, JoinRoom, NewGame, Seated, Paired;
    SecondPlayerStarts(w.rooms[id], x);
  }

  lemma EndsPaired(w: World, x: string, id: string)
    requires RoomsSound(w) && w.join == JoinSeated(x, id) && Paired(w.rooms[id]) && w.desk.waiting == id
    ensures Next(w, JoinEnd)
         == w.(desk := w.desk.(players := w.desk.players[x := id], waiting := ""), join := NoJoin,
               members := w.members + {x})
  {
    hide RoomOk, RoomName;
  }

  /** Pairing, from any reachable world with no other Join under way: a newcomer joins the room that
      waits, whichever player waits there, and the match starts. */
  lemma NewcomerIsPaired(acts: seq<Act>, x: string, seed: int, id: string)
    requires var w := After(acts);
             && w.join == NoJoin && x != "" && x !in w.desk.players
             && id in w.desk.registered && id in w.rooms && IsWaiting(w.rooms[id]) && IsUint32(w.rooms[id].seed)
    ensures IsPairedWith(After(acts), After(acts + [JoinBegin(x, seed), JoinSit(false), JoinEnd]), x, id)
  {
    hide RoomOk, RoomName, Seated, Paired, After, Next, NewGame, IsWaiting, TableSound, JoinSound, OnlineSound,
         LeavesSound, RegistrySound, Inv;
    var w := After(acts);
    var one, two := acts + [JoinBegin(x, seed)], acts + [JoinBegin(x, seed)] + [JoinSit(false)];
    AfterIsSound(acts);
    AfterIsSound(one);
    AfterIsSound(two);
    WaitsFor(acts, x, id);
    BeginsAt(w, x, seed, id);
    OneMoreAct(acts, JoinBegin(x, seed));
    OneMoreAct(one, JoinSit(false));
    OneMoreAct(two, JoinEnd);
    assert two + [JoinEnd] == acts + [JoinBegin(x, seed), JoinSit(false), JoinEnd];
    SitsDown(After(one), x, id);
    EndsPaired(After(two), x, id);
  }

  lemma WaitsFor(acts: seq<Act>, x: string, id: string)
    requires var w := After(acts);
             w.join == NoJoin && x !in w.desk.players
             && id in w.desk.registered && id in w.rooms && IsWaiting(w.rooms[id])
    ensures id == After(acts).desk.waiting && x !in Seated(After(acts).rooms[id])
    ensures After(acts).rooms[id].phase != Closed
  {
    hide After, RoomOk, Seated, Online, RoomName, JoinSound, OnlineSound, LeavesSound;
    OneRoomWaits(acts, id, id);
  }

  /** The next room with one player in it, in the dark seat, told to wait. */
  function WaitingRoom(id: string, seed: int, x: string): RoomView {
    RoomView(id, seed, map[Dark := Seat(x, Some(0), true)], None, Waiting,
             [Channel([RoomEvent(WaitingEvent, id, Dark, None, None)], 0, false)])
  }

  lemma OpensNext(w: World, x: string, seed: int)
    requires RoomsSound(w) && w.join == NoJoin && x != "" && x !in w.desk.players
    requires w.desk.waiting in w.desk.registered ==> w.rooms[w.desk.waiting].phase == Closed
    ensures var id := RoomName(w.desk.nextId + 1);
            && id !in w.rooms
            && Next(w, JoinBegin(x, seed))
               == w.(desk := Desk(w.desk.registered + {id}, w.desk.players, id, w.desk.nextId + 1),
                     rooms := w.rooms[id := FreshRoom(id, seed)], join := JoinChosen(x, id))
  {
    hide RoomOk, RoomName;
    assert w.desk.players - {x} == w.desk.players;
  }

  lemma SitsFirst(w: World, x: string, id: string, seed: int, runnerFails: bool)
    requires RoomsSound(w) && w.join == JoinChosen(x, id) && w.rooms[id] == FreshRoom(id, seed)
    ensures Next(w, JoinSit(runnerFails))
         == w.(rooms := w.rooms[id := WaitingRoom(id, seed, x)], join := JoinSeated(x, id))
  {
    hide RoomOk, RoomName, JoinRoom, WaitingRoom;
    FirstIsToldToWait(w.rooms[id], x, runnerFails);
    FirstStays(id, seed, x, runnerFails);
  }

  lemma FirstStays(id: string, seed: int, x: string, runnerFails: bool)
    ensures RoomOk(FreshRoom(id, seed))
    ensures JoinRoom(FreshRoom(id, seed), x, runnerFails).view == WaitingRoom(id, seed, x)
  {
    hide InGame, RunEngine, JoinRoom;
    FreshRoomOk(id, seed);
    var v := FreshRoom(id, seed);
    FirstIsToldToWait(v, x, runnerFails);
    JoinSets(v, x, runnerFails);
    assert v.channels + [WaitingRoom(id, seed, x).channels[0]] == WaitingRoom(id, seed, x).channels;
  }

  lemma EndsWaiting(w: World, x: string, id: string)
    requires RoomsSound(w) && w.join == JoinSeated(x, id) && !Paired(w.rooms[id])
    ensures Next(w, JoinEnd)
         == w.(desk := w.desk.(players := w.desk.players[x := id]), join := NoJoin, members := w.members + {x})
  {
    hide RoomOk, RoomName;
  }

  predicate NoFreeSeat(w: World) {
    forall id :: id in w.desk.registered && id in w.rooms ==> w.rooms[id].phase == Closed || Paired(w.rooms[id])
  }

  /** The player waits in the next room, and nothing else in the world changes. */
  ghost predicate WaitsInNext(w: World, n: World, x: string, seed: int) {
    var id := RoomName(w.desk.nextId + 1);
    && id !in w.rooms
    && n == w.(desk := Desk(w.desk.registered + {id}, w.desk.players[x := id], id, w.desk.nextId + 1),
               rooms := w.rooms[id := WaitingRoom(id, seed, x)], members := w.members + {x})
  }

  /** Where no open room has a free seat, a newcomer waits in the next room. */
  lemma NewcomerWaits(acts: seq<Act>, x: string, seed: int, runnerFails: bool)
    requires After(acts).join == NoJoin && x != "" && x !in After(acts).desk.players && NoFreeSeat(After(acts))
    ensures WaitsInNext(After(acts), After(acts + [JoinBegin(x, seed), JoinSit(runnerFails), JoinEnd]), x, seed)
  {
    hide RoomOk, RoomName, Paired, After, Next, TableSound, JoinSound, OnlineSound, LeavesSound, RegistrySound, Inv,
         WaitingRoom, NoFreeSeat;
    var w, id := After(acts), RoomName(After(acts).desk.nextId + 1);
    var one, two := acts + [JoinBegin(x, seed)], acts + [JoinBegin(x, seed)] + [JoinSit(runnerFails)];
    AfterIsSound(acts);
    AfterIsSound(one);
    AfterIsSound(two);
    NobodyWaits(acts);
    OpensNext(w, x, seed);
    OneMoreAct(acts, JoinBegin(x, seed));
    OneMoreAct(one, JoinSit(runnerFails));
    OneMoreAct(two, JoinEnd);
    assert two + [JoinEnd] == acts + [JoinBegin(x, seed), JoinSit(runnerFails), JoinEnd];
    SitsFirst(After(one), x, id, seed, runnerFails);
    OneIsNoPair(id, seed, x);
    EndsWaiting(After(two), x, id);
    SetTwice(w.rooms, id, FreshRoom(id, seed), WaitingRoom(id, seed, x));
  }

  lemma SetTwice(rooms: map<string, RoomView>, id: string, v: RoomView, u: RoomView)
    ensures rooms[id := v][id := u] == rooms[id := u]
  {
  }

  lemma OneIsNoPair(id: string, seed: int, x: string)
    ensures !Paired(WaitingRoom(id, seed, x))
  {
  }

  lemma NobodyWaits(acts: seq<Act>)
    requires After(acts).join == NoJoin && NoFreeSeat(After(acts))
    ensures var w := After(acts);
            w.desk.waiting in w.desk.registered ==>
              w.desk.waiting in w.rooms && w.rooms[w.desk.waiting].phase == Closed
  {
    hide After, RoomOk, Seated, Online, RoomName, TableSound, JoinSound, OnlineSound, LeavesSound, Paired;
  }

  // ----- coming back ------------------------------------------------------------------

  /** The player is back in the own seat of the same match, and nothing else in the world changes. */
  ghost predicate IsBack(w: World, n: World, x: string, id: string) {
    && id in w.rooms && id in n.rooms
    && Seated(n.rooms[id]) == Seated(w.rooms[id]) && Online(n.rooms[id]) == Online(w.rooms[id]) + {x}
    && n.rooms[id].state == w.rooms[id].state && n.rooms[id].phase == PhaseOf(n.rooms[id].seats)
    && n == w.(rooms := w.rooms[id := n.rooms[id]], members := w.members + {x})
  }

  lemma SeatTakenAgain(v: RoomView, x: string, runnerFails: bool)
    requires RoomOk(v) && v.phase != Closed && x in Seated(v) && x !in Online(v)
    ensures var j := JoinRoom(v, x, runnerFails);
            && j.result.Joined? && j.result.reconnected && j.view.phase == PhaseOf(j.view.seats)
            && Seated(j.view) == Seated(v) && Online(j.view) == Online(v) + {x} && j.view.state == v.state
  {
    hide InGame, NewGame, ChannelsOk, JoinRoom, Seated, Online;
    SeatsShow(v);
    JoinEffect(v, x, runnerFails);
    JoinKeepsOk(v, x, runnerFails);
    assert Seated(v) + {x} == Seated(v);
    AwayReconnects(v, x, runnerFails);
    ReconnectStartsWithState(v, x, runnerFails);
  }

  lemma AwayReconnects(v: RoomView, x: string, runnerFails: bool)
    requires RoomOk(v) && v.phase != Closed && x in Seated(v) && x !in Online(v)
    ensures JoinRoom(v, x, runnerFails).result.Joined? && JoinRoom(v, x, runnerFails).result.reconnected
  {
    hide InGame, NewGame, ChannelsOk, NotifyOthers, DeliverTo, AllUsable, RunEngine;
  }

  lemma BeginsAgain(w: World, x: string, seed: int, id: string)
    requires RoomsSound(w) && w.join == NoJoin && x != "" && x in w.desk.players && w.desk.players[x] == id
    requires id in w.desk.registered
    ensures Next(w, JoinBegin(x, seed)) == w.(join := JoinChosen(x, id))
  {
    hide RoomOk, RoomName;
  }

  lemma SitsAgain(w: World, x: string, id: string, runnerFails: bool)
    requires RoomsSound(w) && w.join == JoinChosen(x, id)
    requires w.rooms[id].phase != Closed && x in Seated(w.rooms[id]) && x !in Online(w.rooms[id])
    ensures var n := Next(w, JoinSit(runnerFails));
            && id in n.rooms && n == w.(rooms := w.rooms[id := n.rooms[id]], join := JoinSeated(x, id))
            && Seated(n.rooms[id]) == Seated(w.rooms[id]) && Online(n.rooms[id]) == Online(w.rooms[id]) + {x}
            && n.rooms[id].state == w.rooms[id].state && n.rooms[id].phase == PhaseOf(n.rooms[id].seats)
  {
    hide RoomOk, RoomName, JoinRoom, Seated, Online;
    SeatTakenAgain(w.rooms[id], x, runnerFails);
  }

  lemma EndsAgain(w: World, x: string, id: string)
    requires RoomsSound(w) && w.join == JoinSeated(x, id) && x in w.desk.players && w.desk.players[x] == id
    requires w.desk.waiting == id ==> !Paired(w.rooms[id])
    ensures Next(w, JoinEnd) == w.(join := NoJoin, members := w.members + {x})
  {
    hide RoomOk, RoomName;
    assert w.desk.players[x := id] == w.desk.players;
  }

  lemma OwnPlace(acts: seq<Act>, x: string)
    requires After(acts).join == NoJoin && x in After(acts).desk.players
    ensures var w := After(acts);
            var id := w.desk.players[x];
            && id in w.desk.registered && id in w.rooms && x in Seated(w.rooms[id])
            && (w.desk.waiting == id ==> !Paired(w.rooms[id]))
  {
    hide After, RoomOk, Seated, Online, RoomName, JoinSound, OnlineSound, LeavesSound, Paired;
  }

  /** Coming back, from any reachable world with no other Join under way and whether the engine runs or
      not: who has a place in an open room and is away gets the own seat back in the same match. */
  lemma ReturnerComesBack(acts: seq<Act>, x: string, seed: int, id: string, runnerFails: bool)
    requires var w := After(acts);
             && w.join == NoJoin && x != "" && x in w.desk.players && w.desk.players[x] == id && id in w.rooms
             && w.rooms[id].phase != Closed && x !in Online(w.rooms[id])
    ensures IsBack(After(acts), After(acts + [JoinBegin(x, seed), JoinSit(runnerFails), JoinEnd]), x, id)
  {
    hide RoomOk, RoomName, Seated, Online, Paired, After, Next, TableSound, JoinSound, OnlineSound,
         LeavesSound, RegistrySound, Inv;
    var one, two := acts + [JoinBegin(x, seed)], acts + [JoinBegin(x, seed)] + [JoinSit(runnerFails)];
    AfterIsSound(acts);
    AfterIsSound(one);
    AfterIsSound(two);
    OwnPlace(acts, x);
    BeginsAgain(After(acts), x, seed, id);
    OneMoreAct(acts, JoinBegin(x, seed));
    OneMoreAct(one, JoinSit(runnerFails));
    OneMoreAct(two, JoinEnd);
    assert two + [JoinEnd] == acts + [JoinBegin(x, seed), JoinSit(runnerFails), JoinEnd];
    SitsAgain(After(one), x, id, runnerFails);
    StaysPaired(After(one).rooms[id], After(two).rooms[id]);
    EndsAgain(After(two), x, id);
  }

  lemma StaysPaired(v: RoomView, u: RoomView)
    requires RoomOk(v) && RoomOk(u) && Seated(u) == Seated(v)
    ensures Paired(u) <==> Paired(v)
  {
    hide InGame, ChannelsOk;
    SeatedCount(v);
    SeatedCount(u);
  }

  lemma SeatedCount(v: RoomView)
    requires RoomOk(v)
    ensures Paired(v) <==> |Seated(v)| == 2
  {
    hide InGame, ChannelsOk;
  }
}
