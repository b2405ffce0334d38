/** What the engine's answers tell: the event of an accepted command describes the move completely,
    and the code of a refusal names its reason. */
module Events {
  import opened Options
  import opened Protocol
  import opened Rules
  import opened Moves
  import opened Random
  import opened Games

  // ----- writing an event onto a board ------------------------------------------------

  function CellOfChange(c: Change): int {
    Index(c.row, c.col)
  }

  predicate ChangesInBounds(changes: seq<Change>) {
    forall i :: 0 <= i < |changes| ==> InBounds(changes[i].row, changes[i].col)
  }

  /** What a client does with the changes of an event: it writes them onto its board. */
  function WriteChanges(b: Board, changes: seq<Change>): (r: Board)
    requires |b| == BOARD_CELLS && ChangesInBounds(changes)
    ensures |r| == BOARD_CELLS
  {
    if |changes| == 0 then b
    else
      var last := changes[|changes| - 1];
      assert InBounds(last.row, last.col);
      WriteChanges(b, changes[..|changes| - 1])[CellOfChange(last) := Some(last.color)]
  }

  /** The changes of some conversions, one by one. */
  predicate ChangesMatch(b: Board, color: int, hits: seq<Hit>, changes: seq<Change>)
    requires forall h :: h in hits ==> HitOk(b, h)
  {
    |changes| == |hits| && ChangesInBounds(changes)
    && forall i :: 0 <= i < |hits| ==>
         CellOfChange(changes[i]) == hits[i].target && changes[i].color == HitColor(b, color, hits[i])
  }

  lemma {:induction false} ChangesAre(b: Board, color: int, hits: seq<Hit>)
    requires |b| == BOARD_CELLS && forall h :: h in hits ==> HitOk(b, h)
    ensures ChangesMatch(b, color, hits, ChangesOf(b, color, hits))
    ensures WriteChanges(b, ChangesOf(b, color, hits)) == Recolor(b, color, hits)
  {
    hide HitColor;
    if |hits| > 0 {
      var before, last := hits[..|hits| - 1], hits[|hits| - 1];
      assert HitOk(b, last);
      ChangesAre(b, color, before);
      var changes := ChangesOf(b, color, hits);
      assert changes[..|changes| - 1] == ChangesOf(b, color, before);
    }
  }

  // ----- an accepted placement --------------------------------------------------------

  /** Pairwise different cells, all holding pieces on the board before the move. */
  predicate ChangesTouchPieces(b: Board, changes: seq<Change>)
    requires |b| == BOARD_CELLS && ChangesInBounds(changes)
  {
    && (forall i :: 0 <= i < |changes| ==> b[CellOfChange(changes[i])].Some?)
    && (forall i, j :: 0 <= i < j < |changes| ==> CellOfChange(changes[i]) != CellOfChange(changes[j]))
  }

  /** A cell that lies strictly inside a run that starts next to the placed piece. */
  ghost predicate InsideRun(b: Board, row: int, col: int, i: int)
    requires |b| == BOARD_CELLS && InBounds(row, col)
  {
    exists d: Direction, k :: 1 <= k < RunLength(b, row, col, d, 1) && RayIndex(row, col, d, k) == i
  }

  ghost predicate IsChanged(changes: seq<Change>, i: int) {
    exists j :: 0 <= j < |changes| && CellOfChange(changes[j]) == i
  }

  lemma ChangesOfMove(b: Board, row: int, col: int, color: int)
    requires |b| == BOARD_CELLS && InBounds(row, col)
    ensures var changes := ChangesOf(b, color, MoveHits(b, row, col));
            && ChangesInBounds(changes) && ChangesTouchPieces(b, changes)
            && WriteChanges(b, changes)[Index(row, col) := Some(color)] == PlacedBoard(b, row, col, color)
            && !IsChanged(changes, Index(row, col))
            && forall i :: IsChanged(changes, i) <==> InsideRun(b, row, col, i)
  {
    hide MoveHits, FromRay, Recolor, ChangesOf, WriteChanges, HitColor;
    var hits := MoveHits(b, row, col);
    MoveHitsIndependent(b, row, col);
    ChangesAre(b, color, hits);
    var changes := ChangesOf(b, color, hits);
    forall i | 0 <= i < |changes|
      ensures b[CellOfChange(changes[i])].Some? && CellOfChange(changes[i]) != Index(row, col)
    {
      assert hits[i] in hits && HitOk(b, hits[i]);
    }
    forall i
      ensures IsChanged(changes, i) <==> InsideRun(b, row, col, i)
    {
      ChangedIsInside(b, row, col, hits, i);
      if IsChanged(changes, i) {
        var j :| 0 <= j < |changes| && CellOfChange(changes[j]) == i;
        assert hits[j].target == i;
      }
      if j :| 0 <= j < |hits| && hits[j].target == i {
        assert CellOfChange(changes[j]) == i;
      }
    }
  }

  lemma ChangedIsInside(b: Board, row: int, col: int, hits: seq<Hit>, i: int)
    requires |b| == BOARD_CELLS && InBounds(row, col)
    requires forall h :: h in hits <==> exists d: Direction, k :: FromRay(b, row, col, h, d, k)
    ensures InsideRun(b, row, col, i) <==> exists j :: 0 <= j < |hits| && hits[j].target == i
  {
    hide RunLength, RayIndex;
    if InsideRun(b, row, col, i) {
      var d: Direction, k :| 1 <= k < RunLength(b, row, col, d, 1) && RayIndex(row, col, d, k) == i;
      var h := Hit(RayIndex(row, col, d, k), RayIndex(row, col, d, RunLength(b, row, col, d, 1)));
      assert FromRay(b, row, col, h, d, k);
      assert h in hits;
    }
    if j :| 0 <= j < |hits| && hits[j].target == i {
      assert hits[j] in hits;
      var d, k :| FromRay(b, row, col, hits[j], d, k);
    }
  }

  /** The change at i lies in direction d, k steps from the placed piece. */
  predicate LiesAt(b: Board, row: int, col: int, i: int, d: Direction, k: int)
    requires |b| == BOARD_CELLS && InBounds(row, col)
  {
    1 <= k < RunLength(b, row, col, d, 1) && RayIndex(row, col, d, k) == i
  }

  /** Direction by direction in the order of the table, and outwards within a direction. */
  ghost predicate ChangesInOrder(b: Board, row: int, col: int, changes: seq<Change>)
    requires |b| == BOARD_CELLS && InBounds(row, col)
  {
    forall i, j, d: Direction, k, e: Direction, m :: 0 <= i < j < |changes|
      && LiesAt(b, row, col, CellOfChange(changes[i]), d, k) && LiesAt(b, row, col, CellOfChange(changes[j]), e, m)
      ==> d < e || (d == e && k < m)
  }

  ghost predicate HitsInOrder(b: Board, row: int, col: int, hits: seq<Hit>)
    requires |b| == BOARD_CELLS && InBounds(row, col)
  {
    forall i, j, d: Direction, k, e: Direction, m :: 0 <= i < j < |hits|
      && FromRay(b, row, col, hits[i], d, k) && FromRay(b, row, col, hits[j], e, m)
      ==> d < e || (d == e && k < m)
  }

  lemma {:induction false} HitsComeInOrder(b: Board, row: int, col: int, n: nat)
    requires |b| == BOARD_CELLS && InBounds(row, col) && n <= 8
    ensures HitsInOrder(b, row, col, HitsUpTo(b, row, col, n))
  {
    hide FromRay, HitsUpTo, DirectionHits;
    NoHitsYet(b, row, col);
    if n > 0 {
      var last: Direction := n - 1;
      HitsComeInOrder(b, row, col, last);
      HitsComeFromRays(b, row, col, last);
      HitsStep(b, row, col, last);
      DirectionHitsAre(b, row, col, last);
      var before, after := HitsUpTo(b, row, col, last), DirectionHits(b, row, col, last);
      var hits := HitsUpTo(b, row, col, n);
      forall i, j, d: Direction, k, e: Direction, m | 0 <= i < j < |hits|
        && FromRay(b, row, col, hits[i], d, k) && FromRay(b, row, col, hits[j], e, m)
        ensures d < e || (d == e && k < m)
      {
        if j >= |before| {
          HitsApart(b, row, col, hits[j], e, m, hits[j], last, j - |before| + 1);
          if i >= |before| {
            HitsApart(b, row, col, hits[i], d, k, hits[i], last, i - |before| + 1);
          } else {
            assert before[i] in before;
            var d': Direction, k' :| d' < last && FromRay(b, row, col, before[i], d', k');
            HitsApart(b, row, col, hits[i], d, k, hits[i], d', k');
          }
        }
      }
    }
  }

  lemma ChangesComeInOrder(b: Board, row: int, col: int, color: int)
    requires |b| == BOARD_CELLS && InBounds(row, col)
    ensures ChangesInOrder(b, row, col, ChangesOf(b, color, MoveHits(b, row, col)))
  {
    hide MoveHits, RunLength, RayIndex, ChangesOf, WriteChanges, Recolor, HitColor;
    var hits := MoveHits(b, row, col);
    MoveHitsAreAll(b, row, col);
    HitsComeInOrder(b, row, col, 8);
    ChangesAre(b, color, hits);
    var changes := ChangesOf(b, color, hits);
    forall i, d: Direction, k | 0 <= i < |hits| && LiesAt(b, row, col, CellOfChange(changes[i]), d, k)
      ensures FromRay(b, row, col, hits[i], d, k)
    {
      MoveHitsIndependent(b, row, col);
      assert hits[i] in hits;
      var e: Direction, m :| FromRay(b, row, col, hits[i], e, m);
      var h := Hit(RayIndex(row, col, d, k), RayIndex(row, col, d, RunLength(b, row, col, d, 1)));
      assert FromRay(b, row, col, h, d, k);
      HitsApart(b, row, col, hits[i], e, m, h, d, k);
    }
  }

  lemma MoveHitsAreAll(b: Board, row: int, col: int)
    requires |b| == BOARD_CELLS && InBounds(row, col)
    ensures MoveHits(b, row, col) == HitsUpTo(b, row, col, 8)
  {
  }

  /** The event of every accepted placement says who moved, when, where and with what colour, and
      with its changes it carries the board from the state before to the state after: a client
      that writes it down has the server's board. The changed cells are those strictly inside a
      run, each once. */
  lemma EventDescribesMove(s: State, c: Command)
    requires Accepts(s, c) && c.kind == PlaceType
    ensures var r := Apply(s, c);
            && |s.board| == BOARD_CELLS && c.row.Some? && c.col.Some? && InBounds(c.row.value, c.col.value)
            && r.state.Some? && r.event.Some? && |r.state.value.board| == BOARD_CELLS
            && var t, e, at := r.state.value, r.event.value, Index(c.row.value, c.col.value);
               && e.kind == Placed && e.commandId == c.commandId && e.row == c.row && e.col == c.col
               && e.player == s.currentPlayer == c.player && e.turnNumber == s.turnNumber + 1 == t.turnNumber
               && s.board[at] == None && t.board[at] == e.placedColor == Some(s.nextColor)
               && ChangesInBounds(e.changes) && ChangesTouchPieces(s.board, e.changes)
               && t.board == WriteChanges(s.board, e.changes)[at := e.placedColor]
               && e.changes != [] && ChangesInOrder(s.board, c.row.value, c.col.value, e.changes)
               && forall i :: IsChanged(e.changes, i) <==> InsideRun(s.board, c.row.value, c.col.value, i)
  {
    hide LegalMoves, WinnerOf, ChangesOf, MoveHits, PlacedBoard, Rays, ChangesTouchPieces, WriteChanges, InsideRun,
         IsChanged, ChangesInOrder, ChangesInBounds, NextRandom, ColorOf, Full;
    PlacementAccepted(s, c);
    var row, col := c.row.value, c.col.value;
    ChangesOfMove(s.board, row, col, s.nextColor);
    PlacedHere(s.board, row, col, s.nextColor);
    ChangesComeInOrder(s.board, row, col, s.nextColor);
    SomethingChanges(s.board, row, col, s.nextColor);
  }

  /** And the state after it, in any state that the gate lets through: the other player's turn, no
      passes in a row, the next draw, and a game that is over exactly when the last empty cell was
      filled, for the side that the board leans to. */
  lemma StateAfterMove(s: State, c: Command)
    requires Accepts(s, c) && c.kind == PlaceType
    ensures |s.board| == BOARD_CELLS && |Step(s, c).board| == BOARD_CELLS
    ensures var t := Step(s, c);
            && t.version == s.version && t.gameId == s.gameId && t.consecutivePasses == 0
            && t.currentPlayer == s.currentPlayer.Opponent() != s.currentPlayer
            && PreviousRandom(t.rngState) == s.rngState && t.nextColor == t.rngState / 0x100_0000
            && PieceCount(t.board) == PieceCount(s.board) + 1
            && (t.phase == Finished <==> PieceCount(s.board) == 63)
            && (t.phase == Finished ==>
                  t.legalMoves == [] && t.winner == Some(if 2 * ColorSum(t.board) < 64 * 255 then Dark else Light))
            && (t.phase != Finished ==>
                  && t.phase == Playing && t.winner == s.winner == None
                  && (forall p :: p in t.legalMoves <==> InBounds(p.row, p.col) && IsLegal(t.board, p.row, p.col)))
  {
    hide LegalMoves, ChangesOf, MoveHits, PlacedBoard, Rays, NextRandom, PreviousRandom, IsLegal, PieceCount, ColorSum;
    PlacementAccepted(s, c);
    PreviousOfNext(s.rngState);
    LegalHere(s.board, c.row.value, c.col.value);
    PlacedBoardPieces(s.board, c.row.value, c.col.value, s.nextColor);
    var t := Step(s, c);
    CountBounds(t.board);
    LegalMovesIs(t.board);
  }

  lemma PlacementAccepted(s: State, c: Command)
    requires Accepts(s, c) && c.kind == PlaceType
    ensures |s.board| == BOARD_CELLS && c.row.Some? && c.col.Some? && InBounds(c.row.value, c.col.value)
    ensures IsLegal(s.board, c.row.value, c.col.value)
    ensures c.player == s.currentPlayer && Apply(s, c) == Place(s, c)
  {
    hide LegalMoves, WinnerOf, ChangesOf, MoveHits, PlacedBoard, Rays, Full, NextRandom;
  }

  lemma PlacedHere(b: Board, row: int, col: int, color: int)
    requires |b| == BOARD_CELLS && InBounds(row, col)
    ensures PlacedBoard(b, row, col, color)[Index(row, col)] == Some(color)
  {
    hide MoveHits, Recolor;
  }

  lemma SomethingChanges(b: Board, row: int, col: int, color: int)
    requires |b| == BOARD_CELLS && InBounds(row, col) && IsLegal(b, row, col)
    ensures ChangesOf(b, color, MoveHits(b, row, col)) != []
  {
    hide IsLegal, MoveHits, RunLength;
    LegalIff(b, row, col);
    var d: Direction :| Sandwich(b, row, col, d);
    LongRun(b, row, col, d);
    MoveHitsIndependent(b, row, col);
    var h := Hit(RayIndex(row, col, d, 1), RayIndex(row, col, d, RunLength(b, row, col, d, 1)));
    assert FromRay(b, row, col, h, d, 1);
    assert h in MoveHits(b, row, col);
  }

  // ----- an accepted pass -------------------------------------------------------------

  /** The event of an accepted pass names the player and the turn and touches no cell; there was no
      legal cell, the board stays, the turn goes over, and the second pass in a row ends the game
      for the side that the board leans to. */
  lemma EventDescribesPass(s: State, c: Command)
    requires Accepts(s, c) && c.kind == PassType
    ensures var r := Apply(s, c);
            && |s.board| == BOARD_CELLS && r.state.Some?
            && (forall row, col :: InBounds(row, col) ==> !IsLegal(s.board, row, col))
            && r.event == Some(Event(c.commandId, Passed, s.currentPlayer, s.turnNumber + 1, None, None, None, []))
            && var t := r.state.value;
               && t.board == s.board && t.turnNumber == s.turnNumber + 1 && t.legalMoves == []
               && t.currentPlayer == s.currentPlayer.Opponent() && t.consecutivePasses == s.consecutivePasses + 1
               && PreviousRandom(t.rngState) == s.rngState && t.nextColor == t.rngState / 0x100_0000
               && (s.consecutivePasses == 0 ==> t.phase == Playing && t.winner == None)
               && (s.consecutivePasses > 0 ==>
                     t.phase == Finished
                     && t.winner == Some(if 2 * ColorSum(s.board) < 255 * PieceCount(s.board) then Dark else Light))
  {
    hide LegalMoves, ChangesOf, MoveHits, PlacedBoard, Rays, NextRandom, PreviousRandom, Full, IsLegal;
    LegalMovesIs(s.board);
    PreviousOfNext(s.rngState);
    forall row, col | InBounds(row, col)
      ensures !IsLegal(s.board, row, col)
    {
      assert Position(row, col) !in LegalMoves(s.board);
    }
  }

  predicate IsPass(c: Command, player: Player, turnNumber: int) {
    c.commandId != "" && c.kind == PassType && c.player == player && c.expectedTurn == turnNumber
  }

  lemma PassAccepted(s: State, c: Command)
    requires StateValid(s) && s.phase == Playing && LegalMoves(s.board) == [] && s.consecutivePasses < 2
    requires IsPass(c, s.currentPlayer, s.turnNumber)
    ensures Accepts(s, c)
    ensures s.consecutivePasses == 0 ==> StateValid(Step(s, c))
  {
    hide LegalMoves, ColorSum, PieceCount, NextRandom, ColorOf;
    DrawInRange(s.rngState);
  }

  /** Where nobody can move, both players' passes are accepted, the first leaves the game open and
      the second ends it, on the same board. */
  lemma TwoPassesEnd(s: State, first: Command, second: Command)
    requires StateValid(s) && s.phase == Playing && LegalMoves(s.board) == [] && s.consecutivePasses == 0
    requires IsPass(first, s.currentPlayer, s.turnNumber)
    requires IsPass(second, s.currentPlayer.Opponent(), s.turnNumber + 1)
    ensures AcceptedOf(s, [first, second]) == [first, second]
    ensures Run(s, [first]).phase == Playing
    ensures var t := Run(s, [first, second]);
            && t.phase == Finished && t.board == s.board && t.turnNumber == s.turnNumber + 2
            && t.currentPlayer == s.currentPlayer
            && t.winner == Some(if 2 * ColorSum(s.board) < 255 * PieceCount(s.board) then Dark else Light)
  {
    hide LegalMoves, ColorSum, PieceCount, Apply, StateValid;
    var none: seq<Command> := [];
    assert Run(s, none) == s && none + [first] == [first] && [first] + [second] == [first, second];
    ValidPlayer(s);
    PassAccepted(s, first);
    EventDescribesPass(s, first);
    RunAppend(s, none, first);
    var t := Step(s, first);
    PassAccepted(t, second);
    EventDescribesPass(t, second);
    RunAppend(s, [first], second);
  }

  lemma ValidPlayer(s: State)
    requires StateValid(s)
    ensures s.currentPlayer.Opponent().Opponent() == s.currentPlayer && |s.board| == BOARD_CELLS
  {
  }

  // ----- a client that only reads the events ------------------------------------------

  /** A client's board after one event. */
  function WriteEvent(b: Board, e: Event): (r: Board)
    requires |b| == BOARD_CELLS
    ensures |r| == BOARD_CELLS
  {
    if !ChangesInBounds(e.changes) then b
    else
      var changed := WriteChanges(b, e.changes);
      if e.row.Some? && e.col.Some? && InBounds(e.row.value, e.col.value)
      then changed[Index(e.row.value, e.col.value) := e.placedColor] else changed
  }

  function WriteEvents(b: Board, events: seq<Event>): (r: Board)
    requires |b| == BOARD_CELLS
    ensures |r| == BOARD_CELLS
  {
    if |events| == 0 then b else WriteEvent(WriteEvents(b, events[..|events| - 1]), events[|events| - 1])
  }

  /** The events of the accepted commands of a run, in order. */
  function EventsOf(s: State, cs: seq<Command>): seq<Event> {
    if |cs| == 0 then []
    else
      var before, c := cs[..|cs| - 1], cs[|cs| - 1];
      var answer := Apply(Run(s, before), c);
      EventsOf(s, before) + if answer.ok && answer.event.Some? then [answer.event.value] else []
  }

  lemma OneEvent(s: State, c: Command)
    requires Accepts(s, c)
    ensures |s.board| == BOARD_CELLS && Apply(s, c).event.Some?
    ensures Step(s, c).board == WriteEvent(s.board, Apply(s, c).event.value)
  {
    hide Apply, WriteChanges, ChangesTouchPieces, InsideRun, IsChanged, ChangesInOrder, ChangesInBounds, IsLegal,
         ColorSum, PieceCount;
    OnlyTwoKinds(s, c);
    if c.kind == PlaceType {
      EventDescribesMove(s, c);
    } else {
      EventDescribesPass(s, c);
      NoChanges(s.board);
    }
  }

  lemma NoChanges(b: Board)
    requires |b| == BOARD_CELLS
    ensures ChangesInBounds([]) && WriteChanges(b, []) == b
  {
  }

  lemma OnlyTwoKinds(s: State, c: Command)
    requires Accepts(s, c)
    ensures c.kind == PlaceType || c.kind == PassType
  {
    hide Place, Pass, StateValid;
  }

  /** Whatever commands are given, in any state: a client that starts with the board and writes down
      the events of the accepted ones has the server's board all along. */
  lemma {:induction false} EventsCarryTheBoard(s: State, cs: seq<Command>)
    requires |s.board| == BOARD_CELLS
    ensures |EventsOf(s, cs)| == |AcceptedOf(s, cs)|
    ensures Run(s, cs).board == WriteEvents(s.board, EventsOf(s, cs))
  {
    hide Apply, Step, WriteEvent;
    if |cs| > 0 {
      var before, c := cs[..|cs| - 1], cs[|cs| - 1];
      EventsCarryTheBoard(s, before);
      var u := Run(s, before);
      RefusedChangesNothing(u, c);
      if Accepts(u, c) {
        OneEvent(u, c);
        var events := EventsOf(s, cs);
        assert events[..|events| - 1] == EventsOf(s, before);
      } else {
        assert EventsOf(s, cs) == EventsOf(s, before);
      }
    }
  }

  // ----- why a command is refused -----------------------------------------------------

  /** A command that no state of the game could accept. */
  predicate IsMalformed(c: Command) {
    || c.commandId == "" || !c.player.Valid() || c.expectedTurn < 0 || c.kind.OtherType?
    || (c.kind == PlaceType && (c.row.None? || c.col.None?))
  }

  /** What the engine's code says about a well-formed command in a game after n accepted commands. */
  function ReasonOf(b: Board, n: nat, c: Command): ErrorCode
    requires |b| == BOARD_CELLS && !IsMalformed(c)
  {
    if n == 60 then GameFinished
    else if c.expectedTurn != n then StaleTurn
    else if c.player != (if n % 2 == 0 then Dark else Light) then NotYourTurn
    else if c.kind == PassType then PassNotAllowed
    else if !InBounds(c.row.value, c.col.value) then InvalidCoordinate
    else if b[Index(c.row.value, c.col.value)].Some? then Occupied
    else IllegalMove
  }

  /** Every refusal in a game gives its reason, judged by how many commands were accepted: a game is
      over after sixty, a turn is the number of accepted commands, dark has the even turns, and a
      pass is never due. The answer carries the unchanged state and no event. */
  lemma RefusalsAreReasoned(gameId: string, seed: int, cs: seq<Command>, c: Command)
    requires gameId != "" && !Accepts(Run(NewGame(gameId, seed), cs), c)
    ensures var s, n := Run(NewGame(gameId, seed), cs), |AcceptedOf(NewGame(gameId, seed), cs)|;
            && |s.board| == BOARD_CELLS
            && Apply(s, c) == Response(VERSION, false, Some(s), None,
                                       Some(if IsMalformed(c) then InvalidCommand else ReasonOf(s.board, n, c)))
  {
    hide NewGame, AcceptedOf, Run, LegalMoves, PieceCount, Place, Pass, StateValid, Full;
    WholeGame(gameId, seed, cs);
    GameInvariant(gameId, seed, cs);
    var s := Run(NewGame(gameId, seed), cs);
    InGameIsValid(s, gameId, seed);
    if !IsMalformed(c) && c.expectedTurn == s.turnNumber && c.player == s.currentPlayer && s.phase != Finished {
      if c.kind == PassType {
        PassRefused(s, c);
      } else {
        PlaceRefused(s, c);
      }
    }
  }

  lemma PassRefused(s: State, c: Command)
    requires |s.board| == BOARD_CELLS && !Pass(s, c).ok
    ensures Pass(s, c) == Rejected(PassNotAllowed, Some(s))
  {
    hide LegalMoves, WinnerOf, NextRandom;
  }

  lemma PlaceRefused(s: State, c: Command)
    requires |s.board| == BOARD_CELLS && c.row.Some? && c.col.Some? && !Place(s, c).ok
    ensures Place(s, c) == Rejected(if !InBounds(c.row.value, c.col.value) then InvalidCoordinate
                                    else if s.board[Index(c.row.value, c.col.value)].Some? then Occupied
                                    else IllegalMove, Some(s))
  {
    hide LegalMoves, WinnerOf, NextRandom, Rays, PlacedBoard, ChangesOf, MoveHits;
  }

  // ----- why a whole request is refused -----------------------------------------------

  predicate AsksForGame(r: Request) {
    r.version == VERSION && r.action == NewGameAction && r.gameId != "" && r.seed.Some? && IsUint32(r.seed.value)
  }

  predicate AsksForMove(r: Request) {
    r.version == VERSION && r.action == ApplyCommandAction && r.state.Some? && r.command.Some?
  }

  /** Exactly when a request is refused as a whole, and that every other answer carries a state. */
  lemma RequestVerdict(request: Option<Request>)
    ensures var a := Evaluate(request);
            && (a.error == Some(UnsupportedVersion) <==> request.Some? && request.value.version != VERSION)
            && (a.error == Some(InvalidState) <==>
                  request.Some? && AsksForMove(request.value) && !StateValid(request.value.state.value))
            && (a.error == Some(InvalidRequest) <==>
                  request.None?
                  || (request.value.version == VERSION && !AsksForGame(request.value) && !AsksForMove(request.value)))
            && (a.state.None? <==> a.error in {Some(UnsupportedVersion), Some(InvalidState), Some(InvalidRequest)})
            && (a.ok <==> a.error.None?) && (a.event.Some? ==> a.ok)
    ensures request.Some? && AsksForGame(request.value) ==>
              var r := request.value;
              Evaluate(request) == Response(VERSION, true, Some(NewGame(r.gameId, r.seed.value)), None, None)
  {
    hide StateValid, Apply, NewGame;
    if request.Some? && AsksForMove(request.value) && StateValid(request.value.state.value) {
      MoveCodes(request.value.state.value, request.value.command.value);
    }
    if request.Some? && AsksForMove(request.value) && !StateValid(request.value.state.value) {
      InvalidStateRefused(request.value.state.value, request.value.command.value);
    }
  }

  lemma InvalidStateRefused(s: State, c: Command)
    requires !StateValid(s)
    ensures Apply(s, c) == Rejected(InvalidState, None)
  {
    hide StateValid;
  }

  lemma MoveCodes(s: State, c: Command)
    requires StateValid(s)
    ensures var a := Apply(s, c);
            && a.state.Some? && (a.ok <==> a.error.None?) && (a.event.Some? ==> a.ok)
            && a.error !in {Some(UnsupportedVersion), Some(InvalidState), Some(InvalidRequest)}
  {
    hide LegalMoves, PlacedBoard, Rays, WinnerOf, ChangesOf, MoveHits, NextRandom;
  }
}
