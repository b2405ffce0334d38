/** Whole games: what holds after every sequence of commands, accepted or not. */
module Games {
  import opened Options
  import opened Protocol
  import opened Rules
  import opened Moves
  import opened Random

  // ----- runs -------------------------------------------------------------------------

  predicate Accepts(s: State, c: Command) {
    Apply(s, c).ok
  }

  /** A refused command leaves the state as it was. */
  function Step(s: State, c: Command): State {
    if Accepts(s, c) then Apply(s, c).state.value else s
  }

  function Run(s: State, cs: seq<Command>): State {
    if |cs| == 0 then s else Step(Run(s, cs[..|cs| - 1]), cs[|cs| - 1])
  }

  /** The accepted commands of a run, in order. */
  function AcceptedOf(s: State, cs: seq<Command>): seq<Command> {
    if |cs| == 0 then []
    else
      var before, c := cs[..|cs| - 1], cs[|cs| - 1];
      AcceptedOf(s, before) + if Accepts(Run(s, before), c) then [c] else []
  }

  lemma RefusedChangesNothing(s: State, c: Command)
    ensures !Accepts(s, c) ==> Step(s, c) == s
  {
  }

  lemma RunAppend(s: State, cs: seq<Command>, c: Command)
    ensures Run(s, cs + [c]) == Step(Run(s, cs), c)
    ensures AcceptedOf(s, cs + [c]) == AcceptedOf(s, cs) + if Accepts(Run(s, cs), c) then [c] else []
  {
    hide Step, Accepts;
    assert (cs + [c])[..|cs|] == cs;
  }

  lemma {:induction false} RunConcat(s: State, cs: seq<Command>, ds: seq<Command>)
    ensures Run(s, cs + ds) == Run(Run(s, cs), ds)
  {
    hide Step, Accepts;
    if |ds| == 0 {
      assert cs + ds == cs;
    } else {
      var before, d := ds[..|ds| - 1], ds[|ds| - 1];
      RunConcat(s, cs, before);
      assert cs + ds == (cs + before) + [d];
      RunAppend(s, cs + before, d);
    }
  }

  // ----- counting pieces --------------------------------------------------------------

  lemma {:induction false} CountBounds(b: Board)
    ensures PieceCount(b) <= |b|
    ensures PieceCount(b) == |b| <==> Full(b)
  {
    if |b| > 0 {
      CountBounds(b[..|b| - 1]);
    }
  }

  lemma {:induction false} CountSame(a: Board, b: Board)
    requires |a| == |b| && forall i :: 0 <= i < |a| ==> (a[i].Some? <==> b[i].Some?)
    ensures PieceCount(a) == PieceCount(b)
  {
    if |a| > 0 {
      CountSame(a[..|a| - 1], b[..|b| - 1]);
    }
  }

  lemma {:induction false} CountOneMore(b: Board, i: nat, color: int)
    requires i < |b| && b[i].None?
    ensures PieceCount(b[i := Some(color)]) == PieceCount(b) + 1
  {
    var n := |b| - 1;
    if i < n {
      CountOneMore(b[..n], i, color);
      assert b[i := Some(color)][..n] == b[..n][i := Some(color)];
    } else {
      assert b[i := Some(color)][..n] == b[..n];
    }
  }

  lemma {:induction false} CountNone(b: Board)
    requires forall i :: 0 <= i < |b| ==> b[i].None?
    ensures PieceCount(b) == 0
  {
    if |b| > 0 {
      CountNone(b[..|b| - 1]);
    }
  }

  lemma InitialCount()
    ensures PieceCount(InitialBoard()) == 4
  {
    var none: Board := seq(64, i => None);
    CountNone(none);
    var a := none[27 := Some(0)];
    CountOneMore(none, 27, 0);
    var b := a[36 := Some(0)];
    CountOneMore(a, 36, 0);
    var c := b[28 := Some(255)];
    CountOneMore(b, 28, 255);
    CountOneMore(c, 35, 255);
    assert c[35 := Some(255)] == InitialBoard();
  }

  lemma {:induction false} RecolorKeepsPieces(b: Board, color: int, hits: seq<Hit>)
    requires forall h :: h in hits ==> HitOk(b, h)
    ensures forall i :: 0 <= i < |b| ==> (Recolor(b, color, hits)[i].Some? <==> b[i].Some?)
    ensures IsColor(color) && Colored(b) ==> Colored(Recolor(b, color, hits))
  {
    if |hits| > 0 {
      RecolorKeepsPieces(b, color, hits[..|hits| - 1]);
      assert HitOk(b, hits[|hits| - 1]);
    }
  }

  predicate Colored(b: Board) {
    forall i :: 0 <= i < |b| ==> b[i].Some? ==> IsColor(b[i].value)
  }

  /** A placement adds exactly one piece, removes none, and keeps colours in 0..255. */
  lemma PlacedBoardPieces(b: Board, row: int, col: int, color: int)
    requires |b| == BOARD_CELLS && InBounds(row, col) && b[Index(row, col)].None?
    ensures var after := PlacedBoard(b, row, col, color);
            && PieceCount(after) == PieceCount(b) + 1
            && (forall i :: 0 <= i < BOARD_CELLS ==> (after[i].Some? <==> b[i].Some? || i == Index(row, col)))
            && (IsColor(color) && Colored(b) ==> Colored(after))
  {
    var hits := MoveHits(b, row, col);
    RecolorKeepsPieces(b, color, hits);
    var recolored := Recolor(b, color, hits);
    CountSame(b, recolored);
    CountOneMore(recolored, Index(row, col), color);
  }

  // ----- a board with its centre occupied always has a move ---------------------------

  predicate Occupies(b: Board, row: int, col: int)
    requires |b| == BOARD_CELLS
  {
    InBounds(row, col) && b[Index(row, col)].Some?
  }

  predicate CentreOccupied(b: Board)
    requires |b| == BOARD_CELLS
  {
    Occupies(b, 3, 3) && Occupies(b, 3, 4) && Occupies(b, 4, 3) && Occupies(b, 4, 4)
  }

  /** Without legal moves, a cell next to two occupied cells in a line is occupied. */
  lemma Spread(b: Board, row: int, col: int, d: Direction)
    requires |b| == BOARD_CELLS && LegalMoves(b) == [] && InBounds(row, col)
    requires Occupies(b, RayRow(row, d, 1), RayCol(col, d, 1))
    requires Occupies(b, RayRow(row, d, 2), RayCol(col, d, 2))
    ensures Occupies(b, row, col)
  {
    LegalMovesIs(b);
    LegalIff(b, row, col);
    assert Sandwich(b, row, col, d);
    assert Position(row, col) !in LegalMoves(b);
  }

  lemma Headings(row: int, col: int, k: nat)
    ensures RayRow(row, 4, k) == row && RayCol(col, 4, k) == col + k
    ensures RayRow(row, 3, k) == row && RayCol(col, 3, k) == col - k
    ensures RayRow(row, 6, k) == row + k && RayCol(col, 6, k) == col
    ensures RayRow(row, 1, k) == row - k && RayCol(col, 1, k) == col
  {
  }

  lemma SpreadAcross(b: Board, row: int, col: int)
    requires |b| == BOARD_CELLS && LegalMoves(b) == [] && InBounds(row, col)
    ensures Occupies(b, row, col + 1) && Occupies(b, row, col + 2) ==> Occupies(b, row, col)
    ensures Occupies(b, row, col - 1) && Occupies(b, row, col - 2) ==> Occupies(b, row, col)
  {
    hide LegalMoves, Occupies, RayRow, RayCol;
    Headings(row, col, 1);
    Headings(row, col, 2);
    if Occupies(b, row, col + 1) && Occupies(b, row, col + 2) {
      Spread(b, row, col, 4);
    }
    if Occupies(b, row, col - 1) && Occupies(b, row, col - 2) {
      Spread(b, row, col, 3);
    }
  }

  lemma SpreadDown(b: Board, row: int, col: int)
    requires |b| == BOARD_CELLS && LegalMoves(b) == [] && InBounds(row, col)
    ensures Occupies(b, row + 1, col) && Occupies(b, row + 2, col) ==> Occupies(b, row, col)
    ensures Occupies(b, row - 1, col) && Occupies(b, row - 2, col) ==> Occupies(b, row, col)
  {
    hide LegalMoves, Occupies, RayRow, RayCol;
    Headings(row, col, 1);
    Headings(row, col, 2);
    if Occupies(b, row + 1, col) && Occupies(b, row + 2, col) {
      Spread(b, row, col, 6);
    }
    if Occupies(b, row - 1, col) && Occupies(b, row - 2, col) {
      Spread(b, row, col, 1);
    }
  }

  lemma RowFills(b: Board, row: int)
    requires |b| == BOARD_CELLS && LegalMoves(b) == [] && 0 <= row < 8
    requires Occupies(b, row, 3) && Occupies(b, row, 4)
    ensures forall col :: 0 <= col < 8 ==> Occupies(b, row, col)
  {
    hide LegalMoves, Occupies;
    SpreadAcross(b, row, 2);
    SpreadAcross(b, row, 1);
    SpreadAcross(b, row, 0);
    SpreadAcross(b, row, 5);
    SpreadAcross(b, row, 6);
    SpreadAcross(b, row, 7);
  }

  lemma ColumnFills(b: Board, col: int)
    requires |b| == BOARD_CELLS && LegalMoves(b) == [] && 0 <= col < 8
    requires Occupies(b, 3, col) && Occupies(b, 4, col)
    ensures forall row :: 0 <= row < 8 ==> Occupies(b, row, col)
  {
    hide LegalMoves, Occupies;
    SpreadDown(b, 2, col);
    SpreadDown(b, 1, col);
    SpreadDown(b, 0, col);
    SpreadDown(b, 5, col);
    SpreadDown(b, 6, col);
    SpreadDown(b, 7, col);
  }

  /** With the centre occupied, running out of moves and running out of cells are the same. */
  lemma OutOfMovesIsFull(b: Board)
    requires |b| == BOARD_CELLS && CentreOccupied(b)
    ensures LegalMoves(b) == [] <==> Full(b)
  {
    if LegalMoves(b) == [] {
      RowFills(b, 3);
      RowFills(b, 4);
      forall i | 0 <= i < 64
        ensures b[i].Some?
      {
        assert Occupies(b, 3, i % 8) && Occupies(b, 4, i % 8);
        ColumnFills(b, i % 8);
        assert Occupies(b, i / 8, i % 8) && Index(i / 8, i % 8) == i;
      }
    }
    LegalMovesIs(b);
    if LegalMoves(b) != [] {
      assert LegalMoves(b)[0] in LegalMoves(b);
    }
  }

  // ----- the invariant of every game --------------------------------------------------

  /** What every state of a game begun by NewGame(gameId, seed) satisfies. */
  ghost predicate InGame(s: State, gameId: string, seed: int) {
    && s.version == VERSION && s.gameId == gameId
    && |s.board| == BOARD_CELLS && Colored(s.board) && CentreOccupied(s.board)
    && s.turnNumber >= 0 && PieceCount(s.board) == s.turnNumber + 4
    && s.currentPlayer == (if s.turnNumber % 2 == 0 then Dark else Light)
    && s.rngState == Drawn(seed, s.turnNumber + 1) && s.nextColor == ColorOf(s.rngState)
    && s.consecutivePasses == 0
    && if Full(s.board)
       then s.phase == Finished && s.winner == Some(WinnerOf(s.board)) && s.legalMoves == []
       else s.phase == Playing && s.winner == None && s.legalMoves == LegalMoves(s.board)
  }

  lemma NewGameInGame(gameId: string, seed: int)
    ensures InGame(NewGame(gameId, seed), gameId, seed)
    ensures NewGame(gameId, seed).turnNumber == 0
  {
    hide LegalMoves, PieceCount;
    InitialCount();
    var b := InitialBoard();
    assert b[0].None?;
    assert Drawn(seed, 1) == NextRandom(Drawn(seed, 0));
  }

  /** The engine's own validity check accepts every state of a game. */
  lemma InGameIsValid(s: State, gameId: string, seed: int)
    requires InGame(s, gameId, seed) && gameId != ""
    ensures StateValid(s)
  {
    hide LegalMoves, PieceCount, CentreOccupied;
    DrawInRange(Drawn(seed, s.turnNumber));
    LegalMovesIs(s.board);
    forall i | 0 <= i < |s.legalMoves|
      ensures InBounds(s.legalMoves[i].row, s.legalMoves[i].col)
    {
      assert s.legalMoves[i] in s.legalMoves;
    }
  }

  /** From a state of a game the engine accepts a command iff it is a well-formed placement by
      the player to move, for the current turn, on a listed legal cell. */
  lemma AcceptedIffListed(s: State, gameId: string, seed: int, c: Command)
    requires InGame(s, gameId, seed) && gameId != ""
    ensures Accepts(s, c) <==>
      && c.commandId != "" && c.kind == PlaceType && c.row.Some? && c.col.Some?
      && c.player == s.currentPlayer && c.expectedTurn == s.turnNumber
      && Position(c.row.value, c.col.value) in s.legalMoves
  {
    hide LegalMoves, PieceCount, PlacedBoard, Drawn, CentreOccupied, Rays;
    InGameIsValid(s, gameId, seed);
    OutOfMovesIsFull(s.board);
    LegalMovesIs(s.board);
  }

  lemma PlaceStaysInGame(s: State, gameId: string, seed: int, c: Command)
    requires InGame(s, gameId, seed) && c.row.Some? && c.col.Some?
    requires InBounds(c.row.value, c.col.value) && IsLegal(s.board, c.row.value, c.col.value)
    ensures Place(s, c).ok && InGame(Place(s, c).state.value, gameId, seed)
    ensures Place(s, c).state.value.turnNumber == s.turnNumber + 1
  {
    hide LegalMoves, PieceCount, PlacedBoard, Rays, NextRandom, ColorOf, WinnerOf, ChangesOf, MoveHits;
    PlacedBoardPieces(s.board, c.row.value, c.col.value, s.nextColor);
    DrawInRange(Drawn(seed, s.turnNumber));
    assert Drawn(seed, s.turnNumber + 2) == NextRandom(Drawn(seed, s.turnNumber + 1));
    assert Drawn(seed, s.turnNumber + 1) == NextRandom(Drawn(seed, s.turnNumber));
  }

  lemma StepStaysInGame(s: State, gameId: string, seed: int, c: Command)
    requires InGame(s, gameId, seed) && gameId != ""
    ensures InGame(Step(s, c), gameId, seed)
    ensures Accepts(s, c) ==> Step(s, c).turnNumber == s.turnNumber + 1
  {
    hide LegalMoves, PieceCount, PlacedBoard, Rays, IsLegal, Place, Pass, Full;
    AcceptedIffListed(s, gameId, seed, c);
    if Accepts(s, c) {
      InGameIsValid(s, gameId, seed);
      LegalMovesIs(s.board);
      assert Apply(s, c) == Place(s, c);
      PlaceStaysInGame(s, gameId, seed, c);
    }
  }

  // ----- the theorems about whole games -----------------------------------------------

  lemma {:induction false} GameInvariant(gameId: string, seed: int, cs: seq<Command>)
    requires gameId != ""
    ensures InGame(Run(NewGame(gameId, seed), cs), gameId, seed)
    ensures Run(NewGame(gameId, seed), cs).turnNumber == |AcceptedOf(NewGame(gameId, seed), cs)|
  {
    hide InGame, Step, Accepts, NewGame;
    var start := NewGame(gameId, seed);
    if |cs| == 0 {
      NewGameInGame(gameId, seed);
    } else {
      var before, c := cs[..|cs| - 1], cs[|cs| - 1];
      GameInvariant(gameId, seed, before);
      StepStaysInGame(Run(start, before), gameId, seed, c);
      RefusedChangesNothing(Run(start, before), c);
    }
  }

  /** After any commands whatever: turns count the accepted commands and the pieces, a game is
      over exactly when sixty commands have been accepted, which is exactly when the board is
      full, and until then there is a legal move. */
  lemma WholeGame(gameId: string, seed: int, cs: seq<Command>)
    requires gameId != ""
    ensures var s, n := Run(NewGame(gameId, seed), cs), |AcceptedOf(NewGame(gameId, seed), cs)|;
            && |s.board| == BOARD_CELLS
            && s.turnNumber == n <= 60 && PieceCount(s.board) == n + 4
            && (s.phase == Finished <==> n == 60) && (s.phase == Playing <==> n < 60)
            && (n == 60 <==> Full(s.board))
            && (n < 60 ==> LegalMoves(s.board) != [] && s.legalMoves == LegalMoves(s.board))
            && (n == 60 ==> s.winner == Some(if 2 * ColorSum(s.board) < 64 * 255 then Dark else Light))
            && (n == 60 ==> s.winner == Some(WinnerOf(s.board)) && s.legalMoves == [])
  {
    hide NewGame, AcceptedOf, Run, LegalMoves, PieceCount;
    GameInvariant(gameId, seed, cs);
    var s := Run(NewGame(gameId, seed), cs);
    CountBounds(s.board);
    OutOfMovesIsFull(s.board);
  }

  /** A pass is refused in every state a game can reach. */
  lemma PassNeverAccepted(gameId: string, seed: int, cs: seq<Command>, c: Command)
    requires gameId != "" && c.kind == PassType
    ensures !Accepts(Run(NewGame(gameId, seed), cs), c)
  {
    hide NewGame, Run, Accepts;
    GameInvariant(gameId, seed, cs);
    AcceptedIffListed(Run(NewGame(gameId, seed), cs), gameId, seed, c);
  }

  /** No game gets stuck: until the sixtieth move some command is accepted. */
  lemma NeverStuck(gameId: string, seed: int, cs: seq<Command>)
    requires gameId != "" && |AcceptedOf(NewGame(gameId, seed), cs)| < 60
    ensures exists c :: Accepts(Run(NewGame(gameId, seed), cs), c)
  {
    hide NewGame, AcceptedOf, Run, Accepts, LegalMoves;
    var s := Run(NewGame(gameId, seed), cs);
    GameInvariant(gameId, seed, cs);
    WholeGame(gameId, seed, cs);
    var p := s.legalMoves[0];
    assert p in s.legalMoves && p == Position(p.row, p.col);
    var c := Command("c", PlaceType, s.currentPlayer, s.turnNumber, Some(p.row), Some(p.col));
    AcceptedIffListed(s, gameId, seed, c);
    assert Accepts(s, c);
  }

  /** So every accepted beginning can be played on to the end. */
  lemma {:induction false} EveryGameCanFinish(gameId: string, seed: int, cs: seq<Command>)
    requires gameId != "" && AcceptedOf(NewGame(gameId, seed), cs) == cs
    ensures exists more :: AcceptedOf(NewGame(gameId, seed), cs + more) == cs + more
              && Run(NewGame(gameId, seed), cs + more).phase == Finished
    decreases 60 - |cs|
  {
    hide NewGame, AcceptedOf, Run, Accepts, LegalMoves, PieceCount, Full;
    var start := NewGame(gameId, seed);
    WholeGame(gameId, seed, cs);
    if |cs| == 60 {
      assert cs + [] == cs;
    } else {
      NeverStuck(gameId, seed, cs);
      var c :| Accepts(Run(start, cs), c);
      RunAppend(start, cs, c);
      WholeGame(gameId, seed, cs + [c]);
      EveryGameCanFinish(gameId, seed, cs + [c]);
      var more :| AcceptedOf(start, cs + [c] + more) == cs + [c] + more
        && Run(start, cs + [c] + more).phase == Finished;
      assert cs + [c] + more == cs + ([c] + more);
    }
  }

  /** The random state depends on the seed and on how many commands were accepted, not on what
      they were. */
  lemma RandomIsIndependentOfPlay(gameId: string, seed: int, cs: seq<Command>)
    requires gameId != ""
    ensures var s, n := Run(NewGame(gameId, seed), cs), |AcceptedOf(NewGame(gameId, seed), cs)|;
            s.rngState == Drawn(seed, n + 1) && s.nextColor == ColorOf(Drawn(seed, n + 1))
  {
    hide NewGame, AcceptedOf, Run;
    GameInvariant(gameId, seed, cs);
  }

  // ----- at-least-once delivery -------------------------------------------------------

  /** Accepting a command consumes its turn number. */
  lemma AcceptConsumesTurn(s: State, c: Command)
    ensures Accepts(s, c) ==> c.expectedTurn == s.turnNumber && Step(s, c).turnNumber == s.turnNumber + 1
  {
    hide LegalMoves, PlacedBoard, Rays, WinnerOf;
  }

  lemma {:induction false} TurnsGrow(s: State, cs: seq<Command>)
    ensures Run(s, cs).turnNumber == s.turnNumber + |AcceptedOf(s, cs)|
  {
    hide Accepts, Step;
    if |cs| > 0 {
      var before, c := cs[..|cs| - 1], cs[|cs| - 1];
      TurnsGrow(s, before);
      AcceptConsumesTurn(Run(s, before), c);
      RefusedChangesNothing(Run(s, before), c);
    }
  }

  /** From any state, valid or not: the i-th accepted command names turn number i after the first. */
  lemma {:induction false} AcceptedNameTheirTurns(s: State, cs: seq<Command>)
    ensures var done := AcceptedOf(s, cs);
            forall i :: 0 <= i < |done| ==> done[i].expectedTurn == s.turnNumber + i
  {
    hide Accepts, Step;
    if |cs| > 0 {
      var before, c := cs[..|cs| - 1], cs[|cs| - 1];
      AcceptedNameTheirTurns(s, before);
      TurnsGrow(s, before);
      AcceptConsumesTurn(Run(s, before), c);
    }
  }

  /** Delivering an accepted command again, however much later, changes nothing at all. */
  lemma RedeliveryIsHarmless(s: State, before: seq<Command>, c: Command, between: seq<Command>, after: seq<Command>)
    requires Accepts(Run(s, before), c)
    ensures !Accepts(Run(s, before + [c] + between), c)
    ensures Run(s, before + [c] + between + [c] + after) == Run(s, before + [c] + between + after)
  {
    hide Accepts, Step, Run, AcceptedOf;
    RunAppend(s, before, c);
    AcceptConsumesTurn(Run(s, before), c);
    RunConcat(s, before + [c], between);
    var later := Run(s, before + [c] + between);
    TurnsGrow(Run(s, before + [c]), between);
    AcceptConsumesTurn(later, c);
    RefusedChangesNothing(later, c);
    RunAppend(s, before + [c] + between, c);
    RunConcat(s, before + [c] + between + [c], after);
    RunConcat(s, before + [c] + between, after);
  }

  /** Replaying only the accepted commands reaches the same state and accepts them all. */
  lemma {:induction false} AcceptedAlone(s: State, cs: seq<Command>)
    ensures Run(s, AcceptedOf(s, cs)) == Run(s, cs)
    ensures AcceptedOf(s, AcceptedOf(s, cs)) == AcceptedOf(s, cs)
  {
    hide Accepts, Step;
    if |cs| > 0 {
      var before, c := cs[..|cs| - 1], cs[|cs| - 1];
      AcceptedAlone(s, before);
      if Accepts(Run(s, before), c) {
        RunAppend(s, AcceptedOf(s, before), c);
      } else {
        RefusedChangesNothing(Run(s, before), c);
        assert AcceptedOf(s, cs) == AcceptedOf(s, before);
      }
    }
  }

  // ----- the repository's own vectors -------------------------------------------------

  lemma FirstDraw()
    ensures NewGame("test-game", 1).rngState == 1015568748 && NewGame("test-game", 1).nextColor == 60
    ensures NextRandom(1015568748) == 1586005467 && ColorOf(1586005467) == 94
  {
    hide LegalMoves;
  }

  lemma InitialOccupied(row: int, col: int, d: Direction, k: int)
    ensures OccupiedAt(InitialBoard(), row, col, d, k)
       <==> 3 <= RayRow(row, d, k) <= 4 && 3 <= RayCol(col, d, k) <= 4
  {
    hide RayRow, RayCol;
    var r, c := RayRow(row, d, k), RayCol(col, d, k);
    if InBounds(r, c) {
      assert InitialBoard()[Index(r, c)].Some? <==> 3 <= r <= 4 && 3 <= c <= 4;
    }
  }

  /** The way from a ring cell to the centre block. */
  function Inwards(row: int, col: int): Direction {
    if row <= 2 then (if col <= 2 then 7 else if col >= 5 then 5 else 6)
    else if row >= 5 then (if col <= 2 then 2 else if col >= 5 then 0 else 1)
    else if col <= 2 then 4 else 3
  }

  /** The twelve legal cells of a new game are the ring around the centre block. */
  lemma OpeningMoves(row: int, col: int)
    requires InBounds(row, col)
    ensures IsLegal(InitialBoard(), row, col)
       <==> (2 <= row <= 5 && 2 <= col <= 5 && !(3 <= row <= 4 && 3 <= col <= 4))
  {
    hide IsLegal, OccupiedAt;
    var b := InitialBoard();
    LegalIff(b, row, col);
    assert b[Index(row, col)].None? <==> !(3 <= row <= 4 && 3 <= col <= 4);
    hide InitialBoard;
    forall d: Direction
      ensures Sandwich(b, row, col, d) ==> 2 <= row <= 5 && 2 <= col <= 5
    {
      OpeningSandwich(row, col, d);
    }
    if 2 <= row <= 5 && 2 <= col <= 5 && !(3 <= row <= 4 && 3 <= col <= 4) {
      OpeningSandwich(row, col, Inwards(row, col));
    }
  }

  lemma OpeningSandwich(row: int, col: int, d: Direction)
    requires InBounds(row, col)
    ensures Sandwich(InitialBoard(), row, col, d) ==> 2 <= row <= 5 && 2 <= col <= 5
    ensures 2 <= row <= 5 && 2 <= col <= 5 && !(3 <= row <= 4 && 3 <= col <= 4) && d == Inwards(row, col)
        ==> Sandwich(InitialBoard(), row, col, d)
  {
    hide InitialBoard, OccupiedAt;
    InitialOccupied(row, col, d, 1);
    InitialOccupied(row, col, d, 2);
  }

  /** Seed 1, first move at (2, 2): the placed 60 and the floored mean (60 + 0 + 0) / 3. */
  lemma FirstMove()
    ensures PlacedBoard(InitialBoard(), 2, 2, 60)[18] == Some(60)
    ensures PlacedBoard(InitialBoard(), 2, 2, 60)[27] == Some(20)
  {
    hide PlacedBoard, OccupiedAt;
    var b := InitialBoard();
    InitialOccupied(2, 2, 7, 1);
    InitialOccupied(2, 2, 7, 2);
    InitialOccupied(2, 2, 7, 3);
    ConvertedCell(b, 2, 2, 60, 7, 2, 1);
    PlaceIsSimultaneous(b, 2, 2, 60);
  }

  /** The dark pieces of a new game are on the main diagonal of the centre, the light ones on the
      other: a placed 60 at either end of the light diagonal gives (60 + 255 + 255) / 3. */
  lemma LightDiagonal()
    ensures InitialBoard()[27] == InitialBoard()[36] == Some(0)
    ensures InitialBoard()[28] == InitialBoard()[35] == Some(255)
    ensures PlacedBoard(InitialBoard(), 2, 5, 60)[28] == Some(190)
    ensures PlacedBoard(InitialBoard(), 5, 2, 60)[35] == Some(190)
  {
    hide PlacedBoard, OccupiedAt;
    var b := InitialBoard();
    forall k | 1 <= k <= 3
      ensures OccupiedAt(b, 2, 5, 5, k) <==> k <= 2
      ensures OccupiedAt(b, 5, 2, 2, k) <==> k <= 2
    {
      InitialOccupied(2, 5, 5, k);
      InitialOccupied(5, 2, 2, k);
    }
    ConvertedCell(b, 2, 5, 60, 5, 2, 1);
    ConvertedCell(b, 5, 2, 60, 2, 2, 1);
  }

  lemma EastOfCorner(b: Board, k: nat)
    requires |b| == BOARD_CELLS && k < 8
    ensures RayIndex(0, 0, 4, k) == k && (OccupiedAt(b, 0, 0, 4, k) <==> b[k].Some?)
  {
    Headings(0, 0, k);
  }

  /** An edge move over 30, 60, 90: both targets take the far end's colour as it was. */
  lemma EdgeMove(b: Board)
    requires |b| == BOARD_CELLS && b[1] == Some(30) && b[2] == Some(60) && b[3] == Some(90) && b[4] == None
    ensures PlacedBoard(b, 0, 0, 60)[1] == Some(60) && PlacedBoard(b, 0, 0, 60)[2] == Some(70)
  {
    hide PlacedBoard, OccupiedAt;
    forall k | 1 <= k <= 4
      ensures OccupiedAt(b, 0, 0, 4, k) <==> b[k].Some?
      ensures RayIndex(0, 0, 4, k) == k
    {
      EastOfCorner(b, k);
    }
    hide RayIndex;
    ConvertedCell(b, 0, 0, 60, 4, 3, 1);
    ConvertedCell(b, 0, 0, 60, 4, 3, 2);
  }

  /** One move in the middle of eight runs of 30 and 90 converts all eight at once. */
  lemma EightDirections(b: Board, d: Direction)
    requires |b| == BOARD_CELLS
    requires forall e: Direction :: b[MiddleRay(e, 1)] == Some(30) && b[MiddleRay(e, 2)] == Some(90)
    requires forall i :: 0 <= i < BOARD_CELLS && b[i].Some? ==> 1 <= i / 8 <= 5 && 1 <= i % 8 <= 5
    ensures PlacedBoard(b, 3, 3, 60)[MiddleRay(d, 1)] == Some(60)
  {
    hide PlacedBoard, RayIndex, RayRow, RayCol, MiddleRay;
    assert b[MiddleRay(d, 1)] == Some(30);
    MiddleRays(d);
    ConvertedCell(b, 3, 3, 60, d, 2, 1);
  }

  /** The cell k steps from (3, 3). */
  function MiddleRay(d: Direction, k: nat): (i: nat)
    requires 1 <= k <= 2
    ensures i < BOARD_CELLS
  {
    RayIndex(3, 3, d, k)
  }

  lemma MiddleRays(d: Direction)
    ensures forall k :: 1 <= k <= 2 ==>
              InBounds(RayRow(3, d, k), RayCol(3, d, k)) && MiddleRay(d, k) == RayIndex(3, 3, d, k)
    ensures !(1 <= RayRow(3, d, 3) <= 5 && 1 <= RayCol(3, d, 3) <= 5)
    ensures RayIndex(3, 3, d, 3) == 8 * RayRow(3, d, 3) + RayCol(3, d, 3)
  {
  }
}
