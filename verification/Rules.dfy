/** The rules engine, rules/game/rules.nako3.

    Each of its procedures is a method here, and each method is proved to compute a
    specification function; the other modules prove the game's laws about those functions. */
module Rules {
  import opened Options
  import opened Protocol

  // ----- random numbers ---------------------------------------------------------------

  function NextRandom(x: int): int {
    (x * 1664525 + 1013904223) % 4294967296
  }

  function ColorOf(x: int): int {
    x / 16777216
  }

  // ----- rays -------------------------------------------------------------------------

  /** An index into the engine's table of eight directions. */
  type Direction = d: int | 0 <= d < 8

  function RowStep(d: Direction): int {
    if d < 3 then -1 else if d < 5 then 0 else 1
  }

  function ColStep(d: Direction): int {
    if d == 0 || d == 3 || d == 5 then -1 else if d == 1 || d == 6 then 0 else 1
  }

  /** k steps of a step in {-1, 0, 1}. */
  function Along(step: int, k: int): int {
    if step == 0 then 0 else if step > 0 then k else -k
  }

  function RayRow(row: int, d: Direction, k: int): int {
    row + Along(RowStep(d), k)
  }

  function RayCol(col: int, d: Direction, k: int): int {
    col + Along(ColStep(d), k)
  }

  function RayIndex(row: int, col: int, d: Direction, k: int): int {
    Index(RayRow(row, d, k), RayCol(col, d, k))
  }

  /** The cell k steps from (row, col) is on the board and holds a piece. */
  predicate OccupiedAt(b: Board, row: int, col: int, d: Direction, k: int)
    requires |b| == BOARD_CELLS
  {
    InBounds(RayRow(row, d, k), RayCol(col, d, k)) && b[RayIndex(row, col, d, k)].Some?
  }

  /** How many pieces follow one another from step k on. */
  function RunLength(b: Board, row: int, col: int, d: Direction, k: nat): nat
    requires |b| == BOARD_CELLS && InBounds(row, col)
    decreases 8 - k
  {
    if OccupiedAt(b, row, col, d, k) then 1 + RunLength(b, row, col, d, k + 1) else 0
  }

  /** The pieces between a placement and the far end of its run. */
  datatype Ray = Ray(fixedIndex: int, targets: seq<int>)

  function CellsAlong(row: int, col: int, d: Direction, n: nat): seq<int> {
    seq(n, i => RayIndex(row, col, d, i + 1))
  }

  function RaysUpTo(b: Board, row: int, col: int, d: nat): seq<Ray>
    requires |b| == BOARD_CELLS && InBounds(row, col) && d <= 8
  {
    if d == 0 then []
    else
      var n := RunLength(b, row, col, d - 1, 1);
      RaysUpTo(b, row, col, d - 1) + if n >= 2 then [RayOf(row, col, d - 1, n)] else []
  }

  function RayOf(row: int, col: int, d: Direction, n: nat): Ray
    requires n >= 2
  {
    Ray(RayIndex(row, col, d, n), CellsAlong(row, col, d, n - 1))
  }

  function Rays(b: Board, row: int, col: int): seq<Ray>
    requires |b| == BOARD_CELLS && InBounds(row, col)
  {
    RaysUpTo(b, row, col, 8)
  }

  lemma {:induction false} RunLengthIs(b: Board, row: int, col: int, d: Direction, k: nat, n: nat)
    requires |b| == BOARD_CELLS && InBounds(row, col)
    requires forall i :: k <= i < k + n ==> OccupiedAt(b, row, col, d, i)
    requires !OccupiedAt(b, row, col, d, k + n)
    ensures RunLength(b, row, col, d, k) == n
    decreases n
  {
    hide OccupiedAt;
    if n > 0 {
      RunLengthIs(b, row, col, d, k + 1, n - 1);
    }
  }

  lemma StartOfRay(row: int, col: int, d: Direction)
    ensures RayRow(row, d, 0) == row && RayCol(col, d, 0) == col
  {
  }

  lemma OneStepFurther(row: int, col: int, d: Direction, k: int)
    requires k >= 0
    ensures RayRow(row, d, k + 1) == RayRow(row, d, k) + RowStep(d)
    ensures RayCol(col, d, k + 1) == RayCol(col, d, k) + ColStep(d)
    ensures InBounds(row, col) && InBounds(RayRow(row, d, k), RayCol(col, d, k)) ==> k <= 7
  {
  }

  lemma CellsAlongStep(row: int, col: int, d: Direction, n: nat)
    ensures CellsAlong(row, col, d, 0) == []
    ensures CellsAlong(row, col, d, n + 1) == CellsAlong(row, col, d, n) + [RayIndex(row, col, d, n + 1)]
    ensures |CellsAlong(row, col, d, n)| == n
  {
  }

  /** What it is for a cell of a ray to be occupied, by its row and column. */
  lemma OccupiedHere(b: Board, row: int, col: int, d: Direction, k: int)
    requires |b| == BOARD_CELLS
    ensures var r, c := RayRow(row, d, k), RayCol(col, d, k);
            && RayIndex(row, col, d, k) == Index(r, c)
            && (OccupiedAt(b, row, col, d, k) <==> InBounds(r, c) && b[Index(r, c)].Some?)
  {
  }

  /** The pieces met from (row, col) in one direction, nearest first. */
  method WalkLine(b: Board, row: int, col: int, d: Direction) returns (line: seq<int>)
    requires |b| == BOARD_CELLS && InBounds(row, col)
    ensures line == CellsAlong(row, col, d, RunLength(b, row, col, d, 1))
  {
    hide RunLength, RayRow, RayCol, RayIndex, Along, RowStep, ColStep, CellsAlong, OccupiedAt;
    CellsAlongStep(row, col, d, 0);
    OccupiedHere(b, row, col, d, 1);
    var nextRow, nextCol := row + RowStep(d), col + ColStep(d);
    line := [];
    assert RayRow(row, d, 0) == row && RayCol(col, d, 0) == col by {
      StartOfRay(row, col, d);
    }
    OneStepFurther(row, col, d, 0);
    var going := InBounds(nextRow, nextCol);
    while going
      invariant |line| <= 7
      invariant nextRow == RayRow(row, d, |line| + 1) && nextCol == RayCol(col, d, |line| + 1)
      invariant line == CellsAlong(row, col, d, |line|)
      invariant forall i :: 1 <= i < 1 + |line| ==> OccupiedAt(b, row, col, d, i)
      invariant going ==> InBounds(nextRow, nextCol)
      invariant !going ==> !OccupiedAt(b, row, col, d, 1 + |line|)
      decreases going, 8 - |line|
    {
      OneStepFurther(row, col, d, |line| + 1);
      CellsAlongStep(row, col, d, |line|);
      OccupiedHere(b, row, col, d, |line| + 1);
      OccupiedHere(b, row, col, d, |line| + 2);
      var index := Index(nextRow, nextCol);
      if b[index].None? {
        going := false;
      } else {
        line := line + [index];
        nextRow, nextCol := nextRow + RowStep(d), nextCol + ColStep(d);
        going := InBounds(nextRow, nextCol);
      }
    }
    RunLengthIs(b, row, col, d, 1, |line|);
  }

  /** A walked line as a ray: its last piece is the fixed end, the others are the targets. */
  method RayFromLine(row: int, col: int, d: Direction, line: seq<int>) returns (ray: Ray)
    requires |line| >= 2 && line == CellsAlong(row, col, d, |line|)
    ensures ray == RayOf(row, col, d, |line|)
  {
    hide RayIndex;
    var targets: seq<int> := [];
    for i := 0 to |line| - 1
      invariant targets == line[..i]
    {
      targets := targets + [line[i]];
    }
    assert targets == CellsAlong(row, col, d, |line| - 1);
    return Ray(line[|line| - 1], targets);
  }

  method CaptureLines(b: Board, row: int, col: int) returns (lines: seq<Ray>)
    requires |b| == BOARD_CELLS && InBounds(row, col)
    ensures lines == Rays(b, row, col)
  {
    hide RunLength, RayOf, CellsAlong;
    lines := [];
    for d := 0 to 8
      invariant lines == RaysUpTo(b, row, col, d)
    {
      var line := WalkLine(b, row, col, d);
      CellsAlongStep(row, col, d, RunLength(b, row, col, d, 1));
      if |line| >= 2 {
        var ray := RayFromLine(row, col, d, line);
        lines := lines + [ray];
      }
    }
  }

  // ----- legal moves ------------------------------------------------------------------

  predicate IsLegal(b: Board, row: int, col: int)
    requires |b| == BOARD_CELLS && InBounds(row, col)
  {
    b[Index(row, col)].None? && |Rays(b, row, col)| > 0
  }

  /** The legal cells among the first n, in row-major order. */
  function LegalUpTo(b: Board, n: nat): seq<Position>
    requires |b| == BOARD_CELLS && n <= 64
  {
    if n == 0 then []
    else
      LegalUpTo(b, n - 1)
      + if IsLegal(b, (n - 1) / 8, (n - 1) % 8) then [Position((n - 1) / 8, (n - 1) % 8)] else []
  }

  function LegalMoves(b: Board): seq<Position>
    requires |b| == BOARD_CELLS
  {
    LegalUpTo(b, 64)
  }

  lemma LegalOneMore(b: Board, n: nat)
    requires |b| == BOARD_CELLS && n <= 64
    ensures n == 0 ==> LegalUpTo(b, n) == []
    ensures n > 0 ==>
      var row, col := (n - 1) / 8, (n - 1) % 8;
      LegalUpTo(b, n) == LegalUpTo(b, n - 1) + if IsLegal(b, row, col) then [Position(row, col)] else []
  {
    hide IsLegal;
  }

  lemma LegalHere(b: Board, row: int, col: int)
    requires |b| == BOARD_CELLS && InBounds(row, col)
    ensures 0 <= Index(row, col) < BOARD_CELLS
    ensures IsLegal(b, row, col) <==> b[Index(row, col)].None? && |Rays(b, row, col)| > 0
  {
  }

  method ListLegalMoves(b: Board) returns (moves: seq<Position>)
    requires |b| == BOARD_CELLS
    ensures moves == LegalMoves(b)
  {
    hide Rays, IsLegal, LegalUpTo, Index;
    LegalOneMore(b, 0);
    moves := [];
    for row := 0 to 8
      invariant moves == LegalUpTo(b, row * 8)
    {
      for col := 0 to 8
        invariant moves == LegalUpTo(b, row * 8 + col)
      {
        var n := row * 8 + col + 1;
        assert (n - 1) / 8 == row && (n - 1) % 8 == col;
        LegalOneMore(b, n);
        LegalHere(b, row, col);
        if b[Index(row, col)].None? {
          var lines := CaptureLines(b, row, col);
          if |lines| > 0 {
            moves := moves + [Position(row, col)];
          }
        }
        assert moves == LegalUpTo(b, n);
      }
    }
  }

  // ----- totals and the winner --------------------------------------------------------

  predicate Full(b: Board) {
    forall i :: 0 <= i < |b| ==> b[i].Some?
  }

  method IsFull(b: Board) returns (full: bool)
    requires |b| == BOARD_CELLS
    ensures full == Full(b)
  {
    for i := 0 to 64
      invariant forall j :: 0 <= j < i ==> b[j].Some?
    {
      if b[i].None? {
        return false;
      }
    }
    return true;
  }

  function ColorSum(b: Board): int {
    if |b| == 0 then 0
    else ColorSum(b[..|b| - 1]) + if b[|b| - 1].Some? then b[|b| - 1].value else 0
  }

  function PieceCount(b: Board): nat {
    if |b| == 0 then 0
    else PieceCount(b[..|b| - 1]) + if b[|b| - 1].Some? then 1 else 0
  }

  function WinnerOf(b: Board): Player {
    if 2 * ColorSum(b) < PieceCount(b) * 255 then Dark else Light
  }

  method ComputeWinner(b: Board) returns (winner: Player)
    requires |b| == BOARD_CELLS
    ensures winner == WinnerOf(b)
  {
    var sum, count := 0, 0;
    for i := 0 to 64
      invariant sum == ColorSum(b[..i]) && count == PieceCount(b[..i])
    {
      assert b[..i + 1][..i] == b[..i];
      if b[i].Some? {
        sum := sum + b[i].value;
        count := count + 1;
      }
    }
    assert b[..64] == b;
    return if 2 * sum < count * 255 then Dark else Light;
  }

  // ----- a placement ------------------------------------------------------------------

  /** One conversion: the target takes its colour from the fixed end of its ray. */
  datatype Hit = Hit(target: int, fixed: int)

  function RayHits(ray: Ray, n: nat): seq<Hit>
    requires n <= |ray.targets|
  {
    seq(n, i requires 0 <= i < n => Hit(ray.targets[i], ray.fixedIndex))
  }

  function Hits(rays: seq<Ray>): seq<Hit> {
    if |rays| == 0 then []
    else
      var ray := rays[|rays| - 1];
      Hits(rays[..|rays| - 1]) + RayHits(ray, |ray.targets|)
  }

  predicate HitOk(b: Board, h: Hit) {
    0 <= h.target < |b| && 0 <= h.fixed < |b| && b[h.target].Some? && b[h.fixed].Some?
  }

  function HitColor(b: Board, color: int, h: Hit): int
    requires HitOk(b, h)
  {
    (color + b[h.fixed].value + b[h.target].value) / 3
  }

  /** Every hit takes its colours from the board as it was before the move. */
  function Recolor(b: Board, color: int, hits: seq<Hit>): (r: Board)
    requires forall h :: h in hits ==> HitOk(b, h)
    ensures |r| == |b|
  {
    if |hits| == 0 then b
    else
      var h := hits[|hits| - 1];
      assert HitOk(b, h);
      Recolor(b, color, hits[..|hits| - 1])[h.target := Some(HitColor(b, color, h))]
  }

  function ChangesOf(b: Board, color: int, hits: seq<Hit>): seq<Change>
    requires forall h :: h in hits ==> HitOk(b, h)
  {
    if |hits| == 0 then []
    else
      var h := hits[|hits| - 1];
      assert HitOk(b, h);
      ChangesOf(b, color, hits[..|hits| - 1])
      + [Change(h.target / 8, h.target % 8, HitColor(b, color, h))]
  }

  /** A ray on a real board holds pieces only, at the cells its run names. */
  predicate RayOk(b: Board, ray: Ray) {
    0 <= ray.fixedIndex < |b| && b[ray.fixedIndex].Some? && |ray.targets| > 0
    && forall i :: 0 <= i < |ray.targets| ==> 0 <= ray.targets[i] < |b| && b[ray.targets[i]].Some?
  }

  lemma OccupiedIsNear(b: Board, row: int, col: int, d: Direction, k: int)
    requires |b| == BOARD_CELLS && InBounds(row, col) && k >= 0 && OccupiedAt(b, row, col, d, k)
    ensures k <= 7
  {
  }

  lemma {:induction false} RunIsOccupied(b: Board, row: int, col: int, d: Direction, k: nat)
    requires |b| == BOARD_CELLS && InBounds(row, col)
    ensures var n := RunLength(b, row, col, d, k);
            && (forall i :: k <= i < k + n ==> OccupiedAt(b, row, col, d, i))
            && !OccupiedAt(b, row, col, d, k + n)
    decreases 8 - k
  {
    hide OccupiedAt;
    if OccupiedAt(b, row, col, d, k) {
      OccupiedIsNear(b, row, col, d, k);
      RunIsOccupied(b, row, col, d, k + 1);
    }
  }

  lemma OccupiedCell(b: Board, row: int, col: int, d: Direction, k: int)
    requires |b| == BOARD_CELLS && OccupiedAt(b, row, col, d, k)
    ensures 0 <= RayIndex(row, col, d, k) < |b| && b[RayIndex(row, col, d, k)].Some?
  {
  }

  lemma RayOfOk(b: Board, row: int, col: int, d: Direction, n: nat)
    requires |b| == BOARD_CELLS && n >= 2
    requires forall i :: 1 <= i < 1 + n ==> OccupiedAt(b, row, col, d, i)
    ensures RayOk(b, RayOf(row, col, d, n))
  {
    hide RayIndex, OccupiedAt;
    OccupiedCell(b, row, col, d, n);
    var ray := RayOf(row, col, d, n);
    forall i | 0 <= i < |ray.targets|
      ensures 0 <= ray.targets[i] < |b| && b[ray.targets[i]].Some?
    {
      OccupiedCell(b, row, col, d, i + 1);
    }
  }

  lemma {:induction false} RaysOk(b: Board, row: int, col: int, d: nat)
    requires |b| == BOARD_CELLS && InBounds(row, col) && d <= 8
    ensures forall ray :: ray in RaysUpTo(b, row, col, d) ==> RayOk(b, ray)
  {
    hide RunLength, RayOk, RayOf, OccupiedAt;
    if d > 0 {
      RaysOk(b, row, col, d - 1);
      var n := RunLength(b, row, col, d - 1, 1);
      if n >= 2 {
        RunIsOccupied(b, row, col, d - 1, 1);
        RayOfOk(b, row, col, d - 1, n);
      }
    }
  }

  lemma {:induction false} HitsOk(b: Board, rays: seq<Ray>)
    requires forall ray :: ray in rays ==> RayOk(b, ray)
    ensures forall h :: h in Hits(rays) ==> HitOk(b, h)
  {
    if |rays| > 0 {
      HitsOk(b, rays[..|rays| - 1]);
      assert RayOk(b, rays[|rays| - 1]);
    }
  }

  function MoveHits(b: Board, row: int, col: int): (hits: seq<Hit>)
    requires |b| == BOARD_CELLS && InBounds(row, col)
    ensures forall h :: h in hits ==> HitOk(b, h)
  {
    RaysOk(b, row, col, 8);
    HitsOk(b, Rays(b, row, col));
    Hits(Rays(b, row, col))
  }

  function PlacedBoard(b: Board, row: int, col: int, color: int): (r: Board)
    requires |b| == BOARD_CELLS && InBounds(row, col)
    ensures |r| == BOARD_CELLS
  {
    Recolor(b, color, MoveHits(b, row, col))[Index(row, col) := Some(color)]
  }

  function Rejected(code: ErrorCode, s: Option<State>): Response {
    Response(VERSION, false, s, None, Some(code))
  }

  function Accepted(s: State, e: Option<Event>): Response {
    Response(VERSION, true, Some(s), e, None)
  }

  function Place(s: State, c: Command): Response
    requires |s.board| == BOARD_CELLS && c.row.Some? && c.col.Some?
  {
    var row, col := c.row.value, c.col.value;
    if !InBounds(row, col) then Rejected(InvalidCoordinate, Some(s))
    else if s.board[Index(row, col)].Some? then Rejected(Occupied, Some(s))
    else if |Rays(s.board, row, col)| == 0 then Rejected(IllegalMove, Some(s))
    else
      var board := PlacedBoard(s.board, row, col, s.nextColor);
      var rng := NextRandom(s.rngState);
      var moved := s.(
        board := board, turnNumber := s.turnNumber + 1,
        currentPlayer := s.currentPlayer.Opponent(), consecutivePasses := 0,
        rngState := rng, nextColor := ColorOf(rng));
      var next :=
        if Full(board) then moved.(phase := Finished, winner := Some(WinnerOf(board)), legalMoves := [])
        else moved.(legalMoves := LegalMoves(board));
      Accepted(next, Some(Event(
        c.commandId, Placed, s.currentPlayer, next.turnNumber, c.row, c.col, Some(s.nextColor),
        ChangesOf(s.board, s.nextColor, MoveHits(s.board, row, col)))))
  }

  method ApplyPlace(s: State, c: Command) returns (response: Response)
    requires |s.board| == BOARD_CELLS && c.row.Some? && c.col.Some?
    ensures response == Place(s, c)
  {
    var row, col := c.row.value, c.col.value;
    if row < 0 || row > 7 || col < 0 || col > 7 {
      return Rejected(InvalidCoordinate, Some(s));
    }
    var at := Index(row, col);
    if s.board[at].Some? {
      return Rejected(Occupied, Some(s));
    }
    var lines := CaptureLines(s.board, row, col);
    if |lines| == 0 {
      return Rejected(IllegalMove, Some(s));
    }
    RaysOk(s.board, row, col, 8);
    HitsOk(s.board, lines);
    var board, changes := ConvertTargets(s.board, s.nextColor, lines);
    board[at] := Some(s.nextColor);
    var newBoard := board[..];
    assert newBoard == PlacedBoard(s.board, row, col, s.nextColor);
    var next := s.(board := newBoard);
    next := next.(turnNumber := s.turnNumber + 1);
    next := next.(currentPlayer := s.currentPlayer.Opponent());
    next := next.(consecutivePasses := 0);
    var rng := NextRandom(s.rngState);
    next := next.(rngState := rng, nextColor := ColorOf(rng));
    var full := IsFull(newBoard);
    if full {
      var winner := ComputeWinner(newBoard);
      next := next.(phase := Finished, winner := Some(winner), legalMoves := []);
    } else {
      var moves := ListLegalMoves(newBoard);
      next := next.(legalMoves := moves);
    }
    return Accepted(next, Some(Event(
      c.commandId, Placed, s.currentPlayer, next.turnNumber, Some(row), Some(col),
      Some(s.nextColor), changes)));
  }

  /** The engine's inner loop: the targets of one ray, written into the new board in place. */
  method ConvertRay(original: Board, color: int, line: Ray, board: array<Cell>, ghost before: seq<Hit>)
    returns (changes: seq<Change>)
    requires RayOk(original, line)
    requires forall h :: h in before + RayHits(line, |line.targets|) ==> HitOk(original, h)
    requires forall h :: h in before ==> HitOk(original, h)
    requires board[..] == Recolor(original, color, before)
    modifies board
    ensures board[..] == Recolor(original, color, before + RayHits(line, |line.targets|))
    ensures ChangesOf(original, color, before) + changes
         == ChangesOf(original, color, before + RayHits(line, |line.targets|))
  {
    hide Recolor, ChangesOf, HitOk, HitColor;
    changes := [];
    assert before + RayHits(line, 0) == before;
    assert board.Length == |original|;
    for j := 0 to |line.targets|
      invariant forall h :: h in before + RayHits(line, j) ==> HitOk(original, h)
      invariant board[..] == Recolor(original, color, before + RayHits(line, j))
      invariant ChangesOf(original, color, before) + changes
             == ChangesOf(original, color, before + RayHits(line, j))
    {
      var target := line.targets[j];
      OneMoreHit(original, color, before, line, j);
      var newColor := (color + original[line.fixedIndex].value + original[target].value) / 3;
      ghost var painted := board[..];
      board[target] := Some(newColor);
      assert board[..] == painted[target := Some(newColor)];
      changes := changes + [Change(target / 8, target % 8, newColor)];
    }
  }

  lemma OneMoreHit(b: Board, color: int, before: seq<Hit>, line: Ray, j: nat)
    requires RayOk(b, line) && j < |line.targets|
    requires forall h :: h in before + RayHits(line, j) ==> HitOk(b, h)
    ensures var h := Hit(line.targets[j], line.fixedIndex);
            var hits, more := before + RayHits(line, j), before + RayHits(line, j + 1);
            && 0 <= h.target < |b| && 0 <= h.fixed < |b| && b[h.target].Some? && b[h.fixed].Some?
            && (forall h :: h in more ==> HitOk(b, h))
            && var newColor := (color + b[h.fixed].value + b[h.target].value) / 3;
               && Recolor(b, color, more) == Recolor(b, color, hits)[h.target := Some(newColor)]
               && ChangesOf(b, color, more)
               == ChangesOf(b, color, hits) + [Change(h.target / 8, h.target % 8, newColor)]
  {
    var h := Hit(line.targets[j], line.fixedIndex);
    var hits, more := before + RayHits(line, j), before + RayHits(line, j + 1);
    assert HitOk(b, h);
    assert more == hits + [h];
    assert more[..|more| - 1] == hits;
  }

  /** The engine's outer loop over the rays, on a fresh copy of the board. */
  method ConvertTargets(original: Board, color: int, lines: seq<Ray>)
    returns (board: array<Cell>, changes: seq<Change>)
    requires forall ray :: ray in lines ==> RayOk(original, ray)
    requires forall h :: h in Hits(lines) ==> HitOk(original, h)
    ensures fresh(board)
    ensures board[..] == Recolor(original, color, Hits(lines))
    ensures changes == ChangesOf(original, color, Hits(lines))
  {
    board := new Cell[|original|](i requires 0 <= i < |original| => original[i]);
    changes := [];
    assert board[..] == original;
    for i := 0 to |lines|
      invariant forall h :: h in Hits(lines[..i]) ==> HitOk(original, h)
      invariant board[..] == Recolor(original, color, Hits(lines[..i]))
      invariant changes == ChangesOf(original, color, Hits(lines[..i]))
    {
      assert lines[..i + 1][..i] == lines[..i];
      HitsOk(original, lines[..i + 1]);
      var some := ConvertRay(original, color, lines[i], board, Hits(lines[..i]));
      changes := changes + some;
    }
    assert lines[..|lines|] == lines;
  }

  // ----- a pass -----------------------------------------------------------------------

  function Pass(s: State, c: Command): Response
    requires |s.board| == BOARD_CELLS
  {
    if |LegalMoves(s.board)| > 0 then Rejected(PassNotAllowed, Some(s))
    else
      var rng := NextRandom(s.rngState);
      var moved := s.(
        turnNumber := s.turnNumber + 1, currentPlayer := s.currentPlayer.Opponent(),
        consecutivePasses := s.consecutivePasses + 1, rngState := rng, nextColor := ColorOf(rng));
      var next :=
        if moved.consecutivePasses >= 2
        then moved.(phase := Finished, winner := Some(WinnerOf(s.board)), legalMoves := [])
        else moved.(legalMoves := LegalMoves(s.board));
      Accepted(next, Some(Event(
        c.commandId, Passed, s.currentPlayer, next.turnNumber, None, None, None, [])))
  }

  method ApplyPass(s: State, c: Command) returns (response: Response)
    requires |s.board| == BOARD_CELLS
    ensures response == Pass(s, c)
  {
    var legal := ListLegalMoves(s.board);
    if |legal| > 0 {
      return Rejected(PassNotAllowed, Some(s));
    }
    var next := s.(turnNumber := s.turnNumber + 1);
    next := next.(currentPlayer := s.currentPlayer.Opponent());
    next := next.(consecutivePasses := s.consecutivePasses + 1);
    var rng := NextRandom(s.rngState);
    next := next.(rngState := rng, nextColor := ColorOf(rng));
    if next.consecutivePasses >= 2 {
      var winner := ComputeWinner(next.board);
      next := next.(phase := Finished, winner := Some(winner), legalMoves := []);
    } else {
      var moves := ListLegalMoves(next.board);
      next := next.(legalMoves := moves);
    }
    return Accepted(next, Some(Event(
      c.commandId, Passed, s.currentPlayer, next.turnNumber, None, None, None, [])));
  }

  // ----- a new game -------------------------------------------------------------------

  function InitialBoard(): (b: Board)
    ensures |b| == BOARD_CELLS
  {
    seq(64, i => if i == 27 || i == 36 then Some(0) else if i == 28 || i == 35 then Some(255) else None)
  }

  function NewGame(gameId: string, seed: int): State {
    var rng := NextRandom(seed);
    State(VERSION, gameId, InitialBoard(), 0, Dark, ColorOf(rng), rng, 0, Playing, None,
          LegalMoves(InitialBoard()))
  }

  method CreateGame(gameId: string, seed: int) returns (s: State)
    ensures s == NewGame(gameId, seed)
  {
    var cells: Board := [];
    for i := 0 to 64
      invariant cells == seq(i, j => None)
    {
      cells := cells + [None];
    }
    var board := cells[27 := Some(0)][28 := Some(255)][35 := Some(255)][36 := Some(0)];
    assert board == InitialBoard();
    var rng := NextRandom(seed);
    var moves := ListLegalMoves(board);
    return State(VERSION, gameId, board, 0, Dark, ColorOf(rng), rng, 0, Playing, None, moves);
  }

  // ----- the request gate -------------------------------------------------------------

  predicate StateValid(s: State) {
    && s.version == VERSION
    && s.gameId != ""
    && |s.board| == BOARD_CELLS
    && (forall i :: 0 <= i < 64 ==> s.board[i].Some? ==> IsColor(s.board[i].value))
    && s.currentPlayer.Valid()
    && s.turnNumber >= 0
    && IsColor(s.nextColor)
    && IsUint32(s.rngState)
    && 0 <= s.consecutivePasses <= 2
    && !s.phase.OtherPhase?
    && (s.phase.Playing? ==> s.winner.None?)
    && (s.phase.Finished? ==> s.winner.Some? && s.winner.value.Valid() && s.legalMoves == [])
    && (forall i :: 0 <= i < |s.legalMoves| ==> InBounds(s.legalMoves[i].row, s.legalMoves[i].col))
  }

  method CheckState(s: State) returns (valid: bool)
    ensures valid == StateValid(s)
  {
    if s.version != VERSION || s.gameId == "" || |s.board| != BOARD_CELLS {
      return false;
    }
    for i := 0 to 64
      invariant forall j :: 0 <= j < i ==> s.board[j].Some? ==> IsColor(s.board[j].value)
    {
      if s.board[i].Some? && (s.board[i].value < 0 || s.board[i].value > 255) {
        return false;
      }
    }
    if s.currentPlayer != Dark && s.currentPlayer != Light {
      return false;
    }
    if s.turnNumber < 0 || s.nextColor < 0 || s.nextColor > 255 {
      return false;
    }
    if s.rngState < 0 || s.rngState > 4294967295 || s.consecutivePasses < 0 || s.consecutivePasses > 2 {
      return false;
    }
    if s.phase != Playing && s.phase != Finished {
      return false;
    }
    if s.phase == Playing {
      if s.winner.Some? {
        return false;
      }
    } else {
      if s.winner != Some(Dark) && s.winner != Some(Light) {
        return false;
      }
      if |s.legalMoves| != 0 {
        return false;
      }
    }
    for i := 0 to |s.legalMoves|
      invariant forall j :: 0 <= j < i ==> InBounds(s.legalMoves[j].row, s.legalMoves[j].col)
    {
      var p := s.legalMoves[i];
      if p.row < 0 || p.row > 7 || p.col < 0 || p.col > 7 {
        return false;
      }
    }
    return true;
  }

  /** The refusals of the gate before the move itself is looked at; None lets it through. */
  function GateRefusal(s: State, c: Command): Option<ErrorCode> {
    if c.commandId == "" then Some(InvalidCommand)
    else if c.kind != PlaceType && c.kind != PassType then Some(InvalidCommand)
    else if c.player != Dark && c.player != Light then Some(InvalidCommand)
    else if c.expectedTurn < 0 then Some(InvalidCommand)
    else if c.kind == PlaceType && (c.row.None? || c.col.None?) then Some(InvalidCommand)
    else if s.phase == Finished then Some(GameFinished)
    else if c.expectedTurn != s.turnNumber then Some(StaleTurn)
    else if c.player != s.currentPlayer then Some(NotYourTurn)
    else None
  }

  /** What the engine answers to one command. */
  function Apply(s: State, c: Command): Response {
    if !StateValid(s) then Rejected(InvalidState, None)
    else
      match GateRefusal(s, c)
      case Some(code) => Rejected(code, Some(s))
      case None => if c.kind == PlaceType then Place(s, c) else Pass(s, c)
  }

  /** The whole request; None is a request that is JSON null. */
  function Evaluate(request: Option<Request>): Response {
    if request.None? then Rejected(InvalidRequest, None)
    else
      var r := request.value;
      if r.version != VERSION then Rejected(UnsupportedVersion, None)
      else if r.action.NewGameAction? then
        if r.gameId == "" || r.seed.None? || !IsUint32(r.seed.value) then Rejected(InvalidRequest, None)
        else Accepted(NewGame(r.gameId, r.seed.value), None)
      else if !r.action.ApplyCommandAction? then Rejected(InvalidRequest, None)
      else if r.state.None? || r.command.None? then Rejected(InvalidRequest, None)
      else Apply(r.state.value, r.command.value)
  }

  method EvaluateRequest(request: Option<Request>) returns (response: Response)
    ensures response == Evaluate(request)
  {
    if request == None {
      return Rejected(InvalidRequest, None);
    }
    var r := request.value;
    if r.version != VERSION {
      return Rejected(UnsupportedVersion, None);
    }
    if r.action == NewGameAction {
      if r.gameId == "" || r.seed == None {
        return Rejected(InvalidRequest, None);
      }
      if r.seed.value < 0 || r.seed.value > 4294967295 {
        return Rejected(InvalidRequest, None);
      }
      var s := CreateGame(r.gameId, r.seed.value);
      return Accepted(s, None);
    }
    if r.action != ApplyCommandAction || r.state == None || r.command == None {
      return Rejected(InvalidRequest, None);
    }
    var s, c := r.state.value, r.command.value;
    var valid := CheckState(s);
    if !valid {
      return Rejected(InvalidState, None);
    }
    if c.commandId == "" {
      return Rejected(InvalidCommand, Some(s));
    }
    if c.kind != PlaceType && c.kind != PassType {
      return Rejected(InvalidCommand, Some(s));
    }
    if c.player != Dark && c.player != Light {
      return Rejected(InvalidCommand, Some(s));
    }
    if c.expectedTurn < 0 {
      return Rejected(InvalidCommand, Some(s));
    }
    if c.kind == PlaceType && (c.row == None || c.col == None) {
      return Rejected(InvalidCommand, Some(s));
    }
    if s.phase == Finished {
      return Rejected(GameFinished, Some(s));
    }
    if c.expectedTurn != s.turnNumber {
      return Rejected(StaleTurn, Some(s));
    }
    if c.player != s.currentPlayer {
      return Rejected(NotYourTurn, Some(s));
    }
    if c.kind == PlaceType {
      response := ApplyPlace(s, c);
    } else {
      response := ApplyPass(s, c);
    }
  }
}
