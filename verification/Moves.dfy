/** What a placement does to the board, stated without the engine's loops: which cells are
    legal, which cells change, and that the order of the conversions cannot matter. */
module Moves {
  import opened Options
  import opened Protocol
  import opened Rules

  // ----- legality ---------------------------------------------------------------------

  /** Direction d sandwiches: the next two cells are both occupied. */
  predicate Sandwich(b: Board, row: int, col: int, d: Direction)
    requires |b| == BOARD_CELLS
  {
    OccupiedAt(b, row, col, d, 1) && OccupiedAt(b, row, col, d, 2)
  }

  ghost predicate SandwichBelow(b: Board, row: int, col: int, n: nat)
    requires |b| == BOARD_CELLS
  {
    exists d: Direction :: d < n && Sandwich(b, row, col, d)
  }

  lemma LongRun(b: Board, row: int, col: int, d: Direction)
    requires |b| == BOARD_CELLS && InBounds(row, col)
    ensures RunLength(b, row, col, d, 1) >= 2 <==> Sandwich(b, row, col, d)
  {
    assert RunLength(b, row, col, d, 1)
        == if OccupiedAt(b, row, col, d, 1) then 1 + RunLength(b, row, col, d, 2) else 0;
  }

  lemma {:induction false} SomeRay(b: Board, row: int, col: int, n: nat)
    requires |b| == BOARD_CELLS && InBounds(row, col) && n <= 8
    ensures |RaysUpTo(b, row, col, n)| > 0 <==> SandwichBelow(b, row, col, n)
  {
    hide RunLength, Sandwich;
    if n > 0 {
      SomeRay(b, row, col, n - 1);
      var d: Direction := n - 1;
      LongRun(b, row, col, d);
      assert Sandwich(b, row, col, d) ==> SandwichBelow(b, row, col, n);
      assert SandwichBelow(b, row, col, n - 1) ==> SandwichBelow(b, row, col, n);
    }
  }

  /** Colour and player play no part: a cell is legal iff it is empty and some direction
      has its next two cells occupied. */
  lemma LegalIff(b: Board, row: int, col: int)
    requires |b| == BOARD_CELLS && InBounds(row, col)
    ensures IsLegal(b, row, col)
       <==> (b[Index(row, col)].None? && exists d: Direction :: Sandwich(b, row, col, d))
  {
    SomeRay(b, row, col, 8);
  }

  predicate RowMajor(moves: seq<Position>) {
    forall i, j :: 0 <= i < j < |moves|
      ==> Index(moves[i].row, moves[i].col) < Index(moves[j].row, moves[j].col)
  }

  lemma CellOf(i: nat)
    requires i < BOARD_CELLS
    ensures InBounds(i / 8, i % 8) && Index(i / 8, i % 8) == i
  {
  }

  lemma IndexOf(p: Position)
    requires InBounds(p.row, p.col)
    ensures var i := Index(p.row, p.col);
            i >= 0 && p == Position(i / 8, i % 8)
  {
  }

  lemma {:induction false} LegalUpToIs(b: Board, n: nat)
    requires |b| == BOARD_CELLS && n <= 64
    ensures forall p :: p in LegalUpTo(b, n)
              <==> InBounds(p.row, p.col) && Index(p.row, p.col) < n && IsLegal(b, p.row, p.col)
    ensures RowMajor(LegalUpTo(b, n))
  {
    hide IsLegal, Index, LegalUpTo, RowMajor;
    LegalOneMore(b, n);
    NoneIsRowMajor();
    if n == 0 {
      forall p: Position | InBounds(p.row, p.col)
        ensures Index(p.row, p.col) >= 0
      {
        IndexOf(p);
      }
    } else {
      LegalUpToIs(b, n - 1);
      var last := Position((n - 1) / 8, (n - 1) % 8);
      CellOf(n - 1);
      var before := LegalUpTo(b, n - 1);
      if IsLegal(b, last.row, last.col) {
        RowMajorAppend(before, last);
      } else {
        assert LegalUpTo(b, n) == before;
      }
      forall p
        ensures p in LegalUpTo(b, n)
           <==> InBounds(p.row, p.col) && Index(p.row, p.col) < n && IsLegal(b, p.row, p.col)
      {
        if InBounds(p.row, p.col) {
          IndexOf(p);
        }
      }
    }
  }

  lemma NoneIsRowMajor()
    ensures RowMajor([])
  {
  }

  lemma RowMajorAppend(moves: seq<Position>, p: Position)
    requires RowMajor(moves)
    requires forall q :: q in moves ==> Index(q.row, q.col) < Index(p.row, p.col)
    ensures RowMajor(moves + [p])
  {
    var more := moves + [p];
    forall i, j | 0 <= i < j < |more|
      ensures Index(more[i].row, more[i].col) < Index(more[j].row, more[j].col)
    {
      if j == |moves| {
        assert moves[i] in moves;
      }
    }
  }

  /** The list is strictly row-major, so without duplicates, and lists exactly the legal cells. */
  lemma LegalMovesIs(b: Board)
    requires |b| == BOARD_CELLS
    ensures forall p :: p in LegalMoves(b) <==> InBounds(p.row, p.col) && IsLegal(b, p.row, p.col)
    ensures RowMajor(LegalMoves(b))
  {
    LegalUpToIs(b, 64);
  }

  // ----- which cells a placement converts ---------------------------------------------

  /** Two rays from one cell never share a cell, and neither holds the cell itself. */
  lemma RaysAreApart(row: int, col: int, d: Direction, k: int, e: Direction, m: int)
    requires InBounds(row, col) && k >= 1 && m >= 1
    requires InBounds(RayRow(row, d, k), RayCol(col, d, k))
    requires InBounds(RayRow(row, e, m), RayCol(col, e, m))
    ensures RayIndex(row, col, d, k) == RayIndex(row, col, e, m) ==> d == e && k == m
    ensures RayIndex(row, col, d, k) != Index(row, col)
  {
    var r1, c1, r2, c2 := RayRow(row, d, k), RayCol(col, d, k), RayRow(row, e, m), RayCol(col, e, m);
    assert r1 * 8 + c1 == r2 * 8 + c2 ==> r1 == r2 && c1 == c2;
    assert r1 * 8 + c1 == row * 8 + col ==> r1 == row && c1 == col;
  }

  /** h converts the k-th cell in direction d, whose run reaches beyond it. */
  predicate FromRay(b: Board, row: int, col: int, h: Hit, d: Direction, k: int)
    requires |b| == BOARD_CELLS && InBounds(row, col)
  {
    1 <= k < RunLength(b, row, col, d, 1)
    && h == Hit(RayIndex(row, col, d, k), RayIndex(row, col, d, RunLength(b, row, col, d, 1)))
  }

  lemma FromRayInBounds(b: Board, row: int, col: int, h: Hit, d: Direction, k: int)
    requires |b| == BOARD_CELLS && InBounds(row, col) && FromRay(b, row, col, h, d, k)
    ensures var n := RunLength(b, row, col, d, 1);
            && InBounds(RayRow(row, d, k), RayCol(col, d, k))
            && InBounds(RayRow(row, d, n), RayCol(col, d, n))
  {
    var n := RunLength(b, row, col, d, 1);
    RunIsOccupied(b, row, col, d, 1);
    assert OccupiedAt(b, row, col, d, k) && OccupiedAt(b, row, col, d, n);
  }

  /** No two hits share a target, and no target is a fixed end. */
  ghost predicate Independent(hits: seq<Hit>) {
    && DistinctTargets(hits)
    && (forall g, h :: g in hits && h in hits ==> g.target != h.fixed)
  }

  function HitsUpTo(b: Board, row: int, col: int, d: nat): seq<Hit>
    requires |b| == BOARD_CELLS && InBounds(row, col) && d <= 8
  {
    Hits(RaysUpTo(b, row, col, d))
  }

  lemma NoHitsYet(b: Board, row: int, col: int)
    requires |b| == BOARD_CELLS && InBounds(row, col)
    ensures HitsUpTo(b, row, col, 0) == []
  {
  }

  lemma HitsStep(b: Board, row: int, col: int, d: Direction)
    requires |b| == BOARD_CELLS && InBounds(row, col)
    ensures HitsUpTo(b, row, col, d + 1) == HitsUpTo(b, row, col, d) + DirectionHits(b, row, col, d)
  {
    var n := RunLength(b, row, col, d, 1);
    var rays := RaysUpTo(b, row, col, d);
    if n >= 2 {
      assert (rays + [RayOf(row, col, d, n)])[..|rays|] == rays;
    } else {
      assert rays + [] == rays;
    }
  }

  /** The hits of one direction, if its run is long enough to have any. */
  function DirectionHits(b: Board, row: int, col: int, d: Direction): seq<Hit>
    requires |b| == BOARD_CELLS && InBounds(row, col)
  {
    var n := RunLength(b, row, col, d, 1);
    if n >= 2 then RayHits(RayOf(row, col, d, n), n - 1) else []
  }

  lemma DirectionHitsAre(b: Board, row: int, col: int, d: Direction)
    requires |b| == BOARD_CELLS && InBounds(row, col)
    ensures var hits := DirectionHits(b, row, col, d);
            forall i :: 0 <= i < |hits| ==> FromRay(b, row, col, hits[i], d, i + 1)
    ensures forall h, k :: FromRay(b, row, col, h, d, k) ==> h in DirectionHits(b, row, col, d)
  {
    hide RunLength, RayIndex;
    var hits := DirectionHits(b, row, col, d);
    forall h, k | FromRay(b, row, col, h, d, k)
      ensures h in hits
    {
      assert hits[k - 1] == h;
    }
  }

  ghost predicate FromRayBelow(b: Board, row: int, col: int, h: Hit, n: nat)
    requires |b| == BOARD_CELLS && InBounds(row, col)
  {
    exists d: Direction, k :: d < n && FromRay(b, row, col, h, d, k)
  }

  lemma {:induction false} HitsComeFromRays(b: Board, row: int, col: int, n: nat)
    requires |b| == BOARD_CELLS && InBounds(row, col) && n <= 8
    ensures forall h :: h in HitsUpTo(b, row, col, n) <==> FromRayBelow(b, row, col, h, n)
  {
    hide FromRay, HitsUpTo, DirectionHits;
    NoHitsYet(b, row, col);
    if n > 0 {
      var d: Direction := n - 1;
      HitsComeFromRays(b, row, col, d);
      HitsStep(b, row, col, d);
      DirectionHitsAre(b, row, col, d);
      forall h
        ensures h in HitsUpTo(b, row, col, n) <==> FromRayBelow(b, row, col, h, n)
      {
        if h in DirectionHits(b, row, col, d) {
          var i :| 0 <= i < |DirectionHits(b, row, col, d)| && DirectionHits(b, row, col, d)[i] == h;
          assert FromRay(b, row, col, h, d, i + 1);
        }
        if FromRayBelow(b, row, col, h, n) {
          var e: Direction, k :| e < n && FromRay(b, row, col, h, e, k);
          assert e < d ==> FromRayBelow(b, row, col, h, d);
        }
        if FromRayBelow(b, row, col, h, d) {
          var e: Direction, k :| e < d && FromRay(b, row, col, h, e, k);
        }
      }
    }
  }

  lemma HitsApart(b: Board, row: int, col: int, g: Hit, d: Direction, k: int, h: Hit, e: Direction, m: int)
    requires |b| == BOARD_CELLS && InBounds(row, col)
    requires FromRay(b, row, col, g, d, k) && FromRay(b, row, col, h, e, m)
    ensures g.target == h.target ==> d == e && k == m
    ensures g.target != h.fixed && g.target != Index(row, col)
  {
    FromRayInBounds(b, row, col, g, d, k);
    FromRayInBounds(b, row, col, h, e, m);
    RaysAreApart(row, col, d, k, e, m);
    RaysAreApart(row, col, d, k, e, RunLength(b, row, col, e, 1));
  }

  predicate DistinctTargets(hits: seq<Hit>) {
    forall i, j :: 0 <= i < j < |hits| ==> hits[i].target != hits[j].target
  }

  lemma DistinctAppend(before: seq<Hit>, after: seq<Hit>)
    requires DistinctTargets(before) && DistinctTargets(after)
    requires forall g, h :: g in before && h in after ==> g.target != h.target
    ensures DistinctTargets(before + after)
  {
    var hits := before + after;
    forall i, j | 0 <= i < j < |hits|
      ensures hits[i].target != hits[j].target
    {
      if i < |before| <= j {
        assert before[i] in before && after[j - |before|] in after;
      }
    }
  }

  lemma {:induction false} TargetsDistinct(b: Board, row: int, col: int, n: nat)
    requires |b| == BOARD_CELLS && InBounds(row, col) && n <= 8
    ensures DistinctTargets(HitsUpTo(b, row, col, n))
  {
    hide FromRay, HitsUpTo, DirectionHits;
    NoHitsYet(b, row, col);
    if n > 0 {
      var d: Direction := n - 1;
      TargetsDistinct(b, row, col, d);
      HitsComeFromRays(b, row, col, d);
      HitsStep(b, row, col, d);
      DirectionHitsAre(b, row, col, d);
      var before, after := HitsUpTo(b, row, col, d), DirectionHits(b, row, col, d);
      forall i, j | 0 <= i < j < |after|
        ensures after[i].target != after[j].target
      {
        HitsApart(b, row, col, after[i], d, i + 1, after[j], d, j + 1);
      }
      forall g, h | g in before && h in after
        ensures g.target != h.target
      {
        var e: Direction, k :| e < d && FromRay(b, row, col, g, e, k);
        var i :| 0 <= i < |after| && after[i] == h;
        HitsApart(b, row, col, g, e, k, h, d, i + 1);
      }
      DistinctAppend(before, after);
    }
  }

  lemma MoveHitsIndependent(b: Board, row: int, col: int)
    requires |b| == BOARD_CELLS && InBounds(row, col)
    ensures Independent(MoveHits(b, row, col))
    ensures forall h :: h in MoveHits(b, row, col) ==> h.target != Index(row, col)
    ensures forall h :: h in MoveHits(b, row, col)
              <==> exists d: Direction, k :: FromRay(b, row, col, h, d, k)
  {
    TargetsDistinct(b, row, col, 8);
    HitsComeFromRays(b, row, col, 8);
    var hits := MoveHits(b, row, col);
    assert hits == HitsUpTo(b, row, col, 8);
    forall g, h | g in hits && h in hits
      ensures g.target != h.fixed && g.target != Index(row, col)
    {
      var d, k :| FromRay(b, row, col, g, d, k);
      var e, m :| FromRay(b, row, col, h, e, m);
      HitsApart(b, row, col, g, d, k, h, e, m);
    }
  }

  // ----- the board after a placement --------------------------------------------------

  lemma {:induction false} RecolorAt(b: Board, color: int, hits: seq<Hit>)
    requires forall h :: h in hits ==> HitOk(b, h)
    requires DistinctTargets(hits)
    ensures forall h :: h in hits ==> Recolor(b, color, hits)[h.target] == Some(HitColor(b, color, h))
    ensures forall i :: 0 <= i < |b| && (forall h :: h in hits ==> h.target != i)
              ==> Recolor(b, color, hits)[i] == b[i]
  {
    if |hits| > 0 {
      var before, last := hits[..|hits| - 1], hits[|hits| - 1];
      RecolorAt(b, color, before);
      assert HitOk(b, last);
      forall h | h in hits
        ensures Recolor(b, color, hits)[h.target] == Some(HitColor(b, color, h))
      {
        if h != last {
          var i :| 0 <= i < |hits| && hits[i] == h;
          assert h == before[i];
        }
      }
      forall i | 0 <= i < |b| && (forall h :: h in hits ==> h.target != i)
        ensures Recolor(b, color, hits)[i] == b[i]
      {
        assert last in hits;
        forall h | h in before
          ensures h.target != i
        {
          assert h in hits;
        }
      }
    }
  }

  /** The simultaneous rule of the game: the placed cell takes the placed colour, every cell
      between it and the far end of its run takes the floored mean of the placed colour, the
      far end and itself, all three as they were before the move, and nothing else changes. */
  lemma PlaceIsSimultaneous(b: Board, row: int, col: int, color: int)
    requires |b| == BOARD_CELLS && InBounds(row, col)
    ensures var after := PlacedBoard(b, row, col, color);
            after[Index(row, col)] == Some(color)
    ensures var after := PlacedBoard(b, row, col, color);
            forall h, d: Direction, k :: FromRay(b, row, col, h, d, k) ==>
              HitOk(b, h) && after[h.target] == Some((color + b[h.fixed].value + b[h.target].value) / 3)
    ensures var after := PlacedBoard(b, row, col, color);
            forall i :: 0 <= i < BOARD_CELLS && i != Index(row, col)
              && (forall h, d: Direction, k :: FromRay(b, row, col, h, d, k) ==> h.target != i)
              ==> after[i] == b[i]
  {
    hide MoveHits, FromRay, Recolor, Independent;
    var hits := MoveHits(b, row, col);
    MoveHitsIndependent(b, row, col);
    IndependentIsDistinct(hits);
    RecolorAt(b, color, hits);
    forall i | 0 <= i < BOARD_CELLS && i != Index(row, col)
      && (forall h, d: Direction, k :: FromRay(b, row, col, h, d, k) ==> h.target != i)
      ensures PlacedBoard(b, row, col, color)[i] == b[i]
    {
      forall h | h in hits
        ensures h.target != i
      {
        var d, k :| FromRay(b, row, col, h, d, k);
      }
    }
  }

  lemma IndependentIsDistinct(hits: seq<Hit>)
    requires Independent(hits)
    ensures DistinctTargets(hits)
  {
  }

  /** The rule for one cell, from the run it lies in. */
  lemma ConvertedCell(b: Board, row: int, col: int, color: int, d: Direction, n: nat, k: nat)
    requires |b| == BOARD_CELLS && InBounds(row, col) && 1 <= k < n
    requires forall i :: 1 <= i < 1 + n ==> OccupiedAt(b, row, col, d, i)
    requires !OccupiedAt(b, row, col, d, 1 + n)
    ensures var target, fixed := RayIndex(row, col, d, k), RayIndex(row, col, d, n);
            && 0 <= target < BOARD_CELLS && 0 <= fixed < BOARD_CELLS
            && b[target].Some? && b[fixed].Some?
            && PlacedBoard(b, row, col, color)[target]
               == Some((color + b[fixed].value + b[target].value) / 3)
  {
    hide RunLength, PlacedBoard, RayIndex;
    RunLengthIs(b, row, col, d, 1, n);
    var h := Hit(RayIndex(row, col, d, k), RayIndex(row, col, d, n));
    assert FromRay(b, row, col, h, d, k);
    PlaceIsSimultaneous(b, row, col, color);
  }

  // ----- the order of conversions does not matter -------------------------------------

  /** The same conversions made one after another on a single board, each reading what the
      earlier ones have already written. */
  function InPlace(b: Board, color: int, hits: seq<Hit>): (r: Board)
    requires forall h :: h in hits ==> HitOk(b, h)
    ensures |r| == |b| && forall i :: 0 <= i < |b| ==> (r[i].Some? <==> b[i].Some?)
  {
    if |hits| == 0 then b
    else
      var h := hits[|hits| - 1];
      assert HitOk(b, h);
      var r := InPlace(b, color, hits[..|hits| - 1]);
      r[h.target := Some(HitColor(r, color, h))]
  }

  lemma {:induction false} InPlaceIsRecolor(b: Board, color: int, hits: seq<Hit>)
    requires forall h :: h in hits ==> HitOk(b, h)
    requires Independent(hits)
    ensures InPlace(b, color, hits) == Recolor(b, color, hits)
  {
    hide HitColor;
    if |hits| > 0 {
      var before, last := hits[..|hits| - 1], hits[|hits| - 1];
      assert forall h :: h in before ==> h in hits;
      InPlaceIsRecolor(b, color, before);
      RecolorAt(b, color, before);
      assert HitOk(b, last) && last in hits;
      var r := Recolor(b, color, before);
      forall h | h in before
        ensures h.target != last.target && h.target != last.fixed
      {
        var i :| 0 <= i < |before| && before[i] == h;
        assert hits[i] == h && h in hits;
      }
      assert r[last.target] == b[last.target] && r[last.fixed] == b[last.fixed];
      SameColor(b, r, color, last);
    }
  }

  lemma SameColor(b: Board, r: Board, color: int, h: Hit)
    requires HitOk(b, h) && |r| == |b| && r[h.target] == b[h.target] && r[h.fixed] == b[h.fixed]
    ensures HitOk(r, h) && HitColor(r, color, h) == HitColor(b, color, h)
  {
  }

  lemma SameHitsSameRecolor(b: Board, color: int, hits: seq<Hit>, others: seq<Hit>)
    requires forall h :: h in hits ==> HitOk(b, h)
    requires forall h :: h in hits <==> h in others
    requires DistinctTargets(hits)
    requires DistinctTargets(others)
    ensures Recolor(b, color, hits) == Recolor(b, color, others)
  {
    RecolorAt(b, color, hits);
    RecolorAt(b, color, others);
    forall i | 0 <= i < |b|
      ensures Recolor(b, color, hits)[i] == Recolor(b, color, others)[i]
    {
      if h :| h in hits && h.target == i {
        assert h in others;
      }
    }
  }

  lemma OnceEach<T>(s: seq<T>, i: int, j: int)
    requires 0 <= i < j < |s| && s[i] == s[j]
    ensures multiset(s)[s[i]] >= 2
  {
    assert s == s[..i] + [s[i]] + s[i + 1..j] + [s[j]] + s[j + 1..];
  }

  lemma {:induction false} CountOfDistinct(hits: seq<Hit>, h: Hit)
    requires DistinctTargets(hits)
    ensures multiset(hits)[h] <= 1
  {
    if |hits| > 0 {
      var before, last := hits[..|hits| - 1], hits[|hits| - 1];
      assert hits == before + [last];
      CountOfDistinct(before, h);
      assert h == last ==> h !in before;
    }
  }

  lemma ShuffledStayApart(hits: seq<Hit>, shuffled: seq<Hit>)
    requires Independent(hits) && multiset(shuffled) == multiset(hits)
    ensures Independent(shuffled)
    ensures forall h :: h in hits <==> h in shuffled
  {
    forall h
      ensures h in hits <==> h in shuffled
    {
      assert h in multiset(hits) <==> h in multiset(shuffled);
    }
    forall i, j | 0 <= i < j < |shuffled|
      ensures shuffled[i].target != shuffled[j].target
    {
      var g, h := shuffled[i], shuffled[j];
      if g == h {
        OnceEach(shuffled, i, j);
        CountOfDistinct(hits, g);
      } else {
        assert g in hits && h in hits;
        var p :| 0 <= p < |hits| && hits[p] == g;
        var q :| 0 <= q < |hits| && hits[q] == h;
        assert p < q || q < p;
      }
    }
  }

  /** Converting the cells of a move one at a time, in any order of rays and targets, and even
      reading colours back from the board being written, gives the engine's board. */
  lemma AnyOrderInPlace(b: Board, row: int, col: int, color: int, shuffled: seq<Hit>)
    requires |b| == BOARD_CELLS && InBounds(row, col)
    requires multiset(shuffled) == multiset(MoveHits(b, row, col))
    ensures forall h :: h in shuffled ==> HitOk(b, h)
    ensures InPlace(b, color, shuffled)[Index(row, col) := Some(color)]
         == PlacedBoard(b, row, col, color)
  {
    var hits := MoveHits(b, row, col);
    MoveHitsIndependent(b, row, col);
    ShuffledStayApart(hits, shuffled);
    InPlaceIsRecolor(b, color, shuffled);
    SameHitsSameRecolor(b, color, hits, shuffled);
  }
}
