/** Who wins: the side the mean colour of the board leans to, whatever the order of counting, with
    the exact middle counted for light. */
module Winners {
  import opened Options
  import opened Protocol
  import opened Rules
  import opened Games

  // ----- the balance of some pieces ---------------------------------------------------

  /** Twice the distance of every piece from the middle 127.5, taken together: below zero leans to
      dark, above zero to light. */
  function Tilt(pieces: seq<int>): int {
    if pieces == [] then 0 else (2 * pieces[0] - 255) + Tilt(pieces[1..])
  }

  /** The colours of the board's pieces, each as often as it occurs, in any order. */
  ghost predicate ListsPieces(pieces: seq<int>, b: Board) {
    forall c :: multiset(pieces)[c] == multiset(b)[Some(c)]
  }

  /** One such order: by cells. */
  function PiecesOf(b: Board): seq<int> {
    if |b| == 0 then []
    else PiecesOf(b[..|b| - 1]) + if b[|b| - 1].Some? then [b[|b| - 1].value] else []
  }

  lemma {:induction false} PiecesAreListed(b: Board)
    ensures ListsPieces(PiecesOf(b), b)
  {
    if |b| > 0 {
      PiecesAreListed(b[..|b| - 1]);
      forall c
        ensures multiset(PiecesOf(b))[c] == multiset(b)[Some(c)]
      {
        LastCell(b, c);
      }
    }
  }

  lemma {:induction false} TiltWithout(pieces: seq<int>, i: nat)
    requires i < |pieces|
    ensures Tilt(pieces) == (2 * pieces[i] - 255) + Tilt(pieces[..i] + pieces[i + 1..])
  {
    if i == 0 {
      assert pieces[..0] + pieces[1..] == pieces[1..];
    } else {
      TiltWithout(pieces[1..], i - 1);
      var rest := pieces[..i] + pieces[i + 1..];
      assert rest[1..] == pieces[1..][..i - 1] + pieces[1..][i..];
    }
  }

  lemma LastCell(b: Board, c: int)
    requires |b| > 0
    ensures multiset(b)[Some(c)] == multiset(b[..|b| - 1])[Some(c)] + if b[|b| - 1] == Some(c) then 1 else 0
  {
    assert b == b[..|b| - 1] + [b[|b| - 1]];
  }

  lemma WithoutOne(pieces: seq<int>, i: nat, c: int)
    requires i < |pieces|
    ensures multiset(pieces)[c] == multiset(pieces[..i] + pieces[i + 1..])[c] + if pieces[i] == c then 1 else 0
  {
    assert pieces == pieces[..i] + [pieces[i]] + pieces[i + 1..];
  }

  lemma ListedWithoutLast(pieces: seq<int>, b: Board, i: nat)
    requires |b| > 0 && b[|b| - 1].Some? && ListsPieces(pieces, b)
    requires i < |pieces| && pieces[i] == b[|b| - 1].value
    ensures ListsPieces(pieces[..i] + pieces[i + 1..], b[..|b| - 1])
  {
    var rest := pieces[..i] + pieces[i + 1..];
    forall c
      ensures multiset(rest)[c] == multiset(b[..|b| - 1])[Some(c)]
    {
      LastCell(b, c);
      WithoutOne(pieces, i, c);
    }
  }

  lemma NothingListed(pieces: seq<int>)
    requires forall c :: multiset(pieces)[c] == 0
    ensures pieces == []
  {
    if pieces != [] {
      WithoutOne(pieces, 0, pieces[0]);
    }
  }

  /** In whatever order the pieces are counted, they are as many and lean as much. */
  lemma {:induction false} CountedInAnyOrder(pieces: seq<int>, b: Board)
    requires ListsPieces(pieces, b)
    ensures |pieces| == PieceCount(b) && Tilt(pieces) == 2 * ColorSum(b) - 255 * PieceCount(b)
    decreases |b|
  {
    if |b| == 0 {
      NothingListed(pieces);
    } else {
      var before, last := b[..|b| - 1], b[|b| - 1];
      match last {
        case None =>
          forall c
            ensures multiset(pieces)[c] == multiset(before)[Some(c)]
          {
            LastCell(b, c);
          }
          CountedInAnyOrder(pieces, before);
        case Some(color) =>
          LastCell(b, color);
          assert color in multiset(pieces);
          var i :| 0 <= i < |pieces| && pieces[i] == color;
          ListedWithoutLast(pieces, b, i);
          CountedInAnyOrder(pieces[..i] + pieces[i + 1..], before);
          TiltWithout(pieces, i);
      }
    }
  }

  /** The verdict on any board, full or not. */
  lemma VerdictOf(pieces: seq<int>, b: Board)
    requires ListsPieces(pieces, b)
    ensures WinnerOf(b) == if Tilt(pieces) < 0 then Dark else Light
  {
    hide ListsPieces, Tilt, ColorSum, PieceCount;
    CountedInAnyOrder(pieces, b);
  }

  // ----- what the verdict means -------------------------------------------------------

  lemma {:induction false} AllDarkSum(b: Board)
    requires forall i :: 0 <= i < |b| && b[i].Some? ==> b[i].value <= 127
    ensures ColorSum(b) <= 127 * PieceCount(b)
  {
    if |b| > 0 {
      AllDarkSum(b[..|b| - 1]);
    }
  }

  lemma {:induction false} AllLightSum(b: Board)
    requires forall i :: 0 <= i < |b| && b[i].Some? ==> b[i].value >= 128
    ensures ColorSum(b) >= 128 * PieceCount(b)
  {
    if |b| > 0 {
      AllLightSum(b[..|b| - 1]);
    }
  }

  /** A board of dark pieces only is dark's, and one of light pieces only is light's. */
  lemma UnanimousBoards(b: Board)
    requires PieceCount(b) > 0
    ensures (forall i :: 0 <= i < |b| && b[i].Some? ==> b[i].value <= 127) ==> WinnerOf(b) == Dark
    ensures (forall i :: 0 <= i < |b| && b[i].Some? ==> b[i].value >= 128) ==> WinnerOf(b) == Light
  {
    hide ColorSum, PieceCount;
    if forall i :: 0 <= i < |b| && b[i].Some? ==> b[i].value <= 127 {
      AllDarkSum(b);
    }
    if forall i :: 0 <= i < |b| && b[i].Some? ==> b[i].value >= 128 {
      AllLightSum(b);
    }
  }

  /** The same cells are occupied, by colours no darker. */
  predicate NoDarker(a: Board, b: Board) {
    |a| == |b|
    && forall i :: 0 <= i < |a| ==> (a[i].Some? <==> b[i].Some?) && (a[i].Some? ==> a[i].value <= b[i].value)
  }

  lemma {:induction false} NoDarkerSum(a: Board, b: Board)
    requires NoDarker(a, b)
    ensures ColorSum(a) <= ColorSum(b) && PieceCount(a) == PieceCount(b)
  {
    if |a| > 0 {
      NoDarkerSum(a[..|a| - 1], b[..|b| - 1]);
    }
  }

  /** Making pieces lighter never takes the victory from light. */
  lemma LighterStaysLight(a: Board, b: Board)
    requires NoDarker(a, b) && WinnerOf(a) == Light
    ensures WinnerOf(b) == Light
  {
    NoDarkerSum(a, b);
  }

  /** The board with every colour mirrored at the middle. */
  function Negative(b: Board): Board {
    seq(|b|, i requires 0 <= i < |b| => if b[i].Some? then Some(255 - b[i].value) else None)
  }

  lemma {:induction false} NegativeSum(b: Board)
    ensures ColorSum(Negative(b)) == 255 * PieceCount(b) - ColorSum(b)
    ensures PieceCount(Negative(b)) == PieceCount(b)
  {
    if |b| > 0 {
      NegativeSum(b[..|b| - 1]);
      assert Negative(b)[..|b| - 1] == Negative(b[..|b| - 1]);
    }
  }

  predicate Balanced(b: Board) {
    2 * ColorSum(b) == 255 * PieceCount(b)
  }

  /** Mirroring the colours mirrors the verdict, except in the exact middle, which is light's both
      ways: the one point where the rule favours a side. */
  lemma MirroredVerdict(b: Board)
    ensures WinnerOf(Negative(b)) == if Balanced(b) then Light else WinnerOf(b).Opponent()
    ensures Balanced(b) ==> WinnerOf(b) == Light
  {
    hide ColorSum, PieceCount, Negative;
    NegativeSum(b);
  }

  // ----- the winner of a game ---------------------------------------------------------

  /** After sixty moves the winner is the side that the sixty-four pieces lean to. */
  lemma WinnerOfAGame(gameId: string, seed: int, cs: seq<Command>, pieces: seq<int>)
    requires gameId != "" && |AcceptedOf(NewGame(gameId, seed), cs)| == 60
    requires ListsPieces(pieces, Run(NewGame(gameId, seed), cs).board)
    ensures |pieces| == 64
    ensures Run(NewGame(gameId, seed), cs).winner == Some(if Tilt(pieces) < 0 then Dark else Light)
  {
    hide NewGame, AcceptedOf, Run, ListsPieces, Tilt, ColorSum, PieceCount, LegalMoves, WinnerOf;
    WholeGame(gameId, seed, cs);
    CountedInAnyOrder(pieces, Run(NewGame(gameId, seed), cs).board);
    VerdictOf(pieces, Run(NewGame(gameId, seed), cs).board);
  }
}
