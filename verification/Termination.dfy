/** Every game ends, also from states that no new game reaches. */
module Termination {
  import opened Protocol
  import opened Rules
  import opened Moves
  import opened Games
  import Random

  /** A state the validity check accepts, with the bound on passes that it leaves out. */
  predicate Sound(s: State) {
    StateValid(s) && (s.phase == Playing ==> s.consecutivePasses <= 1)
  }

  function Empties(b: Board): int {
    |b| - PieceCount(b)
  }

  /** How many more commands can be accepted at most. */
  function Remaining(s: State): int
    requires |s.board| == BOARD_CELLS
  {
    if s.phase == Finished then 0
    else if |LegalMoves(s.board)| > 0 then Empties(s.board) + 2
    else 2 - s.consecutivePasses
  }

  lemma RemainingBound(s: State)
    requires Sound(s)
    ensures 0 <= Remaining(s) <= Empties(s.board) + 2
  {
    hide LegalMoves, PieceCount;
    CountBounds(s.board);
  }

  /** One accepted command keeps the state sound and uses up at least one of what remains. */
  lemma StepUsesUp(s: State, c: Command)
    requires Sound(s)
    ensures Sound(Step(s, c))
    ensures Accepts(s, c) ==> 0 <= Remaining(Step(s, c)) < Remaining(s)
  {
    hide LegalMoves, PieceCount, PlacedBoard, Rays, ColorOf, NextRandom;
    if Accepts(s, c) {
      var t := Step(s, c);
      LegalMovesIs(s.board);
      Random.DrawInRange(s.rngState);
      if c.kind == PlaceType {
        assert Apply(s, c) == Place(s, c);
        var row, col := c.row.value, c.col.value;
        assert Position(row, col) in LegalMoves(s.board);
        PlacedBoardPieces(s.board, row, col, s.nextColor);
      } else {
        assert Apply(s, c) == Pass(s, c);
      }
      LegalMovesIs(t.board);
      forall i | 0 <= i < |t.legalMoves|
        ensures InBounds(t.legalMoves[i].row, t.legalMoves[i].col)
      {
        assert t.legalMoves[i] in t.legalMoves;
      }
      CountBounds(t.board);
    }
  }

  /** From every sound state, a run of any length accepts at most empty cells + 2 commands. */
  lemma {:induction false} RunsEnd(s: State, cs: seq<Command>)
    requires Sound(s)
    ensures Sound(Run(s, cs))
    ensures |AcceptedOf(s, cs)| + Remaining(Run(s, cs)) <= Remaining(s)
    ensures |AcceptedOf(s, cs)| <= Empties(s.board) + 2
  {
    hide Sound, Step, Accepts, Remaining;
    RemainingBound(s);
    if |cs| > 0 {
      var before, c := cs[..|cs| - 1], cs[|cs| - 1];
      RunsEnd(s, before);
      RemainingBound(Run(s, before));
      StepUsesUp(Run(s, before), c);
      RefusedChangesNothing(Run(s, before), c);
    }
    RemainingBound(Run(s, cs));
  }
}
