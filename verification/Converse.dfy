/** What a replay does not check: the harness applies moves without the request gate, so it accepts
    records that no live game wrote. Exactly which, is stated here. */
module Converse {
  import opened Options
  import opened Protocol
  import opened Rules
  import opened Moves
  import opened Games
  import opened Contract
  import opened Grammar
  import opened Harness
  import opened Record
  import opened RoundTrip

  /** The commands that the moves of a record stand for, turn by turn. */
  function CommandsFor(moves: seq<Move>): seq<Command> {
    if |moves| == 0 then []
    else CommandsFor(moves[..|moves| - 1]) + [MoveCommand(moves[|moves| - 1], |moves| - 1)]
  }

  /** Placements only, by the two players in turn, dark first. */
  predicate InTurn(moves: seq<Move>) {
    forall i :: 0 <= i < |moves| ==>
      moves[i].kind == PlaceType && moves[i].player == if i % 2 == 0 then Dark else Light
  }

  lemma {:induction false} CommandsReadBack(moves: seq<Move>)
    requires GoodMoves(moves)
    ensures |CommandsFor(moves)| == |moves| && MovesOf(CommandsFor(moves)) == moves
  {
    hide MoveError, MoveCommand, MoveFromCommand, MovesOf;
    if |moves| == 0 {
      NoMoves();
    } else {
      var before, last := moves[..|moves| - 1], moves[|moves| - 1];
      assert GoodMoves(before) && MoveError(last).None?;
      CommandsReadBack(before);
      MoveRoundTrip(last, |moves| - 1);
      MovesOfAppend(CommandsFor(before), MoveCommand(last, |moves| - 1));
    }
  }

  lemma NoMoves()
    ensures MovesOf([]) == []
  {
  }

  /** One move on a state of a game: the gate lets it through and the engine accepts it iff it is a
      placement by the player to move that the harness too would accept. */
  lemma GateAndHarness(s: State, id: string, seed: int, m: Move)
    requires InGame(s, id, seed) && id != "" && MoveError(m).None?
    ensures Shaped(m)
    ensures Accepts(s, MoveCommand(m, s.turnNumber))
       <==> (m.kind == PlaceType && m.player == s.currentPlayer && ApplyMove(s, m).ok)
  {
    hide LegalMoves, PlacedBoard, Rays, WinnerOf, ChangesOf, MoveHits, InGame;
    var c := MoveCommand(m, s.turnNumber);
    InGameBoard(s, id, seed);
    AcceptedIffListed(s, id, seed, c);
    LegalMovesIs(s.board);
    OutOfMovesIsFull(s.board);
  }

  lemma InGameBoard(s: State, id: string, seed: int)
    requires InGame(s, id, seed)
    ensures |s.board| == BOARD_CELLS && CentreOccupied(s.board)
    ensures s.legalMoves == if Full(s.board) then [] else LegalMoves(s.board)
    ensures s.currentPlayer == if s.turnNumber % 2 == 0 then Dark else Light
  {
  }

  lemma AcceptedByTheLast(start: State, moves: seq<Move>)
    requires |moves| > 0 && GoodMoves(moves)
    ensures var before, last := moves[..|moves| - 1], moves[|moves| - 1];
            AllAccepted(start, CommandsFor(moves))
            <==> (AllAccepted(start, CommandsFor(before))
                  && Accepts(Run(start, CommandsFor(before)), MoveCommand(last, |before|)))
  {
    hide Accepts, Run, MoveError, MoveCommand;
    var before, last := moves[..|moves| - 1], moves[|moves| - 1];
    var cs := CommandsFor(moves);
    assert cs[..|cs| - 1] == CommandsFor(before) && cs[|cs| - 1] == MoveCommand(last, |before|);
    if AllAccepted(start, cs) {
      AllAcceptedPrefix(start, cs);
    }
    RunAppend(start, CommandsFor(before), MoveCommand(last, |before|));
  }

  lemma InTurnByTheLast(moves: seq<Move>)
    requires |moves| > 0
    ensures var before, last := moves[..|moves| - 1], moves[|moves| - 1];
            InTurn(moves) <==>
              (InTurn(before) && last.kind == PlaceType
               && last.player == if |before| % 2 == 0 then Dark else Light)
  {
  }

  /** The live state behind a replay of accepted commands. */
  lemma ReplayedState(id: string, seed: int, moves: seq<Move>)
    requires id != "" && GoodMoves(moves) && (forall m :: m in moves ==> Shaped(m))
    requires AllAccepted(NewGame(id, seed), CommandsFor(moves))
    ensures var s := Run(NewGame(id, seed), CommandsFor(moves));
            && ReplayMoves(id, seed, moves).state == s && InGame(s, id, seed) && s.turnNumber == |moves|
            && |s.board| == BOARD_CELLS && s.currentPlayer == if |moves| % 2 == 0 then Dark else Light
  {
    hide Accepts, NewGame, InGame, Run, MoveError, Shaped, AcceptedOf;
    CommandsReadBack(moves);
    ReplayRefinesLive(id, seed, CommandsFor(moves));
    GameInvariant(id, seed, CommandsFor(moves));
    InGameBoard(Run(NewGame(id, seed), CommandsFor(moves)), id, seed);
  }

  /** A record's moves, as the harness's own commands, are accepted from a new game iff the harness
      replays them without failure and they are placements by the two players in turn. */
  lemma {:induction false} ReplayIsAcceptedIff(id: string, seed: int, moves: seq<Move>)
    requires id != "" && GoodMoves(moves)
    ensures forall m :: m in moves ==> Shaped(m)
    ensures AllAccepted(NewGame(id, seed), CommandsFor(moves))
       <==> (ReplayMoves(id, seed, moves).failure.None? && InTurn(moves))
  {
    GoodMovesShape(moves);
    if |moves| > 0 {
      var before, last := moves[..|moves| - 1], moves[|moves| - 1];
      assert GoodMoves(before) && MoveError(last).None?;
      hide *;
      ReplayIsAcceptedIff(id, seed, before);
      AcceptedByTheLast(NewGame(id, seed), moves);
      InTurnByTheLast(moves);
      FailureByTheLast(id, seed, moves);
      if AllAccepted(NewGame(id, seed), CommandsFor(before)) {
        ReplayedState(id, seed, before);
        GateAndHarness(Run(NewGame(id, seed), CommandsFor(before)), id, seed, last);
      }
    }
  }

  lemma FailureByTheLast(id: string, seed: int, moves: seq<Move>)
    requires |moves| > 0 && forall m :: m in moves ==> Shaped(m)
    ensures var before := moves[..|moves| - 1];
            && (forall m :: m in before ==> Shaped(m))
            && var p := ReplayMoves(id, seed, before);
               ReplayMoves(id, seed, moves).failure.None?
               <==> (p.failure.None? && ApplyMove(p.state, moves[|moves| - 1]).ok)
  {
    hide NewGame, ApplyMove, Shaped;
    var before := moves[..|moves| - 1];
    assert forall m :: m in before ==> m in moves;
    ReplayPrefix(id, seed, before, moves, |before|);
  }

  /** Whatever ids a client gives its commands: the accepted commands of a live game are placements
      by the two players in turn. */
  lemma {:induction false} LiveMovesInTurn(id: string, seed: int, cs: seq<Command>)
    requires id != "" && AllAccepted(NewGame(id, seed), cs)
    ensures |MovesOf(cs)| == |cs| && InTurn(MovesOf(cs))
  {
    if |cs| > 0 {
      var before, c := cs[..|cs| - 1], cs[|cs| - 1];
      hide *;
      AllAcceptedPrefix(NewGame(id, seed), cs);
      LiveMovesInTurn(id, seed, before);
      LiveMoveInTurn(id, seed, before, c);
      MovesOfAppend(before, c);
      assert cs == before + [c];
      InTurnAppend(MovesOf(before), MoveFromCommand(c));
    }
  }

  lemma LiveMoveInTurn(id: string, seed: int, cs: seq<Command>, c: Command)
    requires id != "" && AllAccepted(NewGame(id, seed), cs) && Accepts(Run(NewGame(id, seed), cs), c)
    ensures MoveFromCommand(c).kind == PlaceType
    ensures MoveFromCommand(c).player == if |cs| % 2 == 0 then Dark else Light
  {
    hide NewGame, Run, Accepts, InGame, AcceptedOf;
    var s := Run(NewGame(id, seed), cs);
    GameInvariant(id, seed, cs);
    AcceptedIffListed(s, id, seed, c);
    InGameBoard(s, id, seed);
  }

  lemma MovesOfAppend(cs: seq<Command>, c: Command)
    ensures MovesOf(cs + [c]) == MovesOf(cs) + [MoveFromCommand(c)]
  {
    assert (cs + [c])[..|cs|] == cs;
  }

  lemma InTurnAppend(moves: seq<Move>, m: Move)
    requires InTurn(moves) && m.kind == PlaceType && m.player == if |moves| % 2 == 0 then Dark else Light
    ensures InTurn(moves + [m])
  {
    assert (moves + [m])[..|moves|] == moves;
    InTurnByTheLast(moves + [m]);
  }

  /** Some client's commands, whatever their ids, make exactly these moves in a live game. */
  ghost predicate IsLive(id: string, seed: int, moves: seq<Move>) {
    exists cs :: MovesOf(cs) == moves && AllAccepted(NewGame(id, seed), cs)
  }

  /** A record's moves are the moves of some live game iff the harness replays them without failure
      and they are placements by the two players in turn. */
  lemma ReplayIsLiveIff(id: string, seed: int, moves: seq<Move>)
    requires id != "" && GoodMoves(moves)
    ensures forall m :: m in moves ==> Shaped(m)
    ensures IsLive(id, seed, moves) <==> (ReplayMoves(id, seed, moves).failure.None? && InTurn(moves))
  {
    hide NewGame, ReplayUpTo, Shaped, MoveError, AllAccepted, InTurn, MovesOf;
    ReplayIsAcceptedIff(id, seed, moves);
    CommandsReadBack(moves);
    if IsLive(id, seed, moves) {
      var cs :| MovesOf(cs) == moves && AllAccepted(NewGame(id, seed), cs);
      LiveMovesInTurn(id, seed, cs);
      ReplayRefinesLive(id, seed, cs);
    }
  }

  /** The difference is real: light may open a record, and the harness replays it, but no live game
      has these moves. */
  lemma LightMayOpenARecord(id: string, seed: int)
    requires id != ""
    ensures var moves := [Move(Light, PlaceType, Some(2), Some(2))];
            && GoodMoves(moves) && (forall m :: m in moves ==> Shaped(m))
            && ReplayMoves(id, seed, moves).failure.None?
            && forall cs :: MovesOf(cs) == moves ==> !AllAccepted(NewGame(id, seed), cs)
  {
    hide AllAccepted, IsLegal, Rays, LegalMoves, PlacedBoard, ChangesOf, MoveHits, MovesOf;
    var m := Move(Light, PlaceType, Some(2), Some(2));
    var moves := [m];
    OpeningMoves(2, 2);
    LegalHasRays(InitialBoard(), 2, 2);
    assert moves[..0] == [];
    FailureByTheLast(id, seed, moves);
    assert ReplayMoves(id, seed, []).state == NewGame(id, seed);
    assert !InTurn(moves);
    ReplayIsLiveIff(id, seed, moves);
    forall cs | MovesOf(cs) == moves
      ensures !AllAccepted(NewGame(id, seed), cs)
    {
      assert !IsLive(id, seed, moves);
    }
  }

  lemma LegalHasRays(b: Board, row: int, col: int)
    requires |b| == BOARD_CELLS && InBounds(row, col) && IsLegal(b, row, col)
    ensures b[Index(row, col)].None? && |Rays(b, row, col)| > 0
  {
  }

  // ----- the contract's game record ---------------------------------------------------

  lemma {:induction false} CommandsAre(frames: seq<Frame>, moves: seq<Move>, n: nat)
    requires |frames| == |moves| + 1 && n <= |moves|
    requires forall i :: 1 <= i <= |moves| ==> frames[i].move == Some(moves[i - 1]) && frames[i].turnNumber == i
    ensures CommandsUpTo(frames, n) == CommandsFor(moves[..n])
  {
    hide MoveCommand;
    if n > 0 {
      CommandsAre(frames, moves, n - 1);
      assert moves[..n][..n - 1] == moves[..n - 1];
    }
  }

  /** The record of an accepted replay holds the script's own moves, as commands for their turns, so
      that the script can be taken out of it again; and they are commands that bring the engine,
      gate and all, to the record's final state iff the two players move in turn. */
  lemma RecordPlaysAgain(source: string)
    requires Replay(source).Ok?
    ensures var r := Replay(source).value;
            var game := RecordOf(r);
            && MovesOf(game.commands) == r.script.moves && game.commands == CommandsFor(r.script.moves)
            && game.finalState == ReplayMoves(game.gameId, game.seed, r.script.moves).state
            && game.finalState.phase == Finished && game.finalState.winner == game.winner
            && (AllAccepted(NewGame(game.gameId, game.seed), game.commands) <==> InTurn(r.script.moves))
            && (InTurn(r.script.moves) ==> Run(NewGame(game.gameId, game.seed), game.commands) == game.finalState)
  {
    hide NewGame, ReplayUpTo, ValidGameId, FitsRecord, Decode, MoveError, Shaped, Run, AllAccepted, InTurn,
         StateTyped, Settled, Scan, FramesUpTo, PatternFree, MoveCommand, MoveFromCommand, InGame;
    var r := Replay(source).value;
    AcceptedRecordCarries(source);
    NamedGame(r.script.gameId);
    var moves := r.script.moves;
    assert forall i :: 1 <= i <= |moves| ==>
        r.frames[i] == ExpectedFrame(moves[i - 1], r.script.frames[i], r.frames[i].line);
    CommandsAre(r.frames, moves, |moves|);
    assert moves[..|moves|] == moves;
    CommandsReadBack(moves);
    ReplayIsAcceptedIff(r.script.gameId, r.script.seed, moves);
    if InTurn(moves) {
      ReplayedState(r.script.gameId, r.script.seed, moves);
    }
  }
}
