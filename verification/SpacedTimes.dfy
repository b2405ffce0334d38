/** Records whose times end in white space that a time's pattern takes in and trimming takes off.
    They are accepted, and writing them again loses that white space. */
module SpacedTimes {
  import opened Options
  import opened Protocol
  import opened Rules
  import opened Games
  import opened Contract
  import opened Text
  import opened Grammar
  import opened Harness
  import opened Record
  import opened RoundTrip

  /** A time that ends in an ideographic space, and a comment that holds it before another word. */
  const SPACED_TIME := "X\U{3000}"
  const SPACED_COMMENT := "# 開始 X\U{3000} y"

  lemma SpacedTimeFound()
    ensures TimeOf("開始", " 開始 X\U{3000} y") == Some(SPACED_TIME)
    ensures TimeOf("終了", " 開始 X\U{3000} y") == None
  {
    var s := " 開始 X\U{3000} y";
    var after := SPACED_TIME + " y";
    assert s == " " + ("開始" + (" " + after));
    LeadingOf(" ", "開始" + (" " + after), IsPatternSpace);
    StripPrefixOf("開始", " " + after);
    LeadingOf(" ", after, IsPatternSpace);
    LeadingOf(SPACED_TIME, " y", NotPatternSpace);
    OtherKeyword("終了", s);
  }

  lemma ReadsSpaced(o: Outline, g: Globals, offset: nat)
    requires o.startedAt == ""
    ensures Reads(o, g, [SPACED_COMMENT], offset, o.(startedAt := SPACED_TIME), g)
  {
    hide Reads, TimeOf, Trim, ParseLine;
    var comment := " 開始 X\U{3000} y";
    assert SPACED_COMMENT == "#" + comment;
    CommentText(comment);
    SpacedTimeFound();
    ReadsOne(o, g, SPACED_COMMENT, offset);
  }

  /** The text of a recorded game without times, and the comment after it. */
  ghost function SpacedText(gameId: string, seed: int, moves: seq<Move>, frames: seq<ScriptFrame>): string
    requires Recorded(gameId, seed, moves, frames)
  {
    Lines(RecordTexts(gameId, seed, moves, frames, "", "")) + "\n" + SPACED_COMMENT
  }

  lemma SpacedLines(gameId: string, seed: int, moves: seq<Move>, frames: seq<ScriptFrame>)
    requires Recorded(gameId, seed, moves, frames)
    ensures Split(SpacedText(gameId, seed, moves, frames))
         == RecordTexts(gameId, seed, moves, frames, "", "") + [""] + [SPACED_COMMENT]
  {
    hide Recorded, RecordTexts, Lines, Split;
    EmptyIsPatternFree();
    var texts := RecordTexts(gameId, seed, moves, frames, "", "");
    RecordNoNewlines(gameId, seed, moves, frames, "", "");
    SplitLines(texts);
    SplitJoined(Lines(texts), SPACED_COMMENT);
    SplitNoNewline(SPACED_COMMENT);
  }

  ghost function SpacedOutline(gameId: string, seed: int, moves: seq<Move>, frames: seq<ScriptFrame>): Outline
    requires Recorded(gameId, seed, moves, frames)
  {
    ExpectedOutline(gameId, seed, moves, frames, "", "").(startedAt := SPACED_TIME)
  }

  /** The scanner accepts the text and finds the spaced time in it. */
  lemma SpacedScans(gameId: string, seed: int, moves: seq<Move>, frames: seq<ScriptFrame>)
    requires Recorded(gameId, seed, moves, frames)
    ensures var done := frames[|moves|].state.phase == Finished;
            Reads(EMPTY, FRESH, RecordTexts(gameId, seed, moves, frames, "", "") + [""] + [SPACED_COMMENT], 0,
                  SpacedOutline(gameId, seed, moves, frames),
                  Globals(RULES_VERSION, gameId, seed, if done then frames[|moves|].state.winner else None, moves, 1, 1,
                          if done then 1 else 0))
  {
    hide Reads, RecordTexts, MoveLines, ValidGameId, FitsRecord, StateTyped, Settled, Shaped, ReplayMoves, NewGame,
         MoveError, OpeningCount;
    EmptyIsPatternFree();
    NothingToTrim();
    ReadsRecord(gameId, seed, moves, frames, "", "");
    var texts := RecordTexts(gameId, seed, moves, frames, "", "") + [""];
    var done := frames[|moves|].state.phase == Finished;
    var o := ExpectedOutline(gameId, seed, moves, frames, "", "");
    var g := Globals(RULES_VERSION, gameId, seed, if done then frames[|moves|].state.winner else None, moves, 1, 1,
                     if done then 1 else 0);
    ReadsSpaced(o, g, |texts|);
    ReadsThen(EMPTY, FRESH, texts, 0, o, g, [SPACED_COMMENT], SpacedOutline(gameId, seed, moves, frames), g);
  }

  lemma SpacedDecodes(gameId: string, seed: int, moves: seq<Move>, frames: seq<ScriptFrame>)
    requires Recorded(gameId, seed, moves, frames)
    ensures Decode(SpacedText(gameId, seed, moves, frames))
         == Ok((ExpectedScript(gameId, seed, moves, frames, SPACED_TIME, ""),
                SpacedOutline(gameId, seed, moves, frames)))
  {
    hide RecordTexts, ValidGameId, StateTyped, Settled, Shaped, NewGame, ReplayUpTo, FitsRecord, ScanLines, LinesOf,
         Words, MoveLines, MoveError, OpeningCount, SpacedText, Split, TrimRight;
    NothingToTrim();
    SpacedLines(gameId, seed, moves, frames);
    SpacedScans(gameId, seed, moves, frames);
    NoBadMove(moves);
  }

  /** For every finished recorded game: the text is an accepted record, its time ends in white space,
      and what is written of it is accepted too but is no longer the same. */
  lemma TrailingSpaceIsLost(gameId: string, seed: int, moves: seq<Move>, frames: seq<ScriptFrame>)
    requires Recorded(gameId, seed, moves, frames) && frames[|moves|].state.phase == Finished
    ensures LosesSpace(SpacedText(gameId, seed, moves, frames), gameId, seed)
  {
    hide ValidGameId, StateTyped, Shaped, NewGame, ReplayUpTo, FitsRecord, MoveLines, MoveError, OpeningCount,
         Decode, SpacedText, Encode, TrimRight, RecordTexts;
    var source := SpacedText(gameId, seed, moves, frames);
    SpacedDecodes(gameId, seed, moves, frames);
    FramesAreExpected(ExpectedScript(gameId, seed, moves, frames, SPACED_TIME, ""),
                      SpacedOutline(gameId, seed, moves, frames), gameId, seed, moves, frames, OpeningCount("", ""),
                      |moves|);
    ReencodedRecordReplays(source);
  }

  ghost predicate LosesSpace(source: string, gameId: string, seed: int) {
    && Replay(source).Ok?
    && var r := Replay(source).value;
       && r.script.gameId == gameId && r.script.seed == seed
       && r.script.startedAt == SPACED_TIME && (forall f :: f in r.frames ==> FrameTyped(f))
       && Encode(r).Some? && Replay(Encode(r).value).Ok?
       && !SameGame(Replay(Encode(r).value).value, r)
  }

  /** There are such records, for every game id and seed. */
  lemma SpacedRecordsExist(gameId: string, seed: int)
    requires ValidGameId(gameId) && IsUint32(seed)
    ensures exists source :: LosesSpace(source, gameId, seed)
  {
    hide ValidGameId, NewGame, Run, AcceptedOf, ReplayUpTo, LosesSpace, Recorded, Shaped;
    NamedGame(gameId);
    assert AcceptedOf(NewGame(gameId, seed), []) == [] by {
      NothingAccepted(NewGame(gameId, seed));
    }
    EveryGameCanFinish(gameId, seed, []);
    var cs :| AcceptedOf(NewGame(gameId, seed), [] + cs) == [] + cs
      && Run(NewGame(gameId, seed), [] + cs).phase == Finished;
    assert [] + cs == cs && cs[..|cs|] == cs;
    LiveGameIsRecorded(gameId, seed, cs);
    var moves := MovesOf(cs);
    var frames := ReplayMoves(gameId, seed, moves).frames;
    RecordedShape(gameId, seed, moves, frames);
    TrailingSpaceIsLost(gameId, seed, moves, frames);
  }

  lemma NothingAccepted(s: State)
    ensures AcceptedOf(s, []) == []
  {
  }
}
