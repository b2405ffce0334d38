/** What is written is read back: line bookkeeping for every source, and the round trip from a
    replayed or live game through its record text and the strict replayer. */
module RoundTrip {
  import opened Options
  import opened Protocol
  import opened Rules
  import opened Moves
  import opened Games
  import opened Contract
  import opened Text
  import opened Grammar
  import opened Harness
  import opened Record
  import Random

  // ----- folding over concatenations --------------------------------------------------

  lemma {:induction false} WordsConcat(g: Globals, a: seq<Line>, b: seq<Line>)
    ensures Words(g, a + b) == Words(Words(g, a), b)
  {
    hide Word;
    if |b| == 0 {
      assert a + b == a;
    } else {
      WordsConcat(g, a, b[..|b| - 1]);
      assert (a + b)[..|a + b| - 1] == a + b[..|b| - 1];
    }
  }

  lemma {:induction false} LinesOfConcat(a: seq<string>, b: seq<string>)
    ensures LinesOf(a + b) == LinesOf(a) + LinesOf(b)
  {
    hide ParseLine, Trim;
    if |b| == 0 {
      assert a + b == a;
    } else {
      LinesOfConcat(a, b[..|b| - 1]);
      assert (a + b)[..|a + b| - 1] == a + b[..|b| - 1];
    }
  }

  lemma {:induction false} ScanConcat(o: Outline, a: seq<string>, b: seq<string>, offset: nat)
    requires ScanLines(o, a, offset).ScanOk?
    ensures ScanLines(o, a + b, offset) == ScanLines(ScanLines(o, a, offset).outline, b, offset + |a|)
  {
    hide AddLine, ParseLine, Trim;
    if |b| == 0 {
      assert a + b == a;
    } else {
      ScanConcat(o, a, b[..|b| - 1], offset);
      assert (a + b)[..|a + b| - 1] == a + b[..|b| - 1];
    }
  }

  // ----- line bookkeeping, for every source -------------------------------------------

  /** The move that a line of the record stands for. */
  function MoveOfLine(line: Line): Option<Move> {
    match line
    case PlaceLine(row, col, word, _) => Some(Move(PlayerOfWord(word), PlaceType, Some(row), Some(col)))
    case PassLine(word) => Some(Move(PlayerOfWord(word), PassType, None, None))
    case _ => None
  }

  /** The outline and the harness saw the same record: the i-th move line is numbered i + 1, it
      holds the text of its own source line, that text is the i-th move the harness has, the
      line numbers strictly increase, and the counts of the other lines agree. */
  ghost predicate Tracks(o: Outline, g: Globals, raws: seq<string>) {
    && |o.moveLines| == |g.moves|
    && o.headerLines == g.startCount && o.footerLines == g.endCount && o.rulesVersionLines == g.versionCount
    && (forall i :: 0 <= i < |o.moveLines| ==> TracksMove(o.moveLines[i], i, g.moves[i], raws))
    && (forall i, j :: 0 <= i < j < |o.moveLines| ==> o.moveLines[i].line < o.moveLines[j].line)
  }

  predicate TracksMove(m: MoveLine, i: nat, move: Move, raws: seq<string>) {
    m.number == i + 1 && 1 <= m.line <= |raws| && m.text == Trim(raws[m.line - 1])
    && MoveOfLine(ParseLine(m.text)) == Some(move)
  }

  lemma TracksOneMore(o: Outline, g: Globals, raws: seq<string>)
    requires |raws| > 0 && Tracks(o, g, raws[..|raws| - 1])
    requires !ParseLine(Trim(raws[|raws| - 1])).BadLine?
    ensures var text := Trim(raws[|raws| - 1]);
            Tracks(AddLine(o, ParseLine(text), |raws|, text), Word(g, ParseLine(text)), raws)
  {
    hide Trim, ParseLine, TimeOf, NoteOf;
    var before, text := raws[..|raws| - 1], Trim(raws[|raws| - 1]);
    var line := ParseLine(text);
    var o', g' := AddLine(o, line, |raws|, text), Word(g, line);
    forall i | 0 <= i < |o'.moveLines|
      ensures TracksMove(o'.moveLines[i], i, g'.moves[i], raws)
    {
      if i < |o.moveLines| {
        assert TracksMove(o.moveLines[i], i, g.moves[i], before);
        assert before[o.moveLines[i].line - 1] == raws[o.moveLines[i].line - 1];
      }
    }
    forall i, j | 0 <= i < j < |o'.moveLines|
      ensures o'.moveLines[i].line < o'.moveLines[j].line
    {
      assert TracksMove(o.moveLines[i], i, g.moves[i], before);
    }
  }

  lemma {:induction false} ScanTracks(raws: seq<string>)
    requires ScanLines(EMPTY, raws, 0).ScanOk?
    ensures Tracks(ScanLines(EMPTY, raws, 0).outline, Words(FRESH, LinesOf(raws)), raws)
  {
    hide Trim, ParseLine, AddLine, Word;
    if |raws| > 0 {
      var before := raws[..|raws| - 1];
      ScanTracks(before);
      TracksOneMore(ScanLines(EMPTY, before, 0).outline, Words(FRESH, LinesOf(before)), raws);
      LinesOfConcat(before, [raws[|raws| - 1]]);
      var lines := LinesOf(raws);
      assert lines[..|lines| - 1] == LinesOf(before);
    }
  }

  /** For every source the scanner accepts: its move lines are numbered consecutively on strictly
      increasing lines, LineAt returns their text, and they are the harness's moves one by one. */
  lemma LineBookkeeping(source: string)
    requires Scan(source).ScanOk?
    ensures var o, g := Scan(source).outline, RunHarness(source);
            && |o.moveLines| == |g.moves|
            && o.headerLines == g.startCount && o.footerLines == g.endCount
            && o.rulesVersionLines == g.versionCount
            && (forall i :: 0 <= i < |o.moveLines| ==>
                 && o.moveLines[i].number == i + 1
                 && o.moveLines[i].line >= 1
                 && LineAt(source, o.moveLines[i].line) == o.moveLines[i].text
                 && MoveOfLine(ParseLine(o.moveLines[i].text)) == Some(g.moves[i]))
            && (forall i, j :: 0 <= i < j < |o.moveLines| ==> o.moveLines[i].line < o.moveLines[j].line)
  {
    hide Trim, ParseLine, Split, ScanLines, LinesOf, Words, MoveOfLine;
    ScanTracks(Split(source));
    var o, g := Scan(source).outline, RunHarness(source);
    forall i | 0 <= i < |o.moveLines|
      ensures TracksMove(o.moveLines[i], i, g.moves[i], Split(source))
    {
    }
  }

  // ----- lines of the combined program -------------------------------------------------

  const OUTPUT_CALL := "対局データ出力"

  function Combined(harness: string, source: string): string {
    harness + "\n" + source + "\n" + OUTPUT_CALL + "\n"
  }

  /** The record's line for a line of the combined program, 0 when it lies outside the record. */
  function LocateLine(harness: string, source: string, combinedLine: int): int {
    var line := combinedLine - (NewlineCount(harness) + 1);
    if line < 1 || line > NewlineCount(source) + 1 then 0 else line
  }

  lemma CombinedLines(harness: string, source: string)
    ensures Split(Combined(harness, source)) == Split(harness) + (Split(source) + [OUTPUT_CALL, ""])
  {
    hide Split;
    var rest := source + "\n" + OUTPUT_CALL + "\n";
    assert Combined(harness, source) == harness + "\n" + rest;
    SplitJoined(harness, rest);
    SplitJoined(source, OUTPUT_CALL + "\n");
    assert rest == source + "\n" + (OUTPUT_CALL + "\n");
    SplitNoNewline(OUTPUT_CALL);
    SplitNoNewline("");
    SplitJoined(OUTPUT_CALL, "");
    assert OUTPUT_CALL + "\n" + "" == OUTPUT_CALL + "\n";
    assert [OUTPUT_CALL] + [""] == [OUTPUT_CALL, ""];
  }

  /** A diagnostic's line is mapped back to the record line with the same text, and a line of the
      harness or of the added call is never blamed on the record. */
  lemma LocatedLineIsItsOwn(harness: string, source: string, combinedLine: nat)
    requires 1 <= combinedLine <= |Split(Combined(harness, source))|
    ensures var line := LocateLine(harness, source, combinedLine);
            if |Split(harness)| < combinedLine <= |Split(harness)| + |Split(source)|
            then 1 <= line <= |Split(source)|
              && Split(source)[line - 1] == Split(Combined(harness, source))[combinedLine - 1]
            else line == 0
  {
    CombinedLines(harness, source);
    NewlinesAreLines(harness);
    NewlinesAreLines(source);
  }

  // ----- facts about any successful replay ---------------------------------------------

  /** A move's event and state, within the ranges that the record needs. */
  predicate FitsRecord(m: Move, f: ScriptFrame) {
    && StateTyped(f.state) && f.event.Some? && EventTyped(f.event.value)
    && (m.kind == PlaceType ==> f.event.value.placedColor.Some?)
    && |f.event.value.changes| <= 48
  }

  predicate Settled(s: State) {
    && !s.phase.OtherPhase? && (s.phase == Finished ==> s.winner.Some? && s.winner.value.Valid())
  }

  lemma {:induction false} FewHits(b: Board, row: int, col: int, d: nat)
    requires |b| == BOARD_CELLS && InBounds(row, col) && d <= 8
    ensures |HitsUpTo(b, row, col, d)| <= 6 * d
  {
    hide RunLength, HitsUpTo;
    NoHitsYet(b, row, col);
    if d > 0 {
      FewHits(b, row, col, d - 1);
      HitsStep(b, row, col, d - 1);
      ShortRun(b, row, col, d - 1);
    }
  }

  lemma ShortRun(b: Board, row: int, col: int, d: Direction)
    requires |b| == BOARD_CELLS && InBounds(row, col)
    ensures RunLength(b, row, col, d, 1) <= 7
  {
    var n := RunLength(b, row, col, d, 1);
    RunIsOccupied(b, row, col, d, 1);
    OneStepFurther(row, col, d, n);
    assert n > 0 ==> OccupiedAt(b, row, col, d, n);
  }

  lemma ApplyFits(s: State, m: Move)
    requires |s.board| == BOARD_CELLS && StateTyped(s) && Settled(s) && MoveError(m).None?
    requires ApplyMove(s, m).ok
    ensures var r := ApplyMove(s, m);
            r.state.Some? && Settled(r.state.value) && r.state.value.turnNumber == s.turnNumber + 1
            && FitsRecord(m, ScriptFrame(r.state.value.turnNumber, 0, r.state.value, r.event))
  {
    hide LegalMoves, PlacedBoard, Rays, ColorSum, ChangesOf, MoveHits, ColorOf, NextRandom, PieceCount;
    Random.DrawInRange(s.rngState);
    if m.kind == PlaceType {
      var row, col := m.row.value, m.col.value;
      PlacedBoardPieces(s.board, row, col, s.nextColor);
      ChangesInRange(s.board, s.nextColor, MoveHits(s.board, row, col));
      FewHits(s.board, row, col, 8);
      MoveHitsAre(s.board, row, col);
    }
  }

  lemma MoveHitsAre(b: Board, row: int, col: int)
    requires |b| == BOARD_CELLS && InBounds(row, col)
    ensures MoveHits(b, row, col) == HitsUpTo(b, row, col, 8)
  {
  }

  predicate GoodMoves(moves: seq<Move>) {
    forall m :: m in moves ==> MoveError(m).None?
  }

  lemma GoodMovesShape(moves: seq<Move>)
    requires GoodMoves(moves)
    ensures forall m :: m in moves ==> Shaped(m)
  {
  }

  lemma {:induction false} ReplayFacts(gameId: string, seed: int, moves: seq<Move>, n: nat)
    requires GoodMoves(moves) && n <= |moves|
    ensures forall m :: m in moves ==> Shaped(m)
    ensures var p := ReplayUpTo(gameId, seed, moves, n);
            && StateTyped(p.state) && Settled(p.state)
            && (p.failure.None? ==>
                 && |p.frames| == n + 1 && p.frames[n].state == p.state && p.state.turnNumber == n
                 && p.frames[0] == ScriptFrame(0, 0, NewGame(gameId, seed), None)
                 && (forall i :: 1 <= i <= n ==> FitsRecord(moves[i - 1], p.frames[i]))
                 && (forall i :: 1 <= i <= n ==> p.frames[i].turnNumber == i && p.frames[i].moveNumber == i))
  {
    hide NewGame, ApplyMove, StateTyped, Settled, FitsRecord, MoveError, Shaped;
    GoodMovesShape(moves);
    if n == 0 {
      NewGameFits(gameId, seed);
    } else {
      ReplayFacts(gameId, seed, moves, n - 1);
      var p := ReplayUpTo(gameId, seed, moves, n - 1);
      assert MoveError(moves[n - 1]).None?;
      if p.failure.None? && ApplyMove(p.state, moves[n - 1]).ok {
        ApplyFits(p.state, moves[n - 1]);
        FitsTyped(moves[n - 1], ApplyMove(p.state, moves[n - 1]), n);
      }
    }
  }

  lemma FitsTyped(m: Move, r: Response, n: nat)
    requires r.state.Some? && FitsRecord(m, ScriptFrame(r.state.value.turnNumber, 0, r.state.value, r.event))
    ensures StateTyped(r.state.value)
    ensures FitsRecord(m, ScriptFrame(r.state.value.turnNumber, n, r.state.value, r.event))
  {
  }

  lemma NewGameFits(gameId: string, seed: int)
    ensures StateTyped(NewGame(gameId, seed)) && Settled(NewGame(gameId, seed))
    ensures NewGame(gameId, seed).turnNumber == 0
  {
    hide LegalMoves;
    Random.DrawInRange(seed);
  }

  // ----- the expected record and the expected result -----------------------------------

  /** The line of one move. */
  function MoveText(m: Move, e: Option<Event>): string
    requires MoveError(m).None? && (e.Some? ==> EventTyped(e.value))
  {
    if m.kind == PlaceType
    then PlaceText(m.player, m.row.value, m.col.value, PlacedColorOf(e), ChangedOf(e))
    else PassText(m.player)
  }

  /** A game as a record holds it: its moves and the frames that the harness replays from them. */
  ghost predicate Recorded(gameId: string, seed: int, moves: seq<Move>, frames: seq<ScriptFrame>) {
    && ValidGameId(gameId) && IsUint32(seed) && GoodMoves(moves)
    && |frames| == |moves| + 1
    && frames[0] == ScriptFrame(0, 0, NewGame(gameId, seed), None)
    && (forall i :: 1 <= i <= |moves| ==> FitsRecord(moves[i - 1], frames[i]))
    && (forall i :: 1 <= i <= |moves| ==> frames[i].turnNumber == i && frames[i].moveNumber == i)
    && Settled(frames[|moves|].state) && StateTyped(frames[|moves|].state)
    && (forall m :: m in moves ==> Shaped(m))
    && ReplayMoves(gameId, seed, moves) == Progress(frames[|moves|].state, frames, None)
  }

  /** Every replay without failure is recorded by its own frames. */
  lemma ReplayIsRecorded(gameId: string, seed: int, moves: seq<Move>)
    requires ValidGameId(gameId) && IsUint32(seed) && GoodMoves(moves)
    ensures forall m :: m in moves ==> Shaped(m)
    ensures var p := ReplayMoves(gameId, seed, moves);
            p.failure.None? ==> Recorded(gameId, seed, moves, p.frames)
  {
    hide NewGame, StateTyped, Settled, FitsRecord, MoveError, Shaped, ReplayUpTo, ValidGameId;
    GoodMovesShape(moves);
    ReplayFacts(gameId, seed, moves, |moves|);
  }

  function MoveTexts(moves: seq<Move>, frames: seq<ScriptFrame>, n: nat): seq<string>
    requires n <= |moves| && |frames| == |moves| + 1 && GoodMoves(moves)
    requires forall i :: 1 <= i <= |moves| ==> FitsRecord(moves[i - 1], frames[i])
  {
    if n == 0 then [] else MoveTexts(moves, frames, n - 1) + [MoveText(moves[n - 1], frames[n].event)]
  }

  function ClosingOf(s: State, moveCount: nat): seq<string>
    requires StateTyped(s) && Settled(s)
  {
    if s.phase == Finished then ClosingTexts(s.winner.value, moveCount, s.board) else []
  }

  ghost function RecordTexts(gameId: string, seed: int, moves: seq<Move>, frames: seq<ScriptFrame>,
                             startedAt: string, endedAt: string): seq<string>
    requires Recorded(gameId, seed, moves, frames)
  {
    OpeningTexts(startedAt, endedAt, gameId, seed) + MoveTexts(moves, frames, |moves|)
    + ClosingOf(frames[|moves|].state, |moves|)
  }

  function MoveLines(moves: seq<Move>, frames: seq<ScriptFrame>, offset: nat, n: nat): seq<MoveLine>
    requires n <= |moves| && |frames| == |moves| + 1 && GoodMoves(moves)
    requires forall i :: 1 <= i <= |moves| ==> FitsRecord(moves[i - 1], frames[i])
  {
    if n == 0 then []
    else
      var m, e := moves[n - 1], frames[n].event;
      MoveLines(moves, frames, offset, n - 1)
      + [if m.kind == PlaceType
         then MoveLine(n, offset + n, MoveText(m, e), true, PlacedColorOf(e), ChangedOf(e))
         else MoveLine(n, offset + n, MoveText(m, e), false, 0, 0)]
  }

  /** How many lines stand before the first move. */
  function OpeningCount(startedAt: string, endedAt: string): (n: nat)
    ensures n >= 5
  {
    |HeaderTexts(startedAt, endedAt)| + 4
  }

  ghost function ExpectedOutline(gameId: string, seed: int, moves: seq<Move>, frames: seq<ScriptFrame>,
                                 startedAt: string, endedAt: string): Outline
    requires Recorded(gameId, seed, moves, frames)
  {
    var opening := OpeningCount(startedAt, endedAt);
    Outline(MoveLines(moves, frames, opening, |moves|), TrimRight(startedAt), TrimRight(endedAt), RULES_VERSION,
            opening - 2, 1, 1,
            if frames[|moves|].state.phase == Finished then 1 else 0)
  }

  ghost function ExpectedScript(gameId: string, seed: int, moves: seq<Move>, frames: seq<ScriptFrame>,
                                startedAt: string, endedAt: string): Script
    requires Recorded(gameId, seed, moves, frames)
  {
    var final := frames[|moves|].state;
    Script("1", RULES_VERSION, gameId, seed, if final.phase == Finished then final.winner else None,
           moves, 1, 1, if final.phase == Finished then 1 else 0, None, frames, startedAt, endedAt)
  }

  function ExpectedFrame(m: Move, f: ScriptFrame, line: nat): Frame {
    Frame(f.turnNumber, f.moveNumber, line, Some(m), f.state, f.event)
  }

  // ----- scanning the written lines ----------------------------------------------------

  lemma ScanOne(o: Outline, raw: string, offset: nat)
    requires !ParseLine(Trim(raw)).BadLine?
    ensures ScanLines(o, [raw], offset) == ScanOk(AddLine(o, ParseLine(Trim(raw)), offset + 1, Trim(raw)))
    ensures LinesOf([raw]) == [ParseLine(Trim(raw))]
  {
    hide ParseLine, Trim, AddLine;
    assert [raw][..0] == [];
    assert ScanLines(o, [], offset) == ScanOk(o);
  }

  lemma OneWord(g: Globals, line: Line)
    ensures Words(g, [line]) == Word(g, line)
  {
    hide Word;
    assert [line][..0] == [];
  }

  /** Reading a block of lines, by the scanner and by the harness. */
  ghost predicate Reads(o: Outline, g: Globals, raws: seq<string>, offset: nat, o': Outline, g': Globals) {
    ScanLines(o, raws, offset) == ScanOk(o') && Words(g, LinesOf(raws)) == g'
  }

  lemma ReadsThen(o: Outline, g: Globals, a: seq<string>, offset: nat, o1: Outline, g1: Globals,
                  b: seq<string>, o2: Outline, g2: Globals)
    requires Reads(o, g, a, offset, o1, g1) && Reads(o1, g1, b, offset + |a|, o2, g2)
    ensures Reads(o, g, a + b, offset, o2, g2)
  {
    ScanConcat(o, a, b, offset);
    LinesOfConcat(a, b);
    WordsConcat(g, LinesOf(a), LinesOf(b));
  }

  lemma ReadsOne(o: Outline, g: Globals, raw: string, offset: nat)
    requires !ParseLine(Trim(raw)).BadLine?
    ensures Reads(o, g, [raw], offset, AddLine(o, ParseLine(Trim(raw)), offset + 1, Trim(raw)),
                  Word(g, ParseLine(Trim(raw))))
  {
    hide ParseLine, Trim, AddLine, Word;
    ScanOne(o, raw, offset);
    OneWord(g, ParseLine(Trim(raw)));
  }

  lemma ReadsBlank(o: Outline, g: Globals, offset: nat)
    ensures Reads(o, g, [""], offset, o, g)
  {
    hide Reads;
    ReadsOne(o, g, "", offset);
  }

  lemma CommentText(comment: string)
    requires comment != "" && !IsSpace(comment[|comment| - 1])
    ensures Trim("#" + comment) == "#" + comment && ParseLine("#" + comment) == CommentLine(comment)
  {
    hide IsSpace;
    var s := "#" + comment;
    assert s[|s| - 1] == comment[|comment| - 1];
    assert !IsSpace('#') by {
      HashIsNoSpace();
    }
    TrimUnspaced(s);
  }

  lemma HashIsNoSpace()
    ensures !IsSpace('#')
  {
  }

  lemma ReadsTitle(o: Outline, g: Globals, offset: nat)
    ensures Reads(o, g, [TITLE], offset, o, g)
  {
    hide Reads, TimeOf, Trim, ParseLine, IsSpace;
    TitleEnds();
    var comment := " グラデーションリバーシ 対局記録 v1";
    assert TITLE == "#" + comment;
    assert comment[0] == ' ' && comment[1] == 'グ';
    CommentText(comment);
    OtherKeyword("開始", comment);
    OtherKeyword("終了", comment);
    ReadsOne(o, g, TITLE, offset);
  }

  lemma TitleEnds()
    ensures !IsSpace(TITLE[|TITLE| - 1])
  {
  }

  predicate IsKeyword(keyword: string, other: string) {
    (keyword == "開始" && other == "終了") || (keyword == "終了" && other == "開始")
  }

  lemma TrimHash(s: string)
    requires s != "" && s[0] == '#'
    ensures Trim(s) == TrimRight(s)
  {
  }

  lemma TrimmedAfter(front: string, bare: string, t: string)
    requires front != "" && front[0] == '#' && TrimRight(front) == bare
    ensures Trim(front + t) == if TrimRight(t) == "" then bare else front + TrimRight(t)
  {
    hide *;
    assert (front + t)[0] == '#';
    TrimHash(front + t);
    TrimRightAfter(front, t);
  }

  lemma CommentOf(keyword: string, t: string)
    ensures "# " + keyword + " " + t == "#" + (" " + keyword + " " + t)
  {
  }

  lemma TrimmedTimeLine(keyword: string, other: string, t: string)
    requires IsKeyword(keyword, other)
    ensures Trim("# " + keyword + " " + t)
         == if TrimRight(t) == "" then "#" + (" " + keyword) else "#" + (" " + keyword + " " + TrimRight(t))
  {
    hide *;
    KeywordTrims(keyword, other);
    TrimmedAfter("# " + keyword + " ", "#" + (" " + keyword), t);
    CommentOf(keyword, TrimRight(t));
  }

  lemma KeptTime(keyword: string, other: string, kept: string)
    requires IsKeyword(keyword, other) && PatternFree(kept) && kept != "" && !IsSpace(kept[|kept| - 1])
    ensures var comment := " " + keyword + " " + kept;
            && Trim("#" + comment) == "#" + comment && ParseLine("#" + comment) == CommentLine(comment)
            && TimeOf(keyword, comment) == Some(kept) && TimeOf(other, comment) == None
  {
    hide TimeOf, IsSpace, ParseLine, Trim;
    var comment := " " + keyword + " " + kept;
    CommentText(comment);
    TimeReadsBack(keyword, kept);
    OtherKeyword(other, comment);
  }

  lemma LostTime(keyword: string, other: string)
    requires IsKeyword(keyword, other)
    ensures var comment := " " + keyword;
            && ParseLine("#" + comment) == CommentLine(comment)
            && TimeOf(keyword, comment) == None && TimeOf(other, comment) == None
  {
    hide TimeOf, IsSpace, ParseLine, Trim;
    var comment := " " + keyword;
    KeywordEnds(keyword, other);
    CommentText(comment);
    OtherKeyword(other, comment);
    NoTimeAfter(keyword);
  }

  /** The trimmed line of a time, and the time that its pattern finds there. */
  lemma TimeLine(keyword: string, other: string, t: string)
    requires IsKeyword(keyword, other) && PatternFree(t) && t != ""
    ensures var line := ParseLine(Trim("# " + keyword + " " + t));
            line.CommentLine? && TimeOf(other, line.text) == None
            && TimeOf(keyword, line.text) == if TrimRight(t) == "" then None else Some(TrimRight(t))
  {
    hide TimeOf, IsSpace, ParseLine, Trim, TrimRight, PatternFree, IsKeyword;
    TrimmedTimeLine(keyword, other, t);
    TrimRightPatternFree(t);
    TrimRightEnds(t);
    if TrimRight(t) != "" {
      KeptTime(keyword, other, TrimRight(t));
    } else {
      LostTime(keyword, other);
    }
  }

  lemma KeywordEnds(keyword: string, other: string)
    requires IsKeyword(keyword, other)
    ensures keyword != "" && !IsSpace(keyword[|keyword| - 1])
  {
  }

  lemma TrimSpaceAfter(s: string)
    requires s != "" && !IsSpace(s[|s| - 1])
    ensures TrimRight(s + " ") == s
  {
    TrimRightAfter(s, " ");
    assert " "[..0] == "" && TrimRight("") == "" && TrimRight(" ") == "";
  }

  lemma KeywordTrims(keyword: string, other: string)
    requires IsKeyword(keyword, other)
    ensures TrimRight("# " + keyword + " ") == "#" + (" " + keyword)
  {
    hide *;
    KeywordEnds(keyword, other);
    var s := "# " + keyword;
    assert s[|s| - 1] == keyword[|keyword| - 1];
    TrimSpaceAfter(s);
    assert s == "#" + (" " + keyword);
  }

  lemma NoTimeAfter(keyword: string)
    requires keyword == "開始" || keyword == "終了"
    ensures TimeOf(keyword, " " + keyword) == None
  {
    LeadingOf(" ", keyword, IsPatternSpace);
    assert keyword + "" == keyword;
    StripPrefixOf(keyword, "");
  }

  lemma {:induction false} TrimRightAfter(a: string, t: string)
    ensures TrimRight(a + t) == if TrimRight(t) == "" then TrimRight(a) else a + TrimRight(t)
  {
    if t == "" {
      assert a + t == a;
    } else if IsSpace(t[|t| - 1]) {
      TrimRightAfter(a, t[..|t| - 1]);
      assert (a + t)[..|a + t| - 1] == a + t[..|t| - 1];
    }
  }

  lemma {:induction false} TrimRightPatternFree(t: string)
    requires PatternFree(t)
    ensures PatternFree(TrimRight(t))
  {
    if t != "" && IsSpace(t[|t| - 1]) {
      TrimRightPatternFree(t[..|t| - 1]);
    }
  }

  lemma ReadsStarted(o: Outline, g: Globals, t: string, offset: nat)
    requires PatternFree(t) && t != "" && o.startedAt == ""
    ensures Reads(o, g, ["# 開始 " + t], offset, o.(startedAt := TrimRight(t)), g)
  {
    hide Reads, TimeOf, Trim, ParseLine;
    assert "# 開始 " + t == "# " + "開始" + " " + t;
    TimeLine("開始", "終了", t);
    ReadsOne(o, g, "# 開始 " + t, offset);
  }

  lemma ReadsEnded(o: Outline, g: Globals, t: string, offset: nat)
    requires PatternFree(t) && t != "" && o.endedAt == ""
    ensures Reads(o, g, ["# 終了 " + t], offset, o.(endedAt := TrimRight(t)), g)
  {
    hide Reads, TimeOf, Trim, ParseLine;
    assert "# 終了 " + t == "# " + "終了" + " " + t;
    TimeLine("終了", "開始", t);
    ReadsOne(o, g, "# 終了 " + t, offset);
  }

  lemma ReadsNothing(o: Outline, g: Globals, offset: nat)
    ensures Reads(o, g, [], offset, o, g)
  {
  }

  lemma NothingToTrim()
    ensures TrimRight("") == ""
  {
  }

  lemma ReadsHeaders(startedAt: string, endedAt: string)
    requires PatternFree(startedAt) && PatternFree(endedAt)
    ensures Reads(EMPTY, FRESH, HeaderTexts(startedAt, endedAt), 0,
                  EMPTY.(startedAt := TrimRight(startedAt), endedAt := TrimRight(endedAt)), FRESH)
  {
    hide Reads, PatternFree, TrimRight;
    NothingToTrim();
    var a, g := EMPTY, FRESH;
    var b := a.(startedAt := TrimRight(startedAt));
    var c := b.(endedAt := TrimRight(endedAt));
    var start := if startedAt != "" then ["# 開始 " + startedAt] else [];
    var end := if endedAt != "" then ["# 終了 " + endedAt] else [];
    ReadsTitle(a, g, 0);
    if startedAt != "" {
      ReadsStarted(a, g, startedAt, 1);
    } else {
      ReadsNothing(a, g, 1);
    }
    ReadsThen(a, g, [TITLE], 0, a, g, start, b, g);
    if endedAt != "" {
      ReadsEnded(b, g, endedAt, |[TITLE] + start|);
    } else {
      ReadsNothing(b, g, |[TITLE] + start|);
    }
    ReadsThen(a, g, [TITLE] + start, 0, b, g, end, c, g);
  }

  lemma ReadsVersion(o: Outline, g: Globals, offset: nat)
    requires o.rulesVersionLine == 0
    ensures Reads(o, g, [VersionText()], offset,
                  o.(rulesVersionLines := o.rulesVersionLines + 1, rulesVersionLine := offset + 1,
                     rulesVersion := RULES_VERSION),
                  g.(rulesVersion := RULES_VERSION, versionCount := g.versionCount + 1))
  {
    hide Reads, ParseLine;
    TrimUnspaced(VersionText());
    VersionReadsBack();
    ReadsOne(o, g, VersionText(), offset);
  }

  lemma ReadsStart(o: Outline, g: Globals, gameId: string, seed: nat, offset: nat)
    requires ValidGameId(gameId)
    ensures Reads(o, g, [StartText(gameId, seed)], offset, o.(headerLines := o.headerLines + 1),
                  g.(gameId := gameId, seed := seed, startCount := g.startCount + 1))
  {
    hide Reads, ParseLine, ValidGameId, Decimal;
    TrimUnspaced(StartText(gameId, seed));
    StartReadsBack(gameId, seed);
    ReadsOne(o, g, StartText(gameId, seed), offset);
  }

  lemma ReadsOpening(startedAt: string, endedAt: string, gameId: string, seed: nat)
    requires PatternFree(startedAt) && PatternFree(endedAt) && ValidGameId(gameId)
    ensures var n := OpeningCount(startedAt, endedAt);
            && |OpeningTexts(startedAt, endedAt, gameId, seed)| == n
            && Reads(EMPTY, FRESH, OpeningTexts(startedAt, endedAt, gameId, seed), 0,
                     Outline([], TrimRight(startedAt), TrimRight(endedAt), RULES_VERSION, n - 2, 1, 1, 0),
                     Globals(RULES_VERSION, gameId, seed, None, [], 1, 1, 0))
  {
    hide Reads, PatternFree, TrimRight, HeaderTexts, VersionText, StartText, ValidGameId;
    var h := HeaderTexts(startedAt, endedAt);
    var n := |h|;
    var o, g := EMPTY.(startedAt := TrimRight(startedAt), endedAt := TrimRight(endedAt)), FRESH;
    ReadsHeaders(startedAt, endedAt);
    ReadsBlank(o, g, n);
    ReadsThen(EMPTY, FRESH, h, 0, o, g, [""], o, g);
    var o1 := o.(rulesVersionLines := 1, rulesVersionLine := n + 2, rulesVersion := RULES_VERSION);
    var g1 := g.(rulesVersion := RULES_VERSION, versionCount := 1);
    ReadsVersion(o, g, n + 1);
    ReadsThen(EMPTY, FRESH, h + [""], 0, o, g, [VersionText()], o1, g1);
    var o2 := o1.(headerLines := 1);
    var g2 := g1.(gameId := gameId, seed := seed, startCount := 1);
    ReadsStart(o1, g1, gameId, seed, n + 2);
    ReadsThen(EMPTY, FRESH, h + [""] + [VersionText()], 0, o1, g1, [StartText(gameId, seed)], o2, g2);
    ReadsBlank(o2, g2, n + 3);
    ReadsThen(EMPTY, FRESH, h + [""] + [VersionText()] + [StartText(gameId, seed)], 0, o2, g2, [""], o2, g2);
    assert h + [""] + [VersionText()] + [StartText(gameId, seed)] + [""]
        == OpeningTexts(startedAt, endedAt, gameId, seed);
  }

  lemma PlaceTextEnds(player: Player, row: nat, col: nat, color: nat, changed: nat)
    requires row < 8
    ensures Trim(PlaceText(player, row, col, color, changed)) == PlaceText(player, row, col, color, changed)
  {
    hide Decimal, Digit;
    var s := PlaceText(player, row, col, color, changed);
    SmallDecimal(row);
    assert s[|s| - 1] == '換';
    assert s[0] == Digit(row);
    TrimUnspaced(s);
  }

  lemma PassTextEnds(player: Player)
    ensures Trim(PassText(player)) == PassText(player)
  {
    var s := PassText(player);
    assert s[|s| - 1] == 'ス';
    TrimUnspaced(s);
  }

  lemma WordIsPlayer(player: Player)
    requires player.Valid()
    ensures PlayerOfWord(PlayerWord(player)) == player
  {
  }

  lemma ReadsMove(o: Outline, g: Globals, m: Move, f: ScriptFrame, offset: nat)
    requires MoveError(m).None? && FitsRecord(m, f)
    ensures var e, n := f.event, |o.moveLines| + 1;
            Reads(o, g, [MoveText(m, e)], offset,
                  o.(moveLines := o.moveLines
                     + [if m.kind == PlaceType
                        then MoveLine(n, offset + 1, MoveText(m, e), true, PlacedColorOf(e), ChangedOf(e))
                        else MoveLine(n, offset + 1, MoveText(m, e), false, 0, 0)]),
                  g.(moves := g.moves + [m]))
  {
    hide Reads, ParseLine, NoteOf, PlaceText, PassText, PlayerWord, PlayerOfWord;
    WordIsPlayer(m.player);
    var e := f.event;
    if m.kind == PlaceType {
      var row, col, color, changed := m.row.value, m.col.value, PlacedColorOf(e), ChangedOf(e);
      PlaceReadsBack(m.player, row, col, color, changed);
      PlaceTextEnds(m.player, row, col, color, changed);
      NoteReadsBack(color, changed);
    } else {
      PassReadsBack(m.player);
      PassTextEnds(m.player);
    }
    ReadsOne(o, g, MoveText(m, e), offset);
  }

  lemma {:induction false} ReadsMoves(o: Outline, g: Globals, moves: seq<Move>, frames: seq<ScriptFrame>,
                                      offset: nat, n: nat)
    requires n <= |moves| && |frames| == |moves| + 1 && GoodMoves(moves) && o.moveLines == [] && g.moves == []
    requires forall i :: 1 <= i <= |moves| ==> FitsRecord(moves[i - 1], frames[i])
    ensures |MoveTexts(moves, frames, n)| == n == |MoveLines(moves, frames, offset, n)|
    ensures Reads(o, g, MoveTexts(moves, frames, n), offset,
                  o.(moveLines := MoveLines(moves, frames, offset, n)), g.(moves := moves[..n]))
  {
    hide Reads, MoveError, MoveText;
    if n == 0 {
      ReadsNothing(o, g, offset);
    } else {
      ReadsMoves(o, g, moves, frames, offset, n - 1);
      var o1 := o.(moveLines := MoveLines(moves, frames, offset, n - 1));
      var g1 := g.(moves := moves[..n - 1]);
      assert FitsRecord(moves[n - 1], frames[n]);
      assert MoveError(moves[n - 1]).None?;
      ReadsMove(o1, g1, moves[n - 1], frames[n], offset + n - 1);
      assert moves[..n] == moves[..n - 1] + [moves[n - 1]];
      ReadsThen(o, g, MoveTexts(moves, frames, n - 1), offset, o1, g1, [MoveText(moves[n - 1], frames[n].event)],
                o.(moveLines := MoveLines(moves, frames, offset, n)), g.(moves := moves[..n]));
    }
  }

  lemma EndTextEnds(winner: Player, moveCount: nat, colorSum: nat, pieceCount: nat)
    ensures Trim(EndText(winner, moveCount, colorSum, pieceCount)) == EndText(winner, moveCount, colorSum, pieceCount)
  {
    hide Decimal, IsDigit, IsSpace, PlayerWord;
    var s := EndText(winner, moveCount, colorSum, pieceCount);
    DecimalReadsBack(pieceCount);
    var digits := Decimal(pieceCount);
    assert s[|s| - 1] == digits[|digits| - 1];
    assert IsDigit(digits[|digits| - 1]);
    DigitIsNoSpace(s[|s| - 1]);
    assert s[0] == '「';
    QuoteIsNoSpace();
    TrimUnspaced(s);
  }

  lemma DigitIsNoSpace(c: char)
    requires IsDigit(c)
    ensures !IsSpace(c)
  {
  }

  lemma QuoteIsNoSpace()
    ensures !IsSpace('「')
  {
  }

  lemma ReadsClosing(o: Outline, g: Globals, s: State, moveCount: nat, offset: nat)
    requires StateTyped(s) && Settled(s)
    ensures Reads(o, g, ClosingOf(s, moveCount), offset,
                  if s.phase == Finished then o.(footerLines := o.footerLines + 1) else o,
                  if s.phase == Finished then g.(winner := s.winner, endCount := g.endCount + 1) else g)
  {
    hide Reads, EndText, ParseLine, PlayerWord, PlayerOfWord, ColorSum, PieceCount;
    if s.phase == Finished {
      var winner := s.winner.value;
      SumNotNegative(s.board);
      var end := EndText(winner, moveCount, ColorSum(s.board), PieceCount(s.board));
      ReadsBlank(o, g, offset);
      EndReadsBack(winner, moveCount, ColorSum(s.board), PieceCount(s.board));
      EndTextEnds(winner, moveCount, ColorSum(s.board), PieceCount(s.board));
      WordIsPlayer(winner);
      ReadsOne(o, g, end, offset + 1);
      ReadsThen(o, g, [""], offset, o, g, [end],
                o.(footerLines := o.footerLines + 1), g.(winner := s.winner, endCount := g.endCount + 1));
      assert [""] + [end] == ClosingOf(s, moveCount);
    } else {
      ReadsNothing(o, g, offset);
    }
  }

  lemma ReadsRecord(gameId: string, seed: int, moves: seq<Move>, frames: seq<ScriptFrame>,
                    startedAt: string, endedAt: string)
    requires Recorded(gameId, seed, moves, frames) && PatternFree(startedAt) && PatternFree(endedAt)
    ensures var final := frames[|moves|].state;
            var done := final.phase == Finished;
            Reads(EMPTY, FRESH, RecordTexts(gameId, seed, moves, frames, startedAt, endedAt) + [""], 0,
                  ExpectedOutline(gameId, seed, moves, frames, startedAt, endedAt),
                  Globals(RULES_VERSION, gameId, seed, if done then final.winner else None, moves, 1, 1,
                          if done then 1 else 0))
  {
    hide Reads, PatternFree, TrimRight, ValidGameId, OpeningTexts, MoveTexts, MoveLines, ClosingOf, FitsRecord,
         OpeningCount, StateTyped, Settled, Shaped, ReplayMoves, NewGame, MoveError;
    var n := OpeningCount(startedAt, endedAt);
    var final := frames[|moves|].state;
    var o1 := Outline([], TrimRight(startedAt), TrimRight(endedAt), RULES_VERSION, n - 2, 1, 1, 0);
    var g1 := Globals(RULES_VERSION, gameId, seed, None, [], 1, 1, 0);
    var opening := OpeningTexts(startedAt, endedAt, gameId, seed);
    ReadsOpening(startedAt, endedAt, gameId, seed);
    var texts := MoveTexts(moves, frames, |moves|);
    var o2, g2 := o1.(moveLines := MoveLines(moves, frames, n, |moves|)), g1.(moves := moves);
    ReadsMoves(o1, g1, moves, frames, n, |moves|);
    assert moves[..|moves|] == moves;
    ReadsThen(EMPTY, FRESH, opening, 0, o1, g1, texts, o2, g2);
    var closing := ClosingOf(final, |moves|);
    var done := final.phase == Finished;
    var o3 := if done then o2.(footerLines := 1) else o2;
    var g3 := if done then g2.(winner := final.winner, endCount := 1) else g2;
    ReadsClosing(o2, g2, final, |moves|, |opening + texts|);
    ReadsThen(EMPTY, FRESH, opening + texts, 0, o2, g2, closing, o3, g3);
    ReadsBlank(o3, g3, |opening + texts + closing|);
    ReadsThen(EMPTY, FRESH, opening + texts + closing, 0, o3, g3, [""], o3, g3);
  }

  // ----- no line of a record holds a newline -------------------------------------------

  lemma {:induction false} DecimalNoNewline(n: nat)
    ensures '\n' !in Decimal(n)
  {
    DecimalReadsBack(n);
  }

  lemma TimeNoNewline(t: string)
    requires PatternFree(t)
    ensures '\n' !in t
  {
    forall i | 0 <= i < |t|
      ensures t[i] != '\n'
    {
      assert NotPatternSpace(t[i]);
    }
  }

  lemma OpeningNoNewlines(startedAt: string, endedAt: string, gameId: string, seed: nat)
    requires PatternFree(startedAt) && PatternFree(endedAt) && ValidGameId(gameId)
    ensures NoNewlines(OpeningTexts(startedAt, endedAt, gameId, seed))
  {
    hide Decimal, PatternFree;
    DecimalNoNewline(seed);
    TimeNoNewline(startedAt);
    TimeNoNewline(endedAt);
    forall i | 0 <= i < |gameId|
      ensures gameId[i] != '\n'
    {
      assert IsIdChar(gameId[i]);
    }
  }

  lemma MoveNoNewline(m: Move, e: Option<Event>)
    requires MoveError(m).None? && (e.Some? ==> EventTyped(e.value))
    ensures '\n' !in MoveText(m, e)
  {
    hide Decimal, EventTyped;
    if m.kind == PlaceType {
      DecimalNoNewline(m.row.value);
      DecimalNoNewline(m.col.value);
      DecimalNoNewline(PlacedColorOf(e));
      DecimalNoNewline(ChangedOf(e));
    }
  }

  lemma {:induction false} MovesNoNewlines(moves: seq<Move>, frames: seq<ScriptFrame>, n: nat)
    requires n <= |moves| && |frames| == |moves| + 1 && GoodMoves(moves)
    requires forall i :: 1 <= i <= |moves| ==> FitsRecord(moves[i - 1], frames[i])
    ensures NoNewlines(MoveTexts(moves, frames, n))
  {
    hide MoveText, MoveError;
    if n > 0 {
      MovesNoNewlines(moves, frames, n - 1);
      assert FitsRecord(moves[n - 1], frames[n]);
      assert MoveError(moves[n - 1]).None?;
      MoveNoNewline(moves[n - 1], frames[n].event);
    }
  }

  lemma ClosingNoNewlines(s: State, moveCount: nat)
    requires StateTyped(s) && Settled(s)
    ensures NoNewlines(ClosingOf(s, moveCount))
  {
    hide Decimal, ColorSum, PieceCount;
    if s.phase == Finished {
      SumNotNegative(s.board);
      DecimalNoNewline(moveCount);
      DecimalNoNewline(ColorSum(s.board));
      DecimalNoNewline(PieceCount(s.board));
    }
  }

  lemma RecordNoNewlines(gameId: string, seed: int, moves: seq<Move>, frames: seq<ScriptFrame>,
                         startedAt: string, endedAt: string)
    requires Recorded(gameId, seed, moves, frames) && PatternFree(startedAt) && PatternFree(endedAt)
    ensures NoNewlines(RecordTexts(gameId, seed, moves, frames, startedAt, endedAt))
  {
    hide PatternFree, TrimRight, ValidGameId, OpeningTexts, MoveTexts, ClosingOf, FitsRecord, StateTyped, Settled,
         Shaped, ReplayMoves, NewGame, MoveError;
    OpeningNoNewlines(startedAt, endedAt, gameId, seed);
    MovesNoNewlines(moves, frames, |moves|);
    ClosingNoNewlines(frames[|moves|].state, |moves|);
  }

  // ----- the round trip ----------------------------------------------------------------

  lemma {:induction false} MoveLinesAt(moves: seq<Move>, frames: seq<ScriptFrame>, offset: nat, n: nat, i: nat)
    requires i < n <= |moves| && |frames| == |moves| + 1 && GoodMoves(moves)
    requires forall j :: 1 <= j <= |moves| ==> FitsRecord(moves[j - 1], frames[j])
    ensures |MoveLines(moves, frames, offset, n)| == n
    ensures var line, e := MoveLines(moves, frames, offset, n)[i], frames[i + 1].event;
            line.line == offset + i + 1
            && (line.annotated ==> line.color == PlacedColorOf(e) && line.changed == ChangedOf(e))
    decreases n
  {
    hide FitsRecord, MoveError, MoveText, PlacedColorOf, ChangedOf, EventTyped;
    if n > 1 {
      MoveLinesAt(moves, frames, offset, n - 1, if i < n - 1 then i else 0);
    }
  }

  /** The frames that the replayer builds from an expected script pass the strict comparison. */
  lemma {:induction false} FramesAreExpected(script: Script, o: Outline, gameId: string, seed: int,
                                             moves: seq<Move>, frames: seq<ScriptFrame>, opening: nat, n: nat)
    requires Recorded(gameId, seed, moves, frames) && n <= |moves|
    requires script.moves == moves && script.frames == frames
    requires o.moveLines == MoveLines(moves, frames, opening, |moves|)
    ensures var r := FramesUpTo(script, o, true, n);
            && r.Ok? && |r.value| == n + 1
            && r.value[0] == Frame(0, 0, 0, None, NewGame(gameId, seed), None)
            && forall i :: 1 <= i <= n ==> r.value[i] == ExpectedFrame(moves[i - 1], frames[i], opening + i)
  {
    hide ValidGameId, StateTyped, Settled, Shaped, ReplayMoves, NewGame, MoveError, MoveLines;
    if n > 0 {
      FramesAreExpected(script, o, gameId, seed, moves, frames, opening, n - 1);
      MoveLinesAt(moves, frames, opening, |moves|, n - 1);
      assert FitsRecord(moves[n - 1], frames[n]);
    }
  }

  lemma NoBadMove(moves: seq<Move>)
    requires GoodMoves(moves)
    ensures BadMove(moves, |moves|) == None
  {
    hide MoveError;
  }

  lemma RecordDecodes(gameId: string, seed: int, moves: seq<Move>, frames: seq<ScriptFrame>,
                      startedAt: string, endedAt: string)
    requires Recorded(gameId, seed, moves, frames) && PatternFree(startedAt) && PatternFree(endedAt)
    ensures Decode(Lines(RecordTexts(gameId, seed, moves, frames, startedAt, endedAt)))
         == Ok((ExpectedScript(gameId, seed, moves, frames, TrimRight(startedAt), TrimRight(endedAt)),
                ExpectedOutline(gameId, seed, moves, frames, startedAt, endedAt)))
  {
    hide PatternFree, TrimRight, ValidGameId, RecordTexts, StateTyped, Settled, Shaped, NewGame, ReplayUpTo, FitsRecord,
         ScanLines, LinesOf, Words, MoveLines, MoveError, OpeningCount, Lines, Split;
    var texts := RecordTexts(gameId, seed, moves, frames, startedAt, endedAt);
    RecordNoNewlines(gameId, seed, moves, frames, startedAt, endedAt);
    SplitLines(texts);
    ReadsRecord(gameId, seed, moves, frames, startedAt, endedAt);
    NoBadMove(moves);
  }

  /** A result that carries a recorded game, whatever the source it was read from. */
  ghost predicate Carries(r: Result, gameId: string, seed: int, moves: seq<Move>, frames: seq<ScriptFrame>,
                          startedAt: string, endedAt: string)
    requires Recorded(gameId, seed, moves, frames)
  {
    && r.script == ExpectedScript(gameId, seed, moves, frames, startedAt, endedAt)
    && |r.frames| == |moves| + 1
    && r.frames[0] == Frame(0, 0, 0, None, NewGame(gameId, seed), None)
    && forall i :: 1 <= i <= |moves| ==>
         r.frames[i] == ExpectedFrame(moves[i - 1], frames[i], r.frames[i].line)
  }

  /** The text of a record replays strictly to that record: the same id, seed, winner, moves and
      states, with every note confirmed and every move on its own line. The times come back
      without the white space that trimming takes off their ends. */
  lemma WrittenRecordReplays(gameId: string, seed: int, moves: seq<Move>, frames: seq<ScriptFrame>,
                             startedAt: string, endedAt: string)
    requires Recorded(gameId, seed, moves, frames) && PatternFree(startedAt) && PatternFree(endedAt)
    ensures var source := Lines(RecordTexts(gameId, seed, moves, frames, startedAt, endedAt));
            var r := ReplayWith(source, ReplayOptions(-1, frames[|moves|].state.phase == Finished, true));
            && r.Ok? && Carries(r.value, gameId, seed, moves, frames, TrimRight(startedAt), TrimRight(endedAt))
            && r.value.outline == ExpectedOutline(gameId, seed, moves, frames, startedAt, endedAt)
            && forall i :: 1 <= i <= |moves| ==> r.value.frames[i].line == OpeningCount(startedAt, endedAt) + i
  {
    hide PatternFree, TrimRight, ValidGameId, RecordTexts, StateTyped, Shaped, NewGame, ReplayUpTo, FitsRecord,
         MoveLines, MoveError, OpeningCount, Lines, Decode;
    RecordDecodes(gameId, seed, moves, frames, startedAt, endedAt);
    FramesAreExpected(ExpectedScript(gameId, seed, moves, frames, TrimRight(startedAt), TrimRight(endedAt)),
                      ExpectedOutline(gameId, seed, moves, frames, startedAt, endedAt),
                      gameId, seed, moves, frames, OpeningCount(startedAt, endedAt), |moves|);
  }

  /** The last line of a finished record tells its winner and, in its comment, how many moves were
      made, the sum of the colours on the board and the number of pieces there. */
  ghost predicate TellsTotals(text: string, winner: Player, moveCount: nat, b: Board) {
    var lines := Split(text);
    && |lines| >= 2 && lines[|lines| - 1] == ""
    && ParseLine(lines[|lines| - 2]) == EndLine(PlayerWord(winner))
    && TotalsOf(lines[|lines| - 2]) == Some((moveCount, ColorSum(b), PieceCount(b)))
  }

  lemma RecordTellsTotals(gameId: string, seed: int, moves: seq<Move>, frames: seq<ScriptFrame>,
                          startedAt: string, endedAt: string)
    requires Recorded(gameId, seed, moves, frames) && PatternFree(startedAt) && PatternFree(endedAt)
    requires frames[|moves|].state.phase == Finished
    ensures var final := frames[|moves|].state;
            && final.winner.Some?
            && TellsTotals(Lines(RecordTexts(gameId, seed, moves, frames, startedAt, endedAt)),
                           final.winner.value, |moves|, final.board)
  {
    hide PatternFree, ValidGameId, StateTyped, Shaped, NewGame, ReplayUpTo, FitsRecord, OpeningTexts, MoveTexts,
         MoveError, Lines, Split, ParseLine, TotalsOf, EndText, Colored;
    var texts := RecordTexts(gameId, seed, moves, frames, startedAt, endedAt);
    RecordNoNewlines(gameId, seed, moves, frames, startedAt, endedAt);
    SplitLines(texts);
    var final := frames[|moves|].state;
    ColoredFinal(final);
    SumNotNegative(final.board);
    EndReadsBack(final.winner.value, |moves|, ColorSum(final.board), PieceCount(final.board));
    TotalsReadBack(final.winner.value, |moves|, ColorSum(final.board), PieceCount(final.board));
  }

  lemma ColoredFinal(s: State)
    requires StateTyped(s)
    ensures Colored(s.board)
  {
  }

  lemma {:induction false} FrameTextsAre(r: Result, gameId: string, seed: int, moves: seq<Move>,
                                         frames: seq<ScriptFrame>, startedAt: string, endedAt: string, n: nat)
    requires Recorded(gameId, seed, moves, frames) && Carries(r, gameId, seed, moves, frames, startedAt, endedAt)
    requires n <= |moves| && forall f :: f in r.frames ==> FrameTyped(f)
    ensures FrameTexts(r.frames, n) == Some(MoveTexts(moves, frames, n))
  {
    hide ValidGameId, StateTyped, Settled, Shaped, NewGame, ReplayMoves, PlaceText, PassText, EventTyped;
    if n > 0 {
      FrameTextsAre(r, gameId, seed, moves, frames, startedAt, endedAt, n - 1);
      assert r.frames[n] in r.frames;
      assert MoveError(moves[n - 1]).None?;
      assert FitsRecord(moves[n - 1], frames[n]);
    }
  }

  lemma CarriedFramesTyped(r: Result, gameId: string, seed: int, moves: seq<Move>, frames: seq<ScriptFrame>,
                           startedAt: string, endedAt: string)
    requires Recorded(gameId, seed, moves, frames) && Carries(r, gameId, seed, moves, frames, startedAt, endedAt)
    ensures forall f :: f in r.frames ==> FrameTyped(f)
  {
    hide ValidGameId, StateTyped, Settled, Shaped, NewGame, ReplayMoves, EventTyped, MoveError;
    NewGameFits(gameId, seed);
    forall f | f in r.frames
      ensures FrameTyped(f)
    {
      var i :| 0 <= i < |r.frames| && r.frames[i] == f;
      if i > 0 {
        assert FitsRecord(moves[i - 1], frames[i]);
      }
    }
  }

  /** The encoder writes exactly the record's lines. */
  lemma CarriedEncodes(r: Result, gameId: string, seed: int, moves: seq<Move>, frames: seq<ScriptFrame>,
                       startedAt: string, endedAt: string)
    requires Recorded(gameId, seed, moves, frames) && Carries(r, gameId, seed, moves, frames, startedAt, endedAt)
    ensures forall f :: f in r.frames ==> FrameTyped(f)
    ensures Encode(r) == Some(Lines(RecordTexts(gameId, seed, moves, frames, startedAt, endedAt)))
  {
    hide ValidGameId, StateTyped, Shaped, NewGame, ReplayMoves, FrameTexts, MoveTexts, OpeningTexts, ClosingTexts,
         FitsRecord, MoveError, FrameTyped, Lines;
    CarriedFramesTyped(r, gameId, seed, moves, frames, startedAt, endedAt);
    FrameTextsAre(r, gameId, seed, moves, frames, startedAt, endedAt, |moves|);
    var opening, texts := OpeningTexts(startedAt, endedAt, gameId, seed), MoveTexts(moves, frames, |moves|);
    assert opening + texts + [] == opening + texts;
    if |moves| == 0 {
      assert frames[0].state == NewGame(gameId, seed);
    } else {
      assert r.frames[|moves|] == ExpectedFrame(moves[|moves| - 1], frames[|moves|], r.frames[|moves|].line);
    }
  }

  // ----- the theorems -------------------------------------------------------------------

  lemma AcceptedMoveIsGood(s: State, c: Command)
    requires Accepts(s, c)
    ensures MoveError(MoveFromCommand(c)).None?
  {
    hide LegalMoves, PlacedBoard, Rays, WinnerOf, ChangesOf, MoveHits;
  }

  lemma {:induction false} AcceptedMovesAreGood(s: State, cs: seq<Command>)
    requires AllAccepted(s, cs)
    ensures GoodMoves(MovesOf(cs))
  {
    hide Accepts, Run, MoveError, MoveFromCommand;
    if |cs| > 0 {
      var before, c := cs[..|cs| - 1], cs[|cs| - 1];
      AllAcceptedPrefix(s, cs);
      AcceptedMovesAreGood(s, before);
      AcceptedMoveIsGood(Run(s, before), c);
    }
  }

  /** A live game, recorded: whatever was accepted is a recorded game whose frames are the live
      states, one by one. */
  lemma LiveGameIsRecorded(gameId: string, seed: int, cs: seq<Command>)
    requires ValidGameId(gameId) && IsUint32(seed) && AllAccepted(NewGame(gameId, seed), cs)
    ensures var s, moves := NewGame(gameId, seed), MovesOf(cs);
            && |moves| == |cs| && (forall m :: m in moves ==> Shaped(m))
            && var frames := ReplayMoves(gameId, seed, moves).frames;
               && Recorded(gameId, seed, moves, frames)
               && ReplaysLive(gameId, seed, cs, ReplayMoves(gameId, seed, moves))
               && forall i :: 0 <= i <= |cs| ==> frames[i].state == Run(s, cs[..i])
  {
    hide ValidGameId, NewGame, Shaped, ReplayUpTo, Run, AllAccepted, GoodMoves, Recorded, MovesOf;
    AcceptedMovesAreGood(NewGame(gameId, seed), cs);
    ReplayRefinesLive(gameId, seed, cs);
    ReplayIsRecorded(gameId, seed, MovesOf(cs));
    var s, p := NewGame(gameId, seed), ReplayMoves(gameId, seed, MovesOf(cs));
    NoCommands(s, cs);
    forall i | 0 <= i <= |cs|
      ensures p.frames[i].state == Run(s, cs[..i])
    {
      if i > 0 {
        assert FrameIsLive(s, cs, p.frames[i], i);
      }
    }
  }

  lemma NoCommands(s: State, cs: seq<Command>)
    ensures Run(s, cs[..0]) == s
  {
  }

  lemma {:induction false} FramesUpToAre(script: Script, o: Outline, strict: bool, n: nat)
    requires n <= |script.moves| && |script.frames| == |script.moves| + 1
    requires FramesUpTo(script, o, strict, n).Ok?
    ensures var frames := FramesUpTo(script, o, strict, n).value;
            frames[0] == Frame(0, 0, 0, None, script.frames[0].state, None)
            && forall i :: 1 <= i <= n ==> frames[i] == FrameOf(script, o, i - 1)
  {
    hide FrameOf, AnnotationError;
    if n > 0 {
      FramesUpToAre(script, o, strict, n - 1);
    }
  }

  lemma TimeIsPatternFree(keyword: string, s: string)
    ensures TimeOf(keyword, s).Some? ==> PatternFree(TimeOf(keyword, s).value)
  {
    match StripPrefix(keyword, s[Leading(s, IsPatternSpace)..]) {
      case None =>
      case Some(rest) =>
        var from := rest[Leading(rest, IsPatternSpace)..];
        LeadingIs(from, NotPatternSpace);
    }
  }

  lemma {:induction false} ScannedTimesArePatternFree(raws: seq<string>)
    requires ScanLines(EMPTY, raws, 0).ScanOk?
    ensures var o := ScanLines(EMPTY, raws, 0).outline;
            PatternFree(o.startedAt) && PatternFree(o.endedAt)
  {
    hide Trim, TimeOf, PatternFree, MoveLineOf;
    if |raws| == 0 {
      EmptyIsPatternFree();
    } else {
      ScannedTimesArePatternFree(raws[..|raws| - 1]);
      var line := ParseLine(Trim(raws[|raws| - 1]));
      if line.CommentLine? {
        TimeIsPatternFree("開始", line.text);
        TimeIsPatternFree("終了", line.text);
      }
    }
  }

  lemma EmptyIsPatternFree()
    ensures PatternFree("")
  {
  }

  lemma DecodedFacts(source: string)
    requires Decode(source).Ok?
    ensures var (script, o) := Decode(source).value;
            && ValidGameId(script.gameId) && IsUint32(script.seed) && GoodMoves(script.moves)
            && (forall m :: m in script.moves ==> Shaped(m))
            && PatternFree(script.startedAt) && PatternFree(script.endedAt)
            && script.version == "1" && script.rulesVersion == RULES_VERSION
            && script.versionCount == 1 && script.headerCount == 1
            && var p := ReplayMoves(script.gameId, script.seed, script.moves);
               script.failure == p.failure && script.frames == p.frames
  {
    hide ValidGameId, Split, ScanLines, Words, LinesOf, ReplayUpTo, MoveError, PatternFree, Tracks;
    ScannedTimesArePatternFree(Split(source));
    LineBookkeeping(source);
    var (script, o) := Decode(source).value;
    assert BadMove(script.moves, |script.moves|) == None;
  }

  /** Every accepted finished record, in any hand's writing, carries a recorded game. */
  lemma AcceptedRecordCarries(source: string)
    requires Replay(source).Ok?
    ensures var r := Replay(source).value;
            var frames := r.script.frames;
            && Recorded(r.script.gameId, r.script.seed, r.script.moves, frames)
            && frames[|r.script.moves|].state == FinalState(r) && FinalState(r).phase == Finished
            && Carries(r, r.script.gameId, r.script.seed, r.script.moves, frames,
                       r.script.startedAt, r.script.endedAt)
            && PatternFree(r.script.startedAt) && PatternFree(r.script.endedAt)
  {
    hide ValidGameId, Decode, ReplayUpTo, MoveError, PatternFree, FrameOf, FitsRecord, FramesUpTo, NewGame,
         Shaped, StateTyped, Settled;
    var r := Replay(source).value;
    DecodedFacts(source);
    var (script, o) := Decode(source).value;
    ReplayIsRecorded(script.gameId, script.seed, script.moves);
    FramesUpToAre(script, o, true, |script.moves|);
    FramesCarry(r, o);
  }

  lemma FramesCarry(r: Result, o: Outline)
    requires Recorded(r.script.gameId, r.script.seed, r.script.moves, r.script.frames)
    requires |r.frames| == |r.script.moves| + 1
    requires r.frames[0] == Frame(0, 0, 0, None, r.script.frames[0].state, None)
    requires forall i :: 1 <= i <= |r.script.moves| ==> r.frames[i] == FrameOf(r.script, o, i - 1)
    ensures r.frames[0] == Frame(0, 0, 0, None, NewGame(r.script.gameId, r.script.seed), None)
    ensures forall i :: 1 <= i <= |r.script.moves| ==>
              r.frames[i] == ExpectedFrame(r.script.moves[i - 1], r.script.frames[i], r.frames[i].line)
    ensures FinalState(r) == r.script.frames[|r.script.moves|].state
  {
    hide NewGame, ReplayMoves, ValidGameId;
  }

  /** Two results that differ at most in where their moves stand in their sources. */
  ghost predicate SameGame(a: Result, b: Result) {
    && a.script == b.script && |a.frames| == |b.frames|
    && forall i :: 0 <= i < |a.frames| ==> a.frames[i].(line := 0) == b.frames[i].(line := 0)
  }

  lemma CarriesSame(a: Result, b: Result, gameId: string, seed: int, moves: seq<Move>, frames: seq<ScriptFrame>,
                    startedAt: string, endedAt: string)
    requires Recorded(gameId, seed, moves, frames)
    requires Carries(a, gameId, seed, moves, frames, startedAt, endedAt)
    requires Carries(b, gameId, seed, moves, frames, startedAt, endedAt)
    ensures SameGame(a, b)
  {
    hide NewGame, Recorded, ReplayMoves, ExpectedScript;
    RecordedShape(gameId, seed, moves, frames);
    forall i | 0 <= i < |a.frames|
      ensures a.frames[i].(line := 0) == b.frames[i].(line := 0)
    {
      if i > 0 {
        assert a.frames[i] == ExpectedFrame(moves[i - 1], frames[i], a.frames[i].line);
        assert b.frames[i] == ExpectedFrame(moves[i - 1], frames[i], b.frames[i].line);
      }
    }
  }

  /** Re-encoding any accepted record gives text that the strict replay accepts again. It is the
      same game, times included, if and only if neither time ends in white space that trimming a
      line removes; otherwise only the times differ, by that white space. */
  lemma ReencodedRecordReplays(source: string)
    requires Replay(source).Ok?
    ensures var r := Replay(source).value;
            && (forall f :: f in r.frames ==> FrameTyped(f))
            && Encode(r).Some? && Replay(Encode(r).value).Ok?
            && var again := Replay(Encode(r).value).value;
               && again.script == r.script.(startedAt := TrimRight(r.script.startedAt),
                                            endedAt := TrimRight(r.script.endedAt))
               && FinalState(again) == FinalState(r)
               && (SameGame(again, r) <==> KeepsItsEnd(r.script.startedAt) && KeepsItsEnd(r.script.endedAt))
  {
    hide Recorded, RecordTexts, Lines, FrameTyped, PatternFree, TrimRight, Decode, ExpectedOutline, FramesUpTo;
    var r := Replay(source).value;
    AcceptedRecordCarries(source);
    var id, seed, moves, frames := r.script.gameId, r.script.seed, r.script.moves, r.script.frames;
    RecordedShape(id, seed, moves, frames);
    CarriedEncodes(r, id, seed, moves, frames, r.script.startedAt, r.script.endedAt);
    WrittenRecordReplays(id, seed, moves, frames, r.script.startedAt, r.script.endedAt);
    var again := Replay(Encode(r).value).value;
    KeepsIff(r.script.startedAt);
    KeepsIff(r.script.endedAt);
    LastFrameCarried(again, id, seed, moves, frames, TrimRight(r.script.startedAt), TrimRight(r.script.endedAt));
    if KeepsItsEnd(r.script.startedAt) && KeepsItsEnd(r.script.endedAt) {
      CarriesSame(again, r, id, seed, moves, frames, r.script.startedAt, r.script.endedAt);
    }
  }

  predicate KeepsItsEnd(t: string) {
    t != "" ==> !IsSpace(t[|t| - 1])
  }

  lemma KeepsIff(t: string)
    ensures KeepsItsEnd(t) <==> TrimRight(t) == t
  {
    TrimRightEnds(t);
  }

  lemma RecordedShape(gameId: string, seed: int, moves: seq<Move>, frames: seq<ScriptFrame>)
    requires Recorded(gameId, seed, moves, frames)
    ensures |frames| == |moves| + 1
  {
  }

  lemma LastFrameCarried(r: Result, gameId: string, seed: int, moves: seq<Move>, frames: seq<ScriptFrame>,
                         startedAt: string, endedAt: string)
    requires Recorded(gameId, seed, moves, frames) && Carries(r, gameId, seed, moves, frames, startedAt, endedAt)
    ensures FinalState(r) == frames[|moves|].state
  {
    hide NewGame, ReplayMoves, ValidGameId, FitsRecord;
    if |moves| > 0 {
      assert r.frames[|moves|] == ExpectedFrame(moves[|moves| - 1], frames[|moves|], r.frames[|moves|].line);
    }
  }
}
