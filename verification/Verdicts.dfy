/** What is wrong with a record: when a source decodes and when it replays strictly, which code it is
    refused with otherwise, and on which of its lines (decode.go and replay.go under
    server/internal/replay). */
module Verdicts {
  import opened Options
  import opened Protocol
  import opened Rules
  import opened Text
  import opened Grammar
  import opened Harness
  import opened Record
  import opened RoundTrip

  // ----- the form of a source ---------------------------------------------------------

  function LineOf(raws: seq<string>, k: nat): Line
    requires 1 <= k <= |raws|
  {
    ParseLine(Trim(raws[k - 1]))
  }

  /** The first line that says nothing. */
  predicate FirstBad(raws: seq<string>, k: nat) {
    1 <= k <= |raws| && LineOf(raws, k).BadLine? && forall j :: 1 <= j < k ==> !LineOf(raws, j).BadLine?
  }

  lemma {:induction false} ScanStopsAtFirstBad(raws: seq<string>)
    ensures match ScanLines(EMPTY, raws, 0)
            case ScanError(line, text) => FirstBad(raws, line) && text == Trim(raws[line - 1])
            case ScanOk(_) => forall k :: 1 <= k <= |raws| ==> !LineOf(raws, k).BadLine?
  {
    hide Trim, ParseLine, AddLine;
    if |raws| > 0 {
      var before := raws[..|raws| - 1];
      ScanStopsAtFirstBad(before);
      forall k | 1 <= k <= |before|
        ensures LineOf(before, k) == LineOf(raws, k)
      {
      }
    }
  }

  predicate IsStart(line: Line) {
    line.StartLine?
  }

  predicate IsEnd(line: Line) {
    line.EndLine?
  }

  predicate IsVersion(line: Line) {
    line.VersionLine?
  }

  function HowMany(raws: seq<string>, kind: Line -> bool): nat {
    if |raws| == 0 then 0
    else HowMany(raws[..|raws| - 1], kind) + if kind(ParseLine(Trim(raws[|raws| - 1]))) then 1 else 0
  }

  lemma {:induction false} ScanCounts(raws: seq<string>)
    requires ScanLines(EMPTY, raws, 0).ScanOk?
    ensures var o := ScanLines(EMPTY, raws, 0).outline;
            && o.headerLines == HowMany(raws, IsStart) && o.footerLines == HowMany(raws, IsEnd)
            && o.rulesVersionLines == HowMany(raws, IsVersion)
  {
    hide Trim, ParseLine, TimeOf, MoveLineOf;
    if |raws| > 0 {
      ScanCounts(raws[..|raws| - 1]);
    }
  }

  /** The version is that of the first version line, and the harness has the same if it is the only one. */
  lemma {:induction false} ScannedVersion(raws: seq<string>)
    requires ScanLines(EMPTY, raws, 0).ScanOk?
    ensures var o := ScanLines(EMPTY, raws, 0).outline;
            && (o.rulesVersionLines == 0 <==> o.rulesVersionLine == 0)
            && (o.rulesVersionLine > 0 ==>
                  && o.rulesVersionLine <= |raws|
                  && LineOf(raws, o.rulesVersionLine) == VersionLine(o.rulesVersion))
            && (o.rulesVersionLines == 1 ==> Words(FRESH, LinesOf(raws)).rulesVersion == o.rulesVersion)
  {
    hide Trim, ParseLine, TimeOf, MoveLineOf;
    if |raws| > 0 {
      var before := raws[..|raws| - 1];
      ScannedVersion(before);
      LinesOneMore(raws);
      var o := ScanLines(EMPTY, before, 0).outline;
      assert o.rulesVersionLine > 0 ==> LineOf(raws, o.rulesVersionLine) == LineOf(before, o.rulesVersionLine);
    }
  }

  lemma LinesOneMore(raws: seq<string>)
    requires |raws| > 0
    ensures var before := raws[..|raws| - 1];
            Words(FRESH, LinesOf(raws)) == Word(Words(FRESH, LinesOf(before)), ParseLine(Trim(raws[|raws| - 1])))
  {
    hide Trim, ParseLine, Word;
    var lines := LinesOf(raws);
    assert lines[..|lines| - 1] == LinesOf(raws[..|raws| - 1]);
  }

  /** The id and the seed are those of the last start line. */
  ghost predicate SomeStart(raws: seq<string>, gameId: string, seed: nat) {
    exists k: nat :: 1 <= k <= |raws| && LineOf(raws, k) == StartLine(gameId, seed)
  }

  lemma {:induction false} HarnessStart(raws: seq<string>)
    ensures var g := Words(FRESH, LinesOf(raws));
            g.startCount > 0 ==> SomeStart(raws, g.gameId, g.seed)
  {
    hide Trim, ParseLine;
    if |raws| > 0 {
      var before := raws[..|raws| - 1];
      HarnessStart(before);
      LinesOneMore(raws);
      var g, h := Words(FRESH, LinesOf(before)), Words(FRESH, LinesOf(raws));
      if g.startCount > 0 {
        var k: nat :| 1 <= k <= |before| && LineOf(before, k) == StartLine(g.gameId, g.seed);
        assert LineOf(raws, k) == LineOf(before, k);
      }
      assert LineOf(raws, |raws|) == ParseLine(Trim(raws[|raws| - 1]));
    }
  }

  lemma OtherLines(s: string)
    ensures ParseVersion(s).Some? ==> !ParseVersion(s).value.PlaceLine?
    ensures ParseStart(s).Some? ==> !ParseStart(s).value.PlaceLine?
    ensures ParseEnd(s).Some? ==> !ParseEnd(s).value.PlaceLine?
    ensures ParsePass(s).Some? ==> !ParsePass(s).value.PlaceLine?
  {
    hide Leading, StripPrefix, Tail, LiteralTail, TurnWord, Quoted, Digits, DigitsValue;
  }

  /** A line can only place a piece on the board. */
  lemma ParsedPlace(s: string)
    ensures ParseLine(s).PlaceLine? ==> InBounds(ParseLine(s).row, ParseLine(s).col)
  {
    hide Leading, StripPrefix, Tail, LiteralTail, TurnWord, Quoted, Digits, DigitsValue;
    OtherLines(s);
  }

  /** So the harness never holds a malformed move, whatever it has read. */
  lemma {:induction false} HarnessMovesAreGood(raws: seq<string>)
    ensures GoodMoves(Words(FRESH, LinesOf(raws)).moves)
  {
    hide Trim, ParseLine;
    if |raws| > 0 {
      HarnessMovesAreGood(raws[..|raws| - 1]);
      LinesOneMore(raws);
      ParsedPlace(Trim(raws[|raws| - 1]));
    }
  }

  /** What is wrong with the form of a source without bad lines, from the first that applies. */
  function FormError(starts: nat, ends: nat, versions: nat, version: string, seed: nat, gameId: string):
    Option<RecordCode>
  {
    if starts != 1 then Some(RecordMissingHeader)
    else if ends > 1 then Some(RecordSyntaxError)
    else if versions != 1 then Some(RecordMissingHeader)
    else if version != RULES_VERSION then Some(RecordUnsupportedRulesVersion)
    else if !IsUint32(seed) then Some(RecordSyntaxError)
    else if !ValidGameId(gameId) then Some(RecordMissingHeader)
    else None
  }

  predicate DecodesTo(script: Script, g: Globals) {
    && script.gameId == g.gameId && script.seed == g.seed && script.moves == g.moves && script.winner == g.winner
  }

  /** Every source: a line that says nothing is a syntax error on the first such line; otherwise the
      source decodes iff nothing is wrong with its form, and if something is, the code says what.
      What decodes is what the harness read. */
  lemma DecodeVerdict(source: string)
    ensures var raws, g := Split(source), RunHarness(source);
            if exists k :: FirstBad(raws, k) then
              Decode(source).Err? && Decode(source).error.code == RecordSyntaxError
              && FirstBad(raws, Decode(source).error.line)
              && Decode(source).error.source == LineAt(source, Decode(source).error.line)
            else
              var error := FormError(HowMany(raws, IsStart), HowMany(raws, IsEnd), HowMany(raws, IsVersion),
                                     g.rulesVersion, g.seed, g.gameId);
              if error.Some? then
                Decode(source).Err? && Decode(source).error.code == error.value
                && Decode(source).error.source == LineAt(source, Decode(source).error.line)
                && (error.value == RecordUnsupportedRulesVersion ==>
                      ParseLine(Decode(source).error.source) == VersionLine(g.rulesVersion))
              else
                Decode(source).Ok? && DecodesTo(Decode(source).value.0, g) && SomeStart(raws, g.gameId, g.seed)
  {
    hide Trim, ParseLine, Split, ScanLines, LinesOf, Words, HowMany, ValidGameId, ReplayUpTo, FirstBad, MoveError;
    var raws := Split(source);
    ScanStopsAtFirstBad(raws);
    if Scan(source).ScanOk? {
      NoneIsBad(raws);
      ScanCounts(raws);
      LineBookkeeping(source);
      ScannedVersion(raws);
      HarnessStart(raws);
      HarnessMovesAreGood(raws);
      NoBadMove(RunHarness(source).moves);
    } else {
      FirstIsInside(raws, Scan(source).line);
    }
  }

  lemma NoneIsBad(raws: seq<string>)
    requires forall k :: 1 <= k <= |raws| ==> !LineOf(raws, k).BadLine?
    ensures forall k :: !FirstBad(raws, k)
  {
    hide Trim, ParseLine;
  }

  lemma FirstIsInside(raws: seq<string>, k: nat)
    requires FirstBad(raws, k)
    ensures 1 <= k <= |raws|
  {
    hide Trim, ParseLine;
  }

  // ----- a move that the engine refuses -----------------------------------------------

  /** A failed replay stopped at a move that the engine refuses, with this code, in the state that the
      moves before it lead to. */
  lemma {:induction false} FailureIsRefusal(gameId: string, seed: int, moves: seq<Move>, n: nat)
    requires n <= |moves| && (forall m :: m in moves ==> Shaped(m))
    requires ReplayUpTo(gameId, seed, moves, n).failure.Some?
    ensures var p := ReplayUpTo(gameId, seed, moves, n);
            var f := p.failure.value;
            && 1 <= f.moveNumber <= n
            && var q := ReplayUpTo(gameId, seed, moves, f.moveNumber - 1);
               && q.failure.None? && p == q.(failure := Some(f))
               && !ApplyMove(q.state, moves[f.moveNumber - 1]).ok
               && ApplyMove(q.state, moves[f.moveNumber - 1]).error == Some(f.code)
  {
    hide NewGame, ApplyMove;
    if n > 0 && ReplayUpTo(gameId, seed, moves, n - 1).failure.Some? {
      FailureIsRefusal(gameId, seed, moves, n - 1);
    } else if n > 0 {
      ApplyMoveKeepsShape(ReplayUpTo(gameId, seed, moves, n - 1).state, moves[n - 1]);
    }
  }

  /** The error of a refused move: its number, the engine's code, and the very line of the source that
      says the move, whatever the options of the replay. */
  ghost predicate ReportsRefusal(source: string, script: Script, e: SourceError) {
    && e.code == RecordIllegalMove && 1 <= e.moveNumber <= |script.moves|
    && (forall m :: m in script.moves ==> Shaped(m))
    && var move, q := script.moves[e.moveNumber - 1],
                      ReplayUpTo(script.gameId, script.seed, script.moves, e.moveNumber - 1);
       && q.failure.None? && !ApplyMove(q.state, move).ok && ApplyMove(q.state, move).error == e.ruleCode
       && 1 <= e.line <= |Split(source)| && e.source == LineAt(source, e.line)
       && MoveOfLine(ParseLine(e.source)) == Some(move)
  }

  lemma IllegalMoveIsLocated(source: string, options: ReplayOptions)
    requires Decode(source).Ok? && Decode(source).value.0.failure.Some?
    ensures var r := ReplayWith(source, options);
            r.Err? && ReportsRefusal(source, Decode(source).value.0, r.error)
  {
    hide Split, ScanLines, LinesOf, Words, ReplayUpTo, Decode, MoveError, ApplyMove, Trim, ParseLine, ValidGameId,
         PatternFree, MoveOfLine;
    var (script, o) := Decode(source).value;
    DecodedFacts(source);
    DecodedMoves(source);
    FailureIsRefusal(script.gameId, script.seed, script.moves, |script.moves|);
  }

  /** Each move of a decoded script stands on its own line. */
  lemma DecodedMoves(source: string)
    requires Decode(source).Ok?
    ensures var (script, o) := Decode(source).value;
            && Scan(source) == ScanOk(o) && |o.moveLines| == |script.moves|
            && script.moves == RunHarness(source).moves
            && forall i :: 0 <= i < |o.moveLines| ==>
                 var m := o.moveLines[i];
                 && 1 <= m.line <= |Split(source)| && m.text == LineAt(source, m.line)
                 && MoveOfLine(ParseLine(m.text)) == Some(script.moves[i])
  {
    hide Split, ScanLines, LinesOf, Words, ReplayUpTo, MoveError, Trim, ParseLine, ValidGameId, MoveOfLine;
    LineBookkeeping(source);
    var o := Scan(source).outline;
    forall i | 0 <= i < |o.moveLines|
      ensures 1 <= o.moveLines[i].line <= |Split(source)|
    {
      MoveLineIsParsed(source, i);
    }
  }

  lemma MoveLineIsParsed(source: string, i: nat)
    requires Scan(source).ScanOk? && i < |Scan(source).outline.moveLines|
    ensures 1 <= Scan(source).outline.moveLines[i].line <= |Split(source)|
  {
    hide Split, ScanLines, LinesOf, Words, Trim, ParseLine, MoveOfLine;
    ScanTracks(Split(source));
    var o, g := Scan(source).outline, RunHarness(source);
    assert TracksMove(o.moveLines[i], i, g.moves[i], Split(source));
  }

  // ----- the strict replay ------------------------------------------------------------

  /** The note of a placement's line, when it has one that can be read. */
  function NoteIn(line: Line): Option<(int, int)> {
    if line.PlaceLine? then NoteOf(line.note) else None
  }

  predicate HoldsItsNote(m: MoveLine) {
    match NoteIn(ParseLine(m.text))
    case Some((color, changed)) => m.annotated && m.color == color && m.changed == changed
    case None => !m.annotated
  }

  lemma {:induction false} NotesAreRead(raws: seq<string>)
    requires ScanLines(EMPTY, raws, 0).ScanOk?
    ensures forall m :: m in ScanLines(EMPTY, raws, 0).outline.moveLines ==> HoldsItsNote(m)
  {
    hide Trim, ParseLine, TimeOf, NoteOf;
    if |raws| > 0 {
      NotesAreRead(raws[..|raws| - 1]);
    }
  }

  /** The note of a line and the event of its move tell different things. */
  predicate Disagrees(line: Line, e: Option<Event>) {
    NoteIn(line).Some? && e.Some?
    && NoteIn(line).value != (if e.value.placedColor.Some? then e.value.placedColor.value else 0, |e.value.changes|)
  }

  /** The i-th move is the first whose note disagrees with the event that the harness reports. */
  predicate FirstDisagreement(script: Script, o: Outline, i: nat)
    requires |script.frames| == |script.moves| + 1 && |o.moveLines| == |script.moves|
  {
    i < |script.moves| && Disagrees(ParseLine(o.moveLines[i].text), script.frames[i + 1].event)
    && forall j :: 0 <= j < i ==> !Disagrees(ParseLine(o.moveLines[j].text), script.frames[j + 1].event)
  }

  lemma AnnotationErrorIs(script: Script, o: Outline, i: nat)
    requires |script.frames| == |script.moves| + 1 && |o.moveLines| == |script.moves| && i < |script.moves|
    requires HoldsItsNote(o.moveLines[i])
    ensures var m := o.moveLines[i];
            AnnotationError(o, i, FrameOf(script, o, i))
            == if Disagrees(ParseLine(m.text), script.frames[i + 1].event)
               then Some(SourceError(RecordMismatch, m.line, m.text, i + 1, None)) else None
  {
    hide ParseLine, NoteOf;
  }

  lemma {:induction false} StrictFrames(script: Script, o: Outline, n: nat)
    requires |script.frames| == |script.moves| + 1 && |o.moveLines| == |script.moves| && n <= |script.moves|
    requires forall m :: m in o.moveLines ==> HoldsItsNote(m)
    ensures match FramesUpTo(script, o, true, n)
            case Ok(frames) =>
              forall i :: 0 <= i < n ==> !Disagrees(ParseLine(o.moveLines[i].text), script.frames[i + 1].event)
            case Err(e) =>
              && 1 <= e.moveNumber <= n && FirstDisagreement(script, o, e.moveNumber - 1)
              && e == SourceError(RecordMismatch, o.moveLines[e.moveNumber - 1].line,
                                  o.moveLines[e.moveNumber - 1].text, e.moveNumber, None)
  {
    hide ParseLine, NoteOf, FrameOf, AnnotationError, HoldsItsNote, Disagrees;
    if n > 0 {
      StrictFrames(script, o, n - 1);
      assert o.moveLines[n - 1] in o.moveLines;
      AnnotationErrorIs(script, o, n - 1);
    }
  }

  /** Every source that decodes and whose moves the engine accepts: a note that disagrees with the
      replay is a mismatch on its own line, the first such; without one, a record without its end
      line or of a game that is not over is unfinished, another winner than the board's is a mismatch, and
      everything else is accepted. */
  lemma StrictVerdict(source: string)
    requires Decode(source).Ok? && Decode(source).value.0.failure.None?
    ensures var (script, o) := Decode(source).value;
            && |script.frames| == |script.moves| + 1 && |o.moveLines| == |script.moves|
            && var last := script.frames[|script.moves|].state;
               if exists i :: FirstDisagreement(script, o, i) then
                 && Replay(source).Err?
                 && var e := Replay(source).error;
                    && e.code == RecordMismatch && 1 <= e.moveNumber <= |script.moves|
                    && FirstDisagreement(script, o, e.moveNumber - 1)
                    && e.line == o.moveLines[e.moveNumber - 1].line && e.source == LineAt(source, e.line)
               else if script.footerCount != 1 || last.phase != Finished then
                 Replay(source).Err? && Replay(source).error.code == RecordUnfinished
               else if last.winner.None? || last.winner != script.winner then
                 Replay(source).Err? && Replay(source).error.code == RecordMismatch && Replay(source).error.line == 0
               else Replay(source).Ok?
  {
    hide Split, ScanLines, LinesOf, Words, ReplayUpTo, Decode, MoveError, ApplyMove, Trim, ParseLine, ValidGameId,
         PatternFree, MoveOfLine, HoldsItsNote, Disagrees, FramesUpTo;
    var (script, o) := Decode(source).value;
    DecodedFacts(source);
    DecodedMoves(source);
    HarnessFrames(script.gameId, script.seed, script.moves, |script.moves|);
    NotesAreRead(Split(source));
    StrictFrames(script, o, |script.moves|);
    if FramesUpTo(script, o, true, |script.moves|).Ok? {
      FramesUpToAre(script, o, true, |script.moves|);
      LastFrameIs(script, o, FramesUpTo(script, o, true, |script.moves|).value);
    }
  }

  lemma {:induction false} HarnessFrames(gameId: string, seed: int, moves: seq<Move>, n: nat)
    requires n <= |moves| && (forall m :: m in moves ==> Shaped(m))
    ensures var p := ReplayUpTo(gameId, seed, moves, n);
            p.failure.None? ==> |p.frames| == n + 1
  {
    hide NewGame, ApplyMove;
    if n > 0 {
      HarnessFrames(gameId, seed, moves, n - 1);
    }
  }

  lemma LastFrameIs(script: Script, o: Outline, frames: seq<Frame>)
    requires |script.frames| == |script.moves| + 1 && |frames| == |script.moves| + 1
    requires frames[0] == Frame(0, 0, 0, None, script.frames[0].state, None)
    requires forall i :: 1 <= i <= |script.moves| ==> frames[i] == FrameOf(script, o, i - 1)
    ensures frames[|script.moves|].state == script.frames[|script.moves|].state
  {
  }

  /** Without the strict comparison the notes do not matter. */
  lemma {:induction false} LaxFrames(script: Script, o: Outline, n: nat)
    requires |script.frames| == |script.moves| + 1 && n <= |script.moves|
    ensures FramesUpTo(script, o, false, n).Ok?
  {
    hide FrameOf, AnnotationError;
    if n > 0 {
      LaxFrames(script, o, n - 1);
    }
  }

  lemma {:induction false} FramesPrefix(script: Script, o: Outline, strict: bool, n: nat, later: nat)
    requires |script.frames| == |script.moves| + 1 && n <= later <= |script.moves|
    requires FramesUpTo(script, o, strict, later).Ok?
    ensures FramesUpTo(script, o, strict, n).Ok?
    ensures FramesUpTo(script, o, strict, n).value == FramesUpTo(script, o, strict, later).value[..n + 1]
    decreases later
  {
    hide FrameOf, AnnotationError;
    if n < later {
      FramesPrefix(script, o, strict, n, later - 1);
    }
  }

  /** A replay that need be neither strict nor finished accepts exactly the sources that decode and
      whose moves the engine accepts; and a replay up to some move shows the first frames of the whole
      one, all of them when the number is negative or too large. */
  lemma PartialReplays(source: string, until: int)
    ensures var whole := ReplayWith(source, ReplayOptions(-1, false, false));
            && (whole.Ok? <==> Decode(source).Ok? && Decode(source).value.0.failure.None?)
            && (whole.Ok? ==>
                  var n := |whole.value.script.moves|;
                  var part := ReplayWith(source, ReplayOptions(until, false, false));
                  && |whole.value.frames| == n + 1 && part.Ok? && part.value.script == whole.value.script
                  && part.value.frames == whole.value.frames[..(if 0 <= until < n then until else n) + 1])
  {
    hide Decode, FramesUpTo, ReplayUpTo, ValidGameId, GoodMoves, PatternFree, Shaped, IllegalMoveError;
    if Decode(source).Ok? && Decode(source).value.0.failure.None? {
      var (script, o) := Decode(source).value;
      DecodedFacts(source);
      HarnessFrames(script.gameId, script.seed, script.moves, |script.moves|);
      var n := |script.moves|;
      LaxFrames(script, o, n);
      var all := FramesUpTo(script, o, false, n).value;
      assert all[..n + 1] == all;
      FramesPrefix(script, o, false, if 0 <= until < n then until else n, n);
    }
  }
}
