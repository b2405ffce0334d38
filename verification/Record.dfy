/** Scanning, replaying and writing game records: decode.go, replay.go and encode.go under
    server/internal/replay. */
module Record {
  import opened Options
  import opened Protocol
  import opened Rules
  import opened Games
  import opened Contract
  import opened Text
  import opened Grammar
  import opened Harness

  // ----- scanning ---------------------------------------------------------------------

  datatype MoveLine = MoveLine(number: nat, line: nat, text: string, annotated: bool, color: int, changed: int)

  datatype Outline = Outline(
    moveLines: seq<MoveLine>, startedAt: string, endedAt: string, rulesVersion: string,
    rulesVersionLine: nat, rulesVersionLines: nat, headerLines: nat, footerLines: nat)

  const EMPTY := Outline([], "", "", "", 0, 0, 0, 0)

  datatype Scanned = ScanOk(outline: Outline) | ScanError(line: nat, source: string)

  function MoveLineOf(number: nat, lineNumber: nat, text: string, note: string): MoveLine {
    match NoteOf(note)
    case Some((color, changed)) => MoveLine(number, lineNumber, text, true, color, changed)
    case None => MoveLine(number, lineNumber, text, false, 0, 0)
  }

  /** What one good line adds to the outline. */
  function AddLine(o: Outline, line: Line, lineNumber: nat, text: string): Outline {
    match line
    case CommentLine(comment) =>
      var started, ended := TimeOf("開始", comment), TimeOf("終了", comment);
      o.(startedAt := if started.Some? && o.startedAt == "" then started.value else o.startedAt,
         endedAt := if ended.Some? && o.endedAt == "" then ended.value else o.endedAt)
    case VersionLine(v) =>
      if o.rulesVersionLine == 0
      then o.(rulesVersionLines := o.rulesVersionLines + 1, rulesVersionLine := lineNumber, rulesVersion := v)
      else o.(rulesVersionLines := o.rulesVersionLines + 1)
    case StartLine(_, _) => o.(headerLines := o.headerLines + 1)
    case EndLine(_) => o.(footerLines := o.footerLines + 1)
    case PassLine(_) => o.(moveLines := o.moveLines + [MoveLine(|o.moveLines| + 1, lineNumber, text, false, 0, 0)])
    case PlaceLine(_, _, _, note) =>
      o.(moveLines := o.moveLines + [MoveLineOf(|o.moveLines| + 1, lineNumber, text, note)])
    case _ => o
  }

  /** Scanning lines that stand after the first offset lines of a source. */
  function ScanLines(o: Outline, raws: seq<string>, offset: nat): Scanned {
    if |raws| == 0 then ScanOk(o)
    else
      match ScanLines(o, raws[..|raws| - 1], offset)
      case ScanError(line, source) => ScanError(line, source)
      case ScanOk(before) =>
        var text := Trim(raws[|raws| - 1]);
        if ParseLine(text).BadLine? then ScanError(offset + |raws|, text)
        else ScanOk(AddLine(before, ParseLine(text), offset + |raws|, text))
  }

  function Scan(source: string): Scanned {
    ScanLines(EMPTY, Split(source), 0)
  }

  lemma {:induction false} ErrorStays(o: Outline, raws: seq<string>, n: nat)
    requires n <= |raws| && ScanLines(o, raws[..n], 0).ScanError?
    ensures ScanLines(o, raws, 0) == ScanLines(o, raws[..n], 0)
    decreases |raws|
  {
    hide AddLine, ParseLine, Trim;
    if n == |raws| {
      assert raws[..n] == raws;
    } else {
      assert raws[..|raws| - 1][..n] == raws[..n];
      ErrorStays(o, raws[..|raws| - 1], n);
    }
  }

  method ScanSource(source: string) returns (r: Scanned)
    ensures r == Scan(source)
  {
    hide Trim, ParseLine, TimeOf, MoveLineOf;
    var outline := EMPTY;
    var raws := Split(source);
    for index := 0 to |raws|
      invariant ScanLines(EMPTY, raws[..index], 0) == ScanOk(outline)
    {
      assert raws[..index + 1][..index] == raws[..index];
      var lineNumber := index + 1;
      var text := Trim(raws[index]);
      var line := ParseLine(text);
      match line {
        case BlankLine =>
        case CommentLine(comment) =>
          var started, ended := TimeOf("開始", comment), TimeOf("終了", comment);
          if started.Some? && outline.startedAt == "" {
            outline := outline.(startedAt := started.value);
          }
          if ended.Some? && outline.endedAt == "" {
            outline := outline.(endedAt := ended.value);
          }
        case VersionLine(v) =>
          outline := outline.(rulesVersionLines := outline.rulesVersionLines + 1);
          if outline.rulesVersionLine == 0 {
            outline := outline.(rulesVersionLine := lineNumber, rulesVersion := v);
          }
        case StartLine(_, _) =>
          outline := outline.(headerLines := outline.headerLines + 1);
        case EndLine(_) =>
          outline := outline.(footerLines := outline.footerLines + 1);
        case PassLine(_) =>
          var moveLine := MoveLine(|outline.moveLines| + 1, lineNumber, text, false, 0, 0);
          outline := outline.(moveLines := outline.moveLines + [moveLine]);
        case PlaceLine(_, _, _, note) =>
          var moveLine := MoveLineOf(|outline.moveLines| + 1, lineNumber, text, note);
          outline := outline.(moveLines := outline.moveLines + [moveLine]);
        case BadLine =>
          ErrorStays(EMPTY, raws, index + 1);
          return ScanError(lineNumber, text);
      }
    }
    assert raws[..|raws|] == raws;
    return ScanOk(outline);
  }

  /** The text of a line of the source, empty when there is no such line. */
  function LineAt(source: string, line: int): string {
    if 1 <= line <= |Split(source)| then Trim(Split(source)[line - 1]) else ""
  }

  // ----- decoding ---------------------------------------------------------------------

  datatype RecordCode =
    | RecordSyntaxError | RecordMissingHeader | RecordIllegalMove
    | RecordMismatch | RecordUnfinished | RecordUnsupportedRulesVersion

  datatype SourceError = SourceError(
    code: RecordCode, line: nat, source: string, moveNumber: nat, ruleCode: Option<ErrorCode>)

  datatype Outcome<T> = Ok(value: T) | Err(error: SourceError)

  function ErrorAt(code: RecordCode, source: string, line: nat): SourceError {
    SourceError(code, line, LineAt(source, line), 0, None)
  }

  function LinesOf(raws: seq<string>): seq<Line> {
    if |raws| == 0 then [] else LinesOf(raws[..|raws| - 1]) + [ParseLine(Trim(raws[|raws| - 1]))]
  }

  /** What running the harness over a record leaves in its globals. */
  function RunHarness(source: string): (g: Globals)
    ensures forall m :: m in g.moves ==> Shaped(m)
  {
    WordsKeepShape(FRESH, LinesOf(Split(source)));
    Words(FRESH, LinesOf(Split(source)))
  }

  function StartLineNumber(raws: seq<string>): nat {
    if |raws| == 0 then 0
    else
      var before := StartLineNumber(raws[..|raws| - 1]);
      if before != 0 then before
      else if ParseStart(Trim(raws[|raws| - 1])).Some? then |raws| else 0
  }

  /** The first move that is no well-formed move, if any. */
  function BadMove(moves: seq<Move>, n: nat): Option<nat>
    requires n <= |moves|
    ensures BadMove(moves, n).Some? ==> BadMove(moves, n).value < n && MoveError(moves[BadMove(moves, n).value]).Some?
    ensures BadMove(moves, n).None? ==> forall i :: 0 <= i < n ==> MoveError(moves[i]).None?
  {
    if n == 0 then None
    else if BadMove(moves, n - 1).Some? then BadMove(moves, n - 1)
    else if MoveError(moves[n - 1]).Some? then Some(n - 1) else None
  }

  function Decode(source: string): Outcome<(Script, Outline)> {
    match Scan(source)
    case ScanError(line, text) => Err(SourceError(RecordSyntaxError, line, text, 0, None))
    case ScanOk(o) =>
      if o.headerLines != 1 then Err(ErrorAt(RecordMissingHeader, source, 0))
      else if o.footerLines > 1 then Err(ErrorAt(RecordSyntaxError, source, 0))
      else if o.rulesVersionLines != 1 then Err(ErrorAt(RecordMissingHeader, source, o.rulesVersionLine))
      else if o.rulesVersion != RULES_VERSION
        then Err(ErrorAt(RecordUnsupportedRulesVersion, source, o.rulesVersionLine))
      else
        var script := ScriptOf(RunHarness(source)).(startedAt := o.startedAt, endedAt := o.endedAt);
        if !IsUint32(script.seed) then Err(ErrorAt(RecordSyntaxError, source, 0))
        else if script.version != VERSION then Err(ErrorAt(RecordSyntaxError, source, 0))
        else if script.rulesVersion != o.rulesVersion
          then Err(ErrorAt(RecordUnsupportedRulesVersion, source, o.rulesVersionLine))
        else if !ValidGameId(script.gameId)
          then Err(ErrorAt(RecordMissingHeader, source, StartLineNumber(Split(source))))
        else
          match BadMove(script.moves, |script.moves|)
          case Some(i) =>
            var line := if i < |o.moveLines| then o.moveLines[i].line else 0;
            Err(SourceError(RecordSyntaxError, line, LineAt(source, line), i + 1, MoveError(script.moves[i])))
          case None => Ok((script, o))
  }

  // ----- replaying --------------------------------------------------------------------

  datatype Frame = Frame(
    turnNumber: int, moveNumber: nat, line: nat, move: Option<Move>, state: State, event: Option<Event>)

  datatype Result = Result(script: Script, outline: Outline, frames: seq<Frame>)

  datatype ReplayOptions = ReplayOptions(until: int, requireFinished: bool, strict: bool)

  function IllegalMoveError(script: Script, o: Outline, source: string): SourceError
    requires script.failure.Some?
  {
    var f := script.failure.value;
    var line := if 1 <= f.moveNumber <= |o.moveLines| then o.moveLines[f.moveNumber - 1].line else 0;
    SourceError(RecordIllegalMove, line, LineAt(source, line), f.moveNumber, Some(f.code))
  }

  function FrameOf(script: Script, o: Outline, index: nat): Frame
    requires index < |script.moves| && |script.frames| == |script.moves| + 1
  {
    var f := script.frames[index + 1];
    Frame(f.turnNumber, f.moveNumber, if index < |o.moveLines| then o.moveLines[index].line else 0,
          Some(script.moves[index]), f.state, f.event)
  }

  /** The strict comparison of a placement's note with the replayed event. */
  function AnnotationError(o: Outline, index: nat, frame: Frame): Option<SourceError> {
    if index >= |o.moveLines| then None
    else
      var m := o.moveLines[index];
      if !m.annotated || frame.event.None? then None
      else
        var e := frame.event.value;
        var placed := if e.placedColor.Some? then e.placedColor.value else 0;
        if m.color != placed || m.changed != |e.changes|
        then Some(SourceError(RecordMismatch, m.line, m.text, index + 1, None)) else None
  }

  function FramesUpTo(script: Script, o: Outline, strict: bool, n: nat): (r: Outcome<seq<Frame>>)
    requires n <= |script.moves| && |script.frames| == |script.moves| + 1
    ensures r.Ok? ==> |r.value| == n + 1
  {
    if n == 0 then Ok([Frame(0, 0, 0, None, script.frames[0].state, None)])
    else
      match FramesUpTo(script, o, strict, n - 1)
      case Err(e) => Err(e)
      case Ok(frames) =>
        var frame := FrameOf(script, o, n - 1);
        if strict && AnnotationError(o, n - 1, frame).Some?
        then Err(AnnotationError(o, n - 1, frame).value)
        else Ok(frames + [frame])
  }

  function FinalState(r: Result): State
    requires |r.frames| > 0
  {
    r.frames[|r.frames| - 1].state
  }

  function FinishedError(r: Result): Option<SourceError>
    requires |r.frames| > 0
  {
    var final := FinalState(r);
    if r.script.footerCount != 1 then Some(SourceError(RecordUnfinished, 0, "", 0, None))
    else if final.phase != Finished then Some(SourceError(RecordUnfinished, 0, "", |r.script.moves|, None))
    else if final.winner.None? || final.winner != r.script.winner
      then Some(SourceError(RecordMismatch, 0, "", 0, None))
    else None
  }

  function Limit(options: ReplayOptions, moves: nat): nat {
    if options.until < 0 || options.until > moves then moves else options.until
  }

  function ReplayWith(source: string, options: ReplayOptions): (r: Outcome<Result>)
    ensures r.Ok? ==> |r.value.frames| > 0
  {
    match Decode(source)
    case Err(e) => Err(e)
    case Ok((script, o)) =>
      if script.failure.Some? then Err(IllegalMoveError(script, o, source))
      else if |script.frames| != |script.moves| + 1 then Err(SourceError(RecordSyntaxError, 0, "", 0, None))
      else
        match FramesUpTo(script, o, options.strict, Limit(options, |script.moves|))
        case Err(e) => Err(e)
        case Ok(frames) =>
          var result := Result(script, o, frames);
          if options.requireFinished && FinishedError(result).Some?
          then Err(FinishedError(result).value) else Ok(result)
  }

  /** The strict replay of a finished record. */
  function Replay(source: string): Outcome<Result> {
    ReplayWith(source, ReplayOptions(-1, true, true))
  }

  lemma {:induction false} FrameErrorStays(script: Script, o: Outline, strict: bool, n: nat, later: nat)
    requires n <= later <= |script.moves| && |script.frames| == |script.moves| + 1
    requires FramesUpTo(script, o, strict, n).Err?
    ensures FramesUpTo(script, o, strict, later) == FramesUpTo(script, o, strict, n)
    decreases later
  {
    hide FrameOf, AnnotationError;
    if n < later {
      FrameErrorStays(script, o, strict, n, later - 1);
    }
  }

  /** The replayer's loop over the frames. */
  method ReplaySource(source: string, options: ReplayOptions) returns (r: Outcome<Result>)
    ensures r == ReplayWith(source, options)
  {
    hide Decode, FrameOf, AnnotationError, FinishedError, IllegalMoveError;
    var decoded := Decode(source);
    if decoded.Err? {
      return Err(decoded.error);
    }
    var (script, o) := decoded.value;
    if script.failure.Some? {
      return Err(IllegalMoveError(script, o, source));
    }
    if |script.frames| != |script.moves| + 1 {
      return Err(SourceError(RecordSyntaxError, 0, "", 0, None));
    }
    var limit := options.until;
    if limit < 0 || limit > |script.moves| {
      limit := |script.moves|;
    }
    var frames := [Frame(0, 0, 0, None, script.frames[0].state, None)];
    for index := 0 to limit
      invariant FramesUpTo(script, o, options.strict, index) == Ok(frames)
    {
      var frame := FrameOf(script, o, index);
      if options.strict && AnnotationError(o, index, frame).Some? {
        FrameErrorStays(script, o, true, index + 1, limit);
        return Err(AnnotationError(o, index, frame).value);
      }
      frames := frames + [frame];
    }
    var result := Result(script, o, frames);
    if options.requireFinished && FinishedError(result).Some? {
      return Err(FinishedError(result).value);
    }
    return Ok(result);
  }

  // ----- the contract's game record ---------------------------------------------------

  datatype GameRecord = GameRecord(
    version: string, rulesVersion: string, gameId: string, seed: nat, startedAt: string,
    endedAt: string, winner: Option<Player>, commands: seq<Command>, finalState: State)

  function CommandsUpTo(frames: seq<Frame>, n: nat): seq<Command>
    requires n < |frames|
  {
    if n == 0 then []
    else
      CommandsUpTo(frames, n - 1)
      + if frames[n].move.None? then [] else [MoveCommand(frames[n].move.value, frames[n].turnNumber - 1)]
  }

  function RecordOf(r: Result): GameRecord
    requires |r.frames| > 0
  {
    GameRecord(VERSION, RULES_VERSION, r.script.gameId, r.script.seed, r.script.startedAt,
               r.script.endedAt, r.script.winner, CommandsUpTo(r.frames, |r.frames| - 1), FinalState(r))
  }

  method BuildRecord(r: Result) returns (record: GameRecord)
    requires |r.frames| > 0
    ensures record == RecordOf(r)
  {
    var commands: seq<Command> := [];
    for i := 1 to |r.frames|
      invariant commands == CommandsUpTo(r.frames, i - 1)
    {
      if r.frames[i].move.Some? {
        commands := commands + [MoveCommand(r.frames[i].move.value, r.frames[i].turnNumber - 1)];
      }
    }
    return GameRecord(VERSION, RULES_VERSION, r.script.gameId, r.script.seed, r.script.startedAt,
                      r.script.endedAt, r.script.winner, commands, FinalState(r));
  }

  // ----- writing ----------------------------------------------------------------------

  lemma {:induction false} SumNotNegative(b: Board)
    requires Colored(b)
    ensures ColorSum(b) >= 0
  {
    if |b| > 0 {
      SumNotNegative(b[..|b| - 1]);
    }
  }

  /** boardTotals: the sum of the colours and the number of pieces. */
  method BoardTotals(b: Board) returns (sum: int, count: nat)
    ensures sum == ColorSum(b) && count == PieceCount(b)
  {
    sum, count := 0, 0;
    for i := 0 to |b|
      invariant sum == ColorSum(b[..i]) && count == PieceCount(b[..i])
    {
      assert b[..i + 1][..i] == b[..i];
      if b[i].Some? {
        sum := sum + b[i].value;
        count := count + 1;
      }
    }
    assert b[..|b|] == b;
  }

  /** The ranges of the server's integer types, for a frame. */
  predicate FrameTyped(f: Frame) {
    StateTyped(f.state) && (f.event.Some? ==> EventTyped(f.event.value))
  }

  function PlacedColorOf(e: Option<Event>): (c: nat)
    requires e.Some? ==> EventTyped(e.value)
  {
    if e.Some? && e.value.placedColor.Some? then e.value.placedColor.value else 0
  }

  function ChangedOf(e: Option<Event>): nat {
    if e.Some? then |e.value.changes| else 0
  }

  /** The line of one frame, or None for a move that cannot be written. */
  function FrameText(f: Frame): Option<string>
    requires f.move.Some? && FrameTyped(f)
  {
    var m := f.move.value;
    match m.kind
    case PassType => if m.player.Valid() then Some(PassText(m.player)) else None
    case PlaceType =>
      if m.row.None? || m.col.None? then None
      else if !InBounds(m.row.value, m.col.value) then None
      else if !m.player.Valid() then None
      else Some(PlaceText(m.player, m.row.value, m.col.value, PlacedColorOf(f.event), ChangedOf(f.event)))
    case OtherType(_) => None
  }

  function FrameTexts(frames: seq<Frame>, n: nat): Option<seq<string>>
    requires n < |frames| && forall f :: f in frames ==> FrameTyped(f)
  {
    if n == 0 then Some([])
    else
      match FrameTexts(frames, n - 1)
      case None => None
      case Some(texts) =>
        if frames[n].move.None? then Some(texts)
        else
          match FrameText(frames[n])
          case None => None
          case Some(text) => Some(texts + [text])
  }

  function OpeningTexts(startedAt: string, endedAt: string, gameId: string, seed: nat): seq<string> {
    HeaderTexts(startedAt, endedAt) + ["", VersionText(), StartText(gameId, seed), ""]
  }

  function ClosingTexts(winner: Player, moveCount: nat, b: Board): seq<string>
    requires Colored(b)
  {
    SumNotNegative(b);
    ["", EndText(winner, moveCount, ColorSum(b), PieceCount(b))]
  }

  /** The record of a result, line by line; None where the encoder reports an error. */
  function ResultTexts(r: Result): Option<seq<string>>
    requires forall f :: f in r.frames ==> FrameTyped(f)
  {
    if |r.frames| == 0 || !ValidGameId(r.script.gameId) then None
    else
      match FrameTexts(r.frames, |r.frames| - 1)
      case None => None
      case Some(texts) =>
        var opening := OpeningTexts(r.script.startedAt, r.script.endedAt, r.script.gameId, r.script.seed);
        var final := FinalState(r);
        assert FrameTyped(r.frames[|r.frames| - 1]);
        if final.phase != Finished then Some(opening + texts)
        else if final.winner.None? || !final.winner.value.Valid() then None
        else Some(opening + texts + ClosingTexts(final.winner.value, |r.frames| - 1, final.board))
  }

  function Encode(r: Result): Option<string>
    requires forall f :: f in r.frames ==> FrameTyped(f)
  {
    match ResultTexts(r)
    case None => None
    case Some(texts) => Some(Lines(texts))
  }

  lemma {:induction false} NoFrameTexts(frames: seq<Frame>, n: nat, later: nat)
    requires n <= later < |frames| && forall f :: f in frames ==> FrameTyped(f)
    requires FrameTexts(frames, n).None?
    ensures FrameTexts(frames, later).None?
    decreases later
  {
    hide FrameText;
    if n < later {
      NoFrameTexts(frames, n, later - 1);
    }
  }

  /** EncodeResult: the builder, written line by line. */
  method EncodeResult(r: Result) returns (text: Option<string>)
    requires forall f :: f in r.frames ==> FrameTyped(f)
    ensures text == Encode(r)
  {
    hide FrameText, ValidGameId, VersionText, StartText, EndText, FrameTyped;
    if |r.frames| == 0 || !ValidGameId(r.script.gameId) {
      return None;
    }
    var opening := OpeningTexts(r.script.startedAt, r.script.endedAt, r.script.gameId, r.script.seed);
    var out := WriteOpening(r.script);
    ghost var written: seq<string> := [];
    assert opening + written == opening;
    for i := 1 to |r.frames|
      invariant FrameTexts(r.frames, i - 1) == Some(written)
      invariant out == Lines(opening + written)
    {
      if r.frames[i].move.Some? {
        var line := FrameText(r.frames[i]);
        if line.None? {
          NoFrameTexts(r.frames, i, |r.frames| - 1);
          return None;
        }
        LinesAppend(opening + written, line.value);
        assert opening + written + [line.value] == opening + (written + [line.value]);
        out := out + line.value + "\n";
        written := written + [line.value];
      }
    }
    var final := FinalState(r);
    TypedBoard(r.frames[|r.frames| - 1]);
    if final.phase != Finished {
      return Some(out);
    }
    if final.winner.None? || !final.winner.value.Valid() {
      return None;
    }
    var sum, count := BoardTotals(final.board);
    SumNotNegative(final.board);
    var end := EndText(final.winner.value, |r.frames| - 1, sum, count);
    LinesAppend(opening + written, "");
    assert out + "" + "\n" == out + "\n";
    LinesAppend(opening + written + [""], end);
    assert opening + written + [""] + [end]
        == opening + written + ClosingTexts(final.winner.value, |r.frames| - 1, final.board);
    return Some(out + "\n" + end + "\n");
  }

  lemma TypedBoard(f: Frame)
    requires FrameTyped(f)
    ensures Colored(f.state.board)
  {
  }

  method WriteOpening(script: Script) returns (out: string)
    ensures out == Lines(OpeningTexts(script.startedAt, script.endedAt, script.gameId, script.seed))
  {
    hide VersionText, StartText, HeaderTexts, Lines;
    NoLines();
    out := "";
    var headers := HeaderTexts(script.startedAt, script.endedAt);
    for i := 0 to |headers|
      invariant out == Lines(headers[..i])
    {
      LinesAppend(headers[..i], headers[i]);
      assert headers[..i] + [headers[i]] == headers[..i + 1];
      out := out + headers[i] + "\n";
    }
    assert headers[..|headers|] == headers;
    BlankAppend(headers);
    out := out + "\n";
    LinesAppend(headers + [""], VersionText());
    out := out + VersionText() + "\n";
    LinesAppend(headers + [""] + [VersionText()], StartText(script.gameId, script.seed));
    BlankAppend(headers + [""] + [VersionText()] + [StartText(script.gameId, script.seed)]);
    out := out + StartText(script.gameId, script.seed) + "\n" + "\n";
    assert headers + [""] + [VersionText()] + [StartText(script.gameId, script.seed)] + [""]
        == OpeningTexts(script.startedAt, script.endedAt, script.gameId, script.seed);
  }

  lemma NoLines()
    ensures Lines([]) == ""
  {
  }

  lemma BlankAppend(lines: seq<string>)
    ensures Lines(lines + [""]) == Lines(lines) + "\n"
  {
    LinesAppend(lines, "");
    assert Lines(lines) + "" == Lines(lines);
  }
}
