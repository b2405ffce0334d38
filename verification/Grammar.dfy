/** The lines of a game record: the patterns of server/internal/replay/decode.go as explicit
    recognisers, and the line builders of encode.go that they must read back. */
module Grammar {
  import opened Options
  import opened Protocol
  import opened Text

  const RULES_VERSION := "1"
  const DARK_WORD := "黒"
  const LIGHT_WORD := "白"

  datatype Line =
    | BlankLine
    | CommentLine(text: string)
    | VersionLine(version: string)
    | StartLine(gameId: string, seed: nat)
    | PlaceLine(row: int, col: int, word: string, note: string)
    | PassLine(word: string)
    | EndLine(word: string)
    | BadLine

  // ----- recognisers ------------------------------------------------------------------

  predicate NotCloseQuote(c: char) {
    c != '」'
  }

  /** 「([^」]*)」 and what follows it. */
  function Quoted(s: string): Option<(string, string)> {
    if s == "" || s[0] != '「' then None
    else
      var n := Leading(s[1..], NotCloseQuote);
      if n == |s| - 1 then None else Some((s[1..][..n], s[n + 2..]))
  }

  /** \s*(?:#(.*))?$ and the comment it captures, empty when there is none. */
  function Tail(s: string): Option<string> {
    var rest := s[Leading(s, IsPatternSpace)..];
    if rest == "" then Some("") else if rest[0] == '#' then Some(rest[1..]) else None
  }

  /** (黒|白) and what follows it. */
  function TurnWord(s: string): Option<(string, string)> {
    match StripPrefix(DARK_WORD, s)
    case Some(rest) => Some((DARK_WORD, rest))
    case None =>
      match StripPrefix(LIGHT_WORD, s)
      case Some(rest) => Some((LIGHT_WORD, rest))
      case None => None
  }

  /** The literal and then the tail. */
  function LiteralTail(literal: string, s: string): Option<string> {
    match StripPrefix(literal, s)
    case Some(rest) => Tail(rest)
    case None => None
  }

  /** (\d+) and what follows it. */
  function Digits(s: string): (r: Option<(string, string)>)
    ensures r.Some? ==> AllDigits(r.value.0) && r.value.0 != ""
  {
    LeadingIs(s, IsDigit);
    var n := Leading(s, IsDigit);
    if n == 0 then None else Some((s[..n], s[n..]))
  }

  function ParseVersion(s: string): Option<Line> {
    match Quoted(s)
    case None => None
    case Some((body, rest)) =>
      if LiteralTail("でルール版宣言", rest).Some? then Some(VersionLine(body)) else None
  }

  function ParseStart(s: string): Option<Line> {
    match Quoted(s)
    case None => None
    case Some((body, rest)) =>
      match StripPrefix("と", rest)
      case None => None
      case Some(rest) =>
        match Digits(rest)
        case None => None
        case Some((digits, rest)) =>
          if LiteralTail("で対局開始", rest).Some? then Some(StartLine(body, DigitsValue(digits))) else None
  }

  function ParseEnd(s: string): Option<Line> {
    match StripPrefix("「", s)
    case None => None
    case Some(rest) =>
      match TurnWord(rest)
      case None => None
      case Some((word, rest)) =>
        if LiteralTail("」で対局終了", rest).Some? then Some(EndLine(word)) else None
  }

  function ParsePass(s: string): Option<Line> {
    match TurnWord(s)
    case None => None
    case Some((word, rest)) =>
      if LiteralTail("パス", rest).Some? then Some(PassLine(word)) else None
  }

  predicate IsBoardDigit(c: char) {
    '0' <= c <= '7'
  }

  function ParsePlace(s: string): Option<Line> {
    if s == "" || !IsBoardDigit(s[0]) then None
    else
      match StripPrefix("と", s[1..])
      case None => None
      case Some(rest) =>
        if rest == "" || !IsBoardDigit(rest[0]) then None
        else
          match StripPrefix("で", rest[1..])
          case None => None
          case Some(after) =>
            match TurnWord(after)
            case None => None
            case Some((word, end)) =>
              match LiteralTail("着手", end)
              case None => None
              case Some(note) => Some(PlaceLine(DigitValue(s[0]), DigitValue(rest[0]), word, note))
  }

  /** What one trimmed line says, tried in the order of the scanner. */
  function ParseLine(s: string): Line {
    if s == "" then BlankLine
    else if s[0] == '#' then CommentLine(s[1..])
    else if ParseVersion(s).Some? then ParseVersion(s).value
    else if ParseStart(s).Some? then ParseStart(s).value
    else if ParseEnd(s).Some? then ParseEnd(s).value
    else if ParsePass(s).Some? then ParsePass(s).value
    else if ParsePlace(s).Some? then ParsePlace(s).value
    else BadLine
  }

  // ----- notes ------------------------------------------------------------------------

  /** 色(\d+)、(\d+)個変換 at the very start of s. */
  function NoteAt(s: string): (r: Option<(string, string)>)
    ensures r.Some? ==> AllDigits(r.value.0) && AllDigits(r.value.1)
  {
    match StripPrefix("色", s)
    case None => None
    case Some(rest) =>
      match Digits(rest)
      case None => None
      case Some((color, rest)) =>
        match StripPrefix("、", rest)
        case None => None
        case Some(rest) =>
          match Digits(rest)
          case None => None
          case Some((changed, rest)) =>
            if StripPrefix("個変換", rest).Some? then Some((color, changed)) else None
  }

  /** The leftmost place where the note pattern matches. */
  function FindNote(s: string): (r: Option<(string, string)>)
    ensures r.Some? ==> AllDigits(r.value.0) && AllDigits(r.value.1)
  {
    if NoteAt(s).Some? then NoteAt(s) else if s == "" then None else FindNote(s[1..])
  }

  /** strconv.Atoi on digits: a 64-bit signed value, or an error. */
  function Atoi(digits: string): Option<int>
    requires AllDigits(digits)
  {
    if DigitsValue(digits) <= 0x7fff_ffff_ffff_ffff then Some(DigitsValue(digits)) else None
  }

  /** The colour and the count of a placement's note, when both can be read. */
  function NoteOf(s: string): Option<(int, int)> {
    match FindNote(s)
    case None => None
    case Some((color, changed)) =>
      match (Atoi(color), Atoi(changed))
      case (Some(c), Some(n)) => Some((c, n))
      case _ => None
  }

  predicate NotPatternSpace(c: char) {
    !IsPatternSpace(c)
  }

  /** ^\s*keyword\s+(\S+) */
  function TimeOf(keyword: string, s: string): Option<string> {
    match StripPrefix(keyword, s[Leading(s, IsPatternSpace)..])
    case None => None
    case Some(rest) =>
      var n := Leading(rest, IsPatternSpace);
      var word := rest[n..][..Leading(rest[n..], NotPatternSpace)];
      if n == 0 || word == "" then None else Some(word)
  }

  // ----- builders ---------------------------------------------------------------------

  function PlayerWord(player: Player): string {
    if player == Light then LIGHT_WORD else DARK_WORD
  }

  predicate IsIdChar(c: char) {
    'A' <= c <= 'Z' || 'a' <= c <= 'z' || '0' <= c <= '9' || c == '_' || c == '-'
  }

  predicate ValidGameId(gameId: string) {
    1 <= |gameId| <= 64 && forall i :: 0 <= i < |gameId| ==> IsIdChar(gameId[i])
  }

  const TITLE := "# グラデーションリバーシ 対局記録 v1"

  function HeaderTexts(startedAt: string, endedAt: string): seq<string> {
    [TITLE]
    + (if startedAt != "" then ["# 開始 " + startedAt] else [])
    + (if endedAt != "" then ["# 終了 " + endedAt] else [])
  }

  function VersionText(): string {
    "「" + RULES_VERSION + "」でルール版宣言"
  }

  function StartText(gameId: string, seed: nat): string {
    "「" + gameId + "」と" + Decimal(seed) + "で対局開始"
  }

  function PlaceText(player: Player, row: nat, col: nat, color: nat, changed: nat): string {
    Decimal(row) + "と" + Decimal(col) + "で" + PlayerWord(player) + "着手    # 色" + Decimal(color)
    + "、" + Decimal(changed) + "個変換"
  }

  function PassText(player: Player): string {
    PlayerWord(player) + "パス"
  }

  function EndText(winner: Player, moveCount: nat, colorSum: nat, pieceCount: nat): string {
    "「" + PlayerWord(winner) + "」で対局終了   # " + Decimal(moveCount) + "手、色合計" + Decimal(colorSum)
    + "、駒" + Decimal(pieceCount)
  }

  // ----- reading back what is written --------------------------------------------------

  lemma QuotedOf(body: string, rest: string)
    requires forall i :: 0 <= i < |body| ==> NotCloseQuote(body[i])
    ensures Quoted("「" + body + "」" + rest) == Some((body, rest))
  {
    var s := "「" + body + "」" + rest;
    assert s[1..] == body + ("」" + rest);
    LeadingOf(body, "」" + rest, NotCloseQuote);
    assert s[|body| + 2..] == rest;
  }

  lemma DigitsOf(n: nat, rest: string)
    requires rest == "" || !IsDigit(rest[0])
    ensures var r := Digits(Decimal(n) + rest);
            r == Some((Decimal(n), rest)) && DigitsValue(r.value.0) == n
  {
    DecimalReadsBack(n);
    LeadingOf(Decimal(n), rest, IsDigit);
  }

  lemma TurnWordOf(player: Player, rest: string)
    ensures TurnWord(PlayerWord(player) + rest) == Some((PlayerWord(player), rest))
  {
    StripPrefixOf(PlayerWord(player), rest);
    if player == Light {
      StripPrefixDiffers(DARK_WORD, LIGHT_WORD + rest);
    }
  }

  lemma LiteralTailEmpty(literal: string)
    ensures LiteralTail(literal, literal) == Some("")
  {
    StripPrefixOf(literal, "");
    assert literal + "" == literal;
  }

  lemma VersionReadsBack()
    ensures ParseLine(VersionText()) == VersionLine(RULES_VERSION)
  {
    hide Leading, Tail, Quoted, LiteralTail;
    QuotedOf(RULES_VERSION, "でルール版宣言");
    assert "「" + RULES_VERSION + "」" + "でルール版宣言" == VersionText();
    LiteralTailEmpty("でルール版宣言");
  }

  lemma NamedGame(id: string)
    requires ValidGameId(id)
    ensures id != ""
  {
  }

  lemma IdHasNoQuote(gameId: string)
    requires ValidGameId(gameId)
    ensures forall i :: 0 <= i < |gameId| ==> NotCloseQuote(gameId[i])
  {
    forall i | 0 <= i < |gameId|
      ensures NotCloseQuote(gameId[i])
    {
      assert IsIdChar(gameId[i]);
    }
  }

  lemma StartReadsBack(gameId: string, seed: nat)
    requires ValidGameId(gameId)
    ensures ParseLine(StartText(gameId, seed)) == StartLine(gameId, seed)
  {
    hide Leading, Tail, Quoted, Decimal, Digits, LiteralTail, StripPrefix, ParseEnd, ValidGameId;
    var s := StartText(gameId, seed);
    var digits := Decimal(seed);
    var rest := "と" + (digits + "で対局開始");
    assert s == "「" + gameId + "」" + rest;
    IdHasNoQuote(gameId);
    QuotedOf(gameId, rest);
    assert ParseVersion(s) == None by {
      StripPrefixDiffers("でルール版宣言", rest);
      NoLiteral("でルール版宣言", rest);
    }
    StripPrefixOf("と", digits + "で対局開始");
    DigitsOf(seed, "で対局開始");
    LiteralTailEmpty("で対局開始");
  }

  lemma NoLiteral(literal: string, s: string)
    requires StripPrefix(literal, s) == None
    ensures LiteralTail(literal, s) == None
  {
  }

  lemma PassReadsBack(player: Player)
    ensures ParseLine(PassText(player)) == PassLine(PlayerWord(player))
  {
    hide Leading, Tail, LiteralTail, StripPrefix, TurnWord;
    var s := PassText(player);
    assert s[0] == PlayerWord(player)[0];
    assert Quoted(s) == None;
    StripPrefixDiffers("「", s);
    TurnWordOf(player, "パス");
    LiteralTailEmpty("パス");
  }

  lemma TailNote(spaces: string, note: string)
    requires forall i :: 0 <= i < |spaces| ==> IsPatternSpace(spaces[i])
    ensures Tail(spaces + "#" + note) == Some(note)
  {
    LeadingOf(spaces, "#" + note, IsPatternSpace);
    assert spaces + "#" + note == spaces + ("#" + note);
  }

  lemma EndReadsBack(winner: Player, moveCount: nat, colorSum: nat, pieceCount: nat)
    ensures ParseLine(EndText(winner, moveCount, colorSum, pieceCount)) == EndLine(PlayerWord(winner))
  {
    hide Leading, Tail, LiteralTail, StripPrefix, TurnWord, Quoted, Decimal;
    var word := PlayerWord(winner);
    var note := " " + Decimal(moveCount) + "手、色合計" + Decimal(colorSum) + "、駒" + Decimal(pieceCount);
    var s := EndText(winner, moveCount, colorSum, pieceCount);
    var tail := "   " + "#" + note;
    var rest := "で対局終了" + tail;
    assert s == "「" + word + "」" + rest;
    QuotedOf(word, rest);
    assert ParseVersion(s) == None by {
      StripPrefixDiffersLater("でルール版宣言", rest, 1);
      NoLiteral("でルール版宣言", rest);
    }
    assert ParseStart(s) == None by {
      StripPrefixDiffers("と", rest);
    }
    assert s == "「" + (word + ("」で対局終了" + tail));
    StripPrefixOf("「", word + ("」で対局終了" + tail));
    TurnWordOf(winner, "」で対局終了" + tail);
    TailNote("   ", note);
    LiteralTailOf("」で対局終了", tail);
  }

  predicate NotHash(c: char) {
    c != '#'
  }

  /** What a reader takes from the comment of an end line: the moves, the sum of the colours, and the
      pieces. */
  function TotalsOf(line: string): Option<(int, int, int)> {
    match StripPrefix("# ", line[Leading(line, NotHash)..])
    case None => None
    case Some(note) =>
      match Digits(note)
      case None => None
      case Some((moves, rest)) =>
        match StripPrefix("手、色合計", rest)
        case None => None
        case Some(rest) =>
          match Digits(rest)
          case None => None
          case Some((sum, rest)) =>
            match StripPrefix("、駒", rest)
            case None => None
            case Some(rest) =>
              match Digits(rest)
              case None => None
              case Some((pieces, _)) => Some((DigitsValue(moves), DigitsValue(sum), DigitsValue(pieces)))
  }

  lemma TotalsReadBack(winner: Player, moveCount: nat, colorSum: nat, pieceCount: nat)
    ensures TotalsOf(EndText(winner, moveCount, colorSum, pieceCount)) == Some((moveCount, colorSum, pieceCount))
  {
    hide StripPrefix, Decimal, Digits, DigitsValue;
    var head := "「" + PlayerWord(winner) + "」で対局終了   ";
    var last := Decimal(pieceCount) + "";
    var middle := Decimal(colorSum) + ("、駒" + last);
    var note := Decimal(moveCount) + ("手、色合計" + middle);
    assert EndText(winner, moveCount, colorSum, pieceCount) == head + ("# " + note);
    assert forall i :: 0 <= i < |head| ==> NotHash(head[i]);
    LeadingOf(head, "# " + note, NotHash);
    StripPrefixOf("# ", note);
    DigitsOf(moveCount, "手、色合計" + middle);
    StripPrefixOf("手、色合計", middle);
    DigitsOf(colorSum, "、駒" + last);
    StripPrefixOf("、駒", last);
    DigitsOf(pieceCount, "");
  }

  lemma LiteralTailOf(literal: string, rest: string)
    ensures LiteralTail(literal, literal + rest) == Tail(rest)
  {
    StripPrefixOf(literal, rest);
  }

  lemma StripPrefixDiffersLater(prefix: string, s: string, i: nat)
    requires i < |prefix| && i < |s| && s[i] != prefix[i]
    ensures StripPrefix(prefix, s) == None
  {
  }

  lemma SmallDecimal(n: nat)
    requires n < 8
    ensures Decimal(n) == [Digit(n)] && IsBoardDigit(Digit(n)) && DigitValue(Digit(n)) == n
  {
    DigitIsDigit(n);
  }

  /** The text of a placement's comment. */
  function PlaceNote(color: nat, changed: nat): string {
    " 色" + Decimal(color) + "、" + Decimal(changed) + "個変換"
  }

  lemma PlaceReadsBack(player: Player, row: nat, col: nat, color: nat, changed: nat)
    requires row < 8 && col < 8
    ensures ParseLine(PlaceText(player, row, col, color, changed))
         == PlaceLine(row, col, PlayerWord(player), PlaceNote(color, changed))
  {
    hide Leading, Tail, LiteralTail, StripPrefix, TurnWord, Decimal, Digit, DigitValue;
    var word, note := PlayerWord(player), PlaceNote(color, changed);
    var s := PlaceText(player, row, col, color, changed);
    SmallDecimal(row);
    SmallDecimal(col);
    var tail := "    " + "#" + note;
    var end := word + ("着手" + tail);
    var rest := [Digit(col)] + ("で" + end);
    assert s == [Digit(row)] + ("と" + rest);
    assert Quoted(s) == None;
    StripPrefixDiffers("「", s);
    assert TurnWord(s) == None by {
      NotATurnWord(s);
    }
    StripPrefixOf("と", rest);
    StripPrefixOf("で", end);
    TurnWordOf(player, "着手" + tail);
    TailNote("    ", note);
    LiteralTailOf("着手", tail);
    assert s[1..] == "と" + rest && rest[1..] == "で" + end;
  }

  lemma NotATurnWord(s: string)
    requires s != "" && IsBoardDigit(s[0])
    ensures TurnWord(s) == None
  {
    StripPrefixDiffers(DARK_WORD, s);
    StripPrefixDiffers(LIGHT_WORD, s);
  }

  lemma NoteReadsBack(color: nat, changed: nat)
    requires color <= 255 && changed <= 64
    ensures NoteOf(PlaceNote(color, changed)) == Some((color, changed))
  {
    hide StripPrefix, Decimal, Digits, NoteAt, DigitsValue;
    var s := PlaceNote(color, changed);
    var end := Decimal(changed) + "個変換";
    var middle := Decimal(color) + ("、" + end);
    assert s == " " + ("色" + middle);
    assert s[1..] == "色" + middle;
    assert NoteAt(s) == None by {
      NoNoteAt(s);
    }
    NoteAtOf(color, changed);
    DecimalReadsBack(color);
    DecimalReadsBack(changed);
    assert FindNote(s) == FindNote(s[1..]);
  }

  lemma NoNoteAt(s: string)
    requires s == "" || s[0] != '色'
    ensures NoteAt(s) == None
  {
    StripPrefixDiffers("色", s);
  }

  lemma NoteAtOf(color: nat, changed: nat)
    ensures NoteAt("色" + (Decimal(color) + ("、" + (Decimal(changed) + "個変換"))))
         == Some((Decimal(color), Decimal(changed)))
  {
    hide StripPrefix, Decimal, Digits, DigitsValue;
    var end := Decimal(changed) + "個変換";
    var middle := Decimal(color) + ("、" + end);
    StripPrefixOf("色", middle);
    DigitsOf(color, "、" + end);
    StripPrefixOf("、", end);
    DigitsOf(changed, "個変換");
    StripPrefixOf("個変換", "");
    assert "個変換" + "" == "個変換";
  }

  // ----- times ------------------------------------------------------------------------

  /** No character of the class \s, as in every time that a pattern can capture. */
  predicate PatternFree(t: string) {
    forall i :: 0 <= i < |t| ==> NotPatternSpace(t[i])
  }

  lemma TimeReadsBack(keyword: string, t: string)
    requires keyword != "" && !IsPatternSpace(keyword[0])
    requires t != "" && PatternFree(t)
    ensures TimeOf(keyword, " " + keyword + " " + t) == Some(t)
  {
    var s := " " + keyword + " " + t;
    assert s == " " + (keyword + (" " + t));
    LeadingOf(" ", keyword + (" " + t), IsPatternSpace);
    StripPrefixOf(keyword, " " + t);
    LeadingOf(" ", t, IsPatternSpace);
    LeadingOf(t, "", NotPatternSpace);
    assert t + "" == t;
  }

  lemma OtherKeyword(keyword: string, s: string)
    requires keyword != "" && |s| >= 2 && IsPatternSpace(s[0]) && !IsPatternSpace(s[1]) && s[1] != keyword[0]
    ensures TimeOf(keyword, s) == None
  {
    LeadingOf([s[0]], s[1..], IsPatternSpace);
    assert s == [s[0]] + s[1..];
    StripPrefixDiffers(keyword, s[1..]);
  }

  // ----- the repository's own sample --------------------------------------------------

  lemma SomeDecimals()
    ensures Decimal(1) == "1" && Decimal(2) == "2" && Decimal(4) == "4" && Decimal(5) == "5"
    ensures Decimal(60) == "60" && Decimal(64) == "64" && Decimal(94) == "94" && Decimal(5748) == "5748"
  {
    assert Decimal(57) == "57" && Decimal(574) == "574";
  }

  lemma SampleStart()
    ensures StartText("sample-game", 1) == "「sample-game」と1で対局開始"
  {
    hide Decimal;
    SomeDecimals();
    assert "「" + "sample-game" + "」と" + "1" + "で対局開始" == "「sample-game」と1で対局開始";
  }

  lemma SamplePlacements()
    ensures PlaceText(Dark, 2, 5, 60, 1) == "2と5で黒着手    # 色60、1個変換"
    ensures PlaceText(Light, 5, 4, 94, 1) == "5と4で白着手    # 色94、1個変換"
  {
    hide Decimal;
    SomeDecimals();
    assert "2" + "と" + "5" + "で" + "黒" + "着手    # 色" + "60" + "、" + "1" + "個変換"
        == "2と5で黒着手    # 色60、1個変換";
    assert "5" + "と" + "4" + "で" + "白" + "着手    # 色" + "94" + "、" + "1" + "個変換"
        == "5と4で白着手    # 色94、1個変換";
  }

  lemma SampleEnd()
    ensures EndText(Dark, 60, 5748, 64) == "「黒」で対局終了   # 60手、色合計5748、駒64"
  {
    hide Decimal;
    SomeDecimals();
    assert "「" + "黒" + "」で対局終了   # " + "60" + "手、色合計" + "5748" + "、駒" + "64"
        == "「黒」で対局終了   # 60手、色合計5748、駒64";
  }

  lemma SampleHeader()
    ensures HeaderTexts("2026-09-12T21:30:00+09:00", "2026-09-12T21:44:12+09:00")
         == [TITLE, "# 開始 2026-09-12T21:30:00+09:00", "# 終了 2026-09-12T21:44:12+09:00"]
  {
    SampleStartTime();
    SampleEndTime();
  }

  lemma SampleStartTime()
    ensures "# 開始 " + "2026-09-12T21:30:00+09:00" == "# 開始 2026-09-12T21:30:00+09:00"
  {
  }

  lemma SampleEndTime()
    ensures "# 終了 " + "2026-09-12T21:44:12+09:00" == "# 終了 2026-09-12T21:44:12+09:00"
  {
  }

  lemma SampleVersion()
    ensures VersionText() == "「1」でルール版宣言"
  {
    assert "「" + "1" + "」でルール版宣言" == "「1」でルール版宣言";
  }

  /** Lines of rules/replay/sample-game.nako3, letter by letter. */
  lemma SampleLines()
    ensures HeaderTexts("2026-09-12T21:30:00+09:00", "2026-09-12T21:44:12+09:00")
         == [TITLE, "# 開始 2026-09-12T21:30:00+09:00", "# 終了 2026-09-12T21:44:12+09:00"]
    ensures VersionText() == "「1」でルール版宣言"
    ensures StartText("sample-game", 1) == "「sample-game」と1で対局開始"
    ensures PlaceText(Dark, 2, 5, 60, 1) == "2と5で黒着手    # 色60、1個変換"
    ensures PlaceText(Light, 5, 4, 94, 1) == "5と4で白着手    # 色94、1個変換"
    ensures EndText(Dark, 60, 5748, 64) == "「黒」で対局終了   # 60手、色合計5748、駒64"
  {
    hide HeaderTexts, VersionText, StartText, PlaceText, EndText;
    SampleHeader();
    SampleVersion();
    SampleStart();
    SamplePlacements();
    SampleEnd();
  }
}
