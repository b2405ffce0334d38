/** Which lines a record may hold: the line language as shapes, and that the recognisers accept
    exactly these shapes and read each as what it says. */
module Language {
  import opened Options
  import opened Text
  import opened Grammar

  // ----- the parts of a line ----------------------------------------------------------

  predicate OnlySpace(s: string) {
    forall i :: 0 <= i < |s| ==> IsPatternSpace(s[i])
  }

  /** White space, and perhaps a comment after it. */
  ghost predicate Trails(tail: string, note: string) {
    (OnlySpace(tail) && note == "")
    || exists gap: string :: OnlySpace(gap) && tail == gap + ("#" + note)
  }

  lemma TailIs(s: string, note: string)
    ensures Tail(s) == Some(note) <==> Trails(s, note)
  {
    LeadingIs(s, IsPatternSpace);
    var n := Leading(s, IsPatternSpace);
    assert s == s[..n] + s[n..];
    if Tail(s) == Some(note) && n < |s| {
      assert s[n..] == "#" + note;
      assert OnlySpace(s[..n]) && s == s[..n] + ("#" + note);
    }
    if OnlySpace(s) {
      LeadingOf(s, "", IsPatternSpace);
      assert s + "" == s;
    }
    if gap: string :| OnlySpace(gap) && s == gap + ("#" + note) {
      LeadingOf(gap, "#" + note, IsPatternSpace);
      assert s[|gap|] == '#';
    }
  }

  /** The literal, and then what trails. */
  ghost predicate EndsIn(literal: string, s: string, note: string) {
    exists tail: string :: s == literal + tail && Trails(tail, note)
  }

  lemma LiteralTailIs(literal: string, s: string, note: string)
    ensures LiteralTail(literal, s) == Some(note) <==> EndsIn(literal, s, note)
  {
    hide Tail, Trails;
    if LiteralTail(literal, s) == Some(note) {
      var tail := s[|literal|..];
      TailIs(tail, note);
      assert s == literal + tail;
    }
    if tail: string :| s == literal + tail && Trails(tail, note) {
      StripPrefixOf(literal, tail);
      TailIs(tail, note);
    }
  }

  predicate IsWord(word: string) {
    word == DARK_WORD || word == LIGHT_WORD
  }

  lemma TurnWordIs(s: string, word: string, rest: string)
    ensures TurnWord(s) == Some((word, rest)) <==> IsWord(word) && s == word + rest
  {
    if IsWord(word) && s == word + rest {
      StripPrefixOf(word, rest);
      if word == LIGHT_WORD {
        StripPrefixDiffers(DARK_WORD, s);
      }
    }
  }

  lemma QuotedIs(s: string, body: string, rest: string)
    ensures Quoted(s) == Some((body, rest)) <==> '」' !in body && s == "「" + (body + ("」" + rest))
  {
    if '」' !in body && s == "「" + (body + ("」" + rest)) {
      assert s == "「" + body + "」" + rest;
      QuotedOf(body, rest);
    }
    if Quoted(s) == Some((body, rest)) {
      LeadingIs(s[1..], NotCloseQuote);
      var n := Leading(s[1..], NotCloseQuote);
      assert s[1..] == body + (["」"[0]] + rest);
      assert s == "「" + s[1..];
    }
  }

  lemma DigitsAre(s: string, digits: string, rest: string)
    ensures Digits(s) == Some((digits, rest)) <==>
              digits != "" && AllDigits(digits) && s == digits + rest && (rest == "" || !IsDigit(rest[0]))
  {
    LeadingIs(s, IsDigit);
    if digits != "" && AllDigits(digits) && s == digits + rest && (rest == "" || !IsDigit(rest[0])) {
      LeadingOf(digits, rest, IsDigit);
    }
  }

  // ----- the shapes -------------------------------------------------------------------

  ghost predicate VersionShape(s: string, version: string, rest: string, note: string) {
    '」' !in version && s == "「" + (version + ("」" + rest)) && EndsIn("でルール版宣言", rest, note)
  }

  ghost predicate StartShape(s: string, gameId: string, digits: string, rest: string, note: string) {
    '」' !in gameId && digits != "" && AllDigits(digits)
    && s == "「" + (gameId + ("」" + ("と" + (digits + rest)))) && EndsIn("で対局開始", rest, note)
  }

  ghost predicate EndShape(s: string, word: string, rest: string, note: string) {
    IsWord(word) && s == "「" + (word + rest) && EndsIn("」で対局終了", rest, note)
  }

  ghost predicate PassShape(s: string, word: string, rest: string, note: string) {
    IsWord(word) && s == word + rest && EndsIn("パス", rest, note)
  }

  ghost predicate PlaceShape(s: string, row: int, col: int, word: string, rest: string, note: string) {
    0 <= row < 8 && 0 <= col < 8 && IsWord(word)
    && s == [Digit(row)] + ("と" + ([Digit(col)] + ("で" + (word + rest)))) && EndsIn("着手", rest, note)
  }

  /** The text has the shape of this line. */
  ghost predicate Says(s: string, line: Line) {
    match line
    case BlankLine => s == ""
    case CommentLine(text) => s == "#" + text
    case VersionLine(version) => exists rest, note :: VersionShape(s, version, rest, note)
    case StartLine(gameId, seed) =>
      exists digits, rest, note :: StartShape(s, gameId, digits, rest, note) && DigitsValue(digits) == seed
    case EndLine(word) => exists rest, note :: EndShape(s, word, rest, note)
    case PassLine(word) => exists rest, note :: PassShape(s, word, rest, note)
    case PlaceLine(row, col, word, note) => exists rest :: PlaceShape(s, row, col, word, rest, note)
    case BadLine => false
  }

  // ----- each recogniser accepts its shape --------------------------------------------

  lemma ParseVersionIs(s: string, version: string)
    ensures ParseVersion(s) == Some(VersionLine(version)) <==> Says(s, VersionLine(version))
    ensures ParseVersion(s).Some? ==> ParseVersion(s).value.VersionLine?
  {
    hide Quoted, LiteralTail, EndsIn;
    if ParseVersion(s) == Some(VersionLine(version)) {
      var rest := Quoted(s).value.1;
      QuotedIs(s, version, rest);
      LiteralTailIs("でルール版宣言", rest, LiteralTail("でルール版宣言", rest).value);
      assert VersionShape(s, version, rest, LiteralTail("でルール版宣言", rest).value);
    }
    if Says(s, VersionLine(version)) {
      var rest, note :| VersionShape(s, version, rest, note);
      QuotedIs(s, version, rest);
      LiteralTailIs("でルール版宣言", rest, note);
    }
  }

  lemma ParseStartIs(s: string, gameId: string, seed: nat)
    ensures ParseStart(s) == Some(StartLine(gameId, seed)) <==> Says(s, StartLine(gameId, seed))
    ensures ParseStart(s).Some? ==> ParseStart(s).value.StartLine?
  {
    hide Quoted, LiteralTail, EndsIn, Digits, StripPrefix, DigitsValue;
    if ParseStart(s) == Some(StartLine(gameId, seed)) {
      var after := Quoted(s).value.1;
      QuotedIs(s, gameId, after);
      var numbered := StripPrefix("と", after).value;
      StrippedIs("と", after, numbered);
      var (digits, rest) := Digits(numbered).value;
      DigitsAre(numbered, digits, rest);
      LiteralTailIs("で対局開始", rest, LiteralTail("で対局開始", rest).value);
      assert StartShape(s, gameId, digits, rest, LiteralTail("で対局開始", rest).value);
    }
    if Says(s, StartLine(gameId, seed)) {
      var digits, rest, note :| StartShape(s, gameId, digits, rest, note) && DigitsValue(digits) == seed;
      QuotedIs(s, gameId, "と" + (digits + rest));
      StripPrefixOf("と", digits + rest);
      EndsInStarts("で対局開始", rest, note);
      DigitsAre(digits + rest, digits, rest);
      LiteralTailIs("で対局開始", rest, note);
    }
  }

  lemma StrippedIs(prefix: string, s: string, rest: string)
    ensures StripPrefix(prefix, s) == Some(rest) <==> s == prefix + rest
  {
  }

  lemma EndsInStarts(literal: string, s: string, note: string)
    requires EndsIn(literal, s, note) && literal != ""
    ensures s != "" && s[0] == literal[0] && |s| >= |literal| && s[..|literal|] == literal
  {
  }

  lemma ParseEndIs(s: string, word: string)
    ensures ParseEnd(s) == Some(EndLine(word)) <==> Says(s, EndLine(word))
    ensures ParseEnd(s).Some? ==> ParseEnd(s).value.EndLine?
  {
    hide TurnWord, LiteralTail, EndsIn, StripPrefix;
    if ParseEnd(s) == Some(EndLine(word)) {
      var inner := StripPrefix("「", s).value;
      StrippedIs("「", s, inner);
      var rest := TurnWord(inner).value.1;
      TurnWordIs(inner, word, rest);
      LiteralTailIs("」で対局終了", rest, LiteralTail("」で対局終了", rest).value);
      assert EndShape(s, word, rest, LiteralTail("」で対局終了", rest).value);
    }
    if Says(s, EndLine(word)) {
      var rest, note :| EndShape(s, word, rest, note);
      StripPrefixOf("「", word + rest);
      TurnWordIs(word + rest, word, rest);
      LiteralTailIs("」で対局終了", rest, note);
    }
  }

  lemma ParsePassIs(s: string, word: string)
    ensures ParsePass(s) == Some(PassLine(word)) <==> Says(s, PassLine(word))
    ensures ParsePass(s).Some? ==> ParsePass(s).value.PassLine?
  {
    hide TurnWord, LiteralTail, EndsIn;
    if ParsePass(s) == Some(PassLine(word)) {
      var rest := TurnWord(s).value.1;
      TurnWordIs(s, word, rest);
      LiteralTailIs("パス", rest, LiteralTail("パス", rest).value);
      assert PassShape(s, word, rest, LiteralTail("パス", rest).value);
    }
    if Says(s, PassLine(word)) {
      var rest, note :| PassShape(s, word, rest, note);
      TurnWordIs(s, word, rest);
      LiteralTailIs("パス", rest, note);
    }
  }

  lemma BoardDigitIs(c: char, n: int)
    ensures IsBoardDigit(c) && DigitValue(c) == n <==> 0 <= n < 8 && c == Digit(n)
  {
    if 0 <= n < 8 {
      DigitIsDigit(n);
    }
  }

  lemma ParsePlaceIs(s: string, row: int, col: int, word: string, note: string)
    ensures ParsePlace(s) == Some(PlaceLine(row, col, word, note)) <==> Says(s, PlaceLine(row, col, word, note))
    ensures ParsePlace(s).Some? ==> ParsePlace(s).value.PlaceLine?
  {
    hide TurnWord, LiteralTail, EndsIn, StripPrefix, IsBoardDigit, DigitValue, Digit;
    if ParsePlace(s) == Some(PlaceLine(row, col, word, note)) {
      BoardDigitIs(s[0], row);
      var second := StripPrefix("と", s[1..]).value;
      StrippedIs("と", s[1..], second);
      BoardDigitIs(second[0], col);
      var after := StripPrefix("で", second[1..]).value;
      StrippedIs("で", second[1..], after);
      var rest := TurnWord(after).value.1;
      TurnWordIs(after, word, rest);
      LiteralTailIs("着手", rest, note);
      assert s == [s[0]] + s[1..] && second == [second[0]] + second[1..];
      assert PlaceShape(s, row, col, word, rest, note);
    }
    if Says(s, PlaceLine(row, col, word, note)) {
      var rest :| PlaceShape(s, row, col, word, rest, note);
      var after := word + rest;
      var second := [Digit(col)] + ("で" + after);
      assert s[1..] == "と" + second && second[1..] == "で" + after;
      BoardDigitIs(s[0], row);
      BoardDigitIs(second[0], col);
      StripPrefixOf("と", second);
      StripPrefixOf("で", after);
      TurnWordIs(after, word, rest);
      LiteralTailIs("着手", rest, note);
    }
  }

  // ----- no line has two shapes -------------------------------------------------------

  /** How a recogniser's line begins. */
  lemma Beginnings(s: string)
    ensures ParseVersion(s).Some? || ParseStart(s).Some? || ParseEnd(s).Some? ==> s != "" && s[0] == '「'
    ensures ParsePass(s).Some? ==> s != "" && (s[0] == '黒' || s[0] == '白')
    ensures ParsePlace(s).Some? ==> s != "" && IsBoardDigit(s[0])
  {
    hide LiteralTail, Digits, Tail;
    if ParseEnd(s).Some? {
      StrippedIs("「", s, StripPrefix("「", s).value);
    }
    if ParsePass(s).Some? {
      TurnWordIs(s, TurnWord(s).value.0, TurnWord(s).value.1);
    }
  }

  lemma VersionExcludes(s: string)
    ensures ParseVersion(s).Some? ==> ParseStart(s).None?
  {
    hide Quoted, Digits, EndsIn;
    if ParseVersion(s).Some? {
      var rest := Quoted(s).value.1;
      LiteralTailIs("でルール版宣言", rest, LiteralTail("でルール版宣言", rest).value);
      EndsInStarts("でルール版宣言", rest, LiteralTail("でルール版宣言", rest).value);
      StripPrefixDiffers("と", rest);
    }
  }

  lemma EndExcludes(s: string)
    ensures ParseEnd(s).Some? ==> ParseVersion(s).None? && ParseStart(s).None?
  {
    hide TurnWord, LiteralTail, EndsIn, StripPrefix, Quoted, Digits;
    if ParseEnd(s).Some? {
      var inner := StripPrefix("「", s).value;
      StrippedIs("「", s, inner);
      var (word, rest) := TurnWord(inner).value;
      TurnWordIs(inner, word, rest);
      var note := LiteralTail("」で対局終了", rest).value;
      LiteralTailIs("」で対局終了", rest, note);
      EndsInStarts("」で対局終了", rest, note);
      var after := rest[1..];
      assert rest == "」" + after && after[0] == 'で' && after[1] == '対' by {
        assert rest[..6] == "」で対局終了";
        assert rest[1] == 'で' && rest[2] == '対';
      }
      QuotedIs(s, word, after);
      StripPrefixDiffers("と", after);
      StripPrefixDiffersLater("でルール版宣言", after, 1);
      NoLiteral("でルール版宣言", after);
    }
  }

  /** The recogniser of its own kind finds the line, and no earlier one does. */
  lemma KindDecides(s: string, line: Line)
    requires !line.BadLine?
    ensures ParseLine(s) == line <==>
              match line
              case BlankLine => s == ""
              case CommentLine(text) => s != "" && s[0] == '#' && s[1..] == text
              case VersionLine(_) => ParseVersion(s) == Some(line)
              case StartLine(_, _) => ParseStart(s) == Some(line)
              case EndLine(_) => ParseEnd(s) == Some(line)
              case PassLine(_) => ParsePass(s) == Some(line)
              case PlaceLine(_, _, _, _) => ParsePlace(s) == Some(line)
  {
    hide ParseVersion, ParseStart, ParseEnd, ParsePass, ParsePlace;
    Beginnings(s);
    VersionExcludes(s);
    EndExcludes(s);
    OwnKinds(s);
  }

  lemma OwnKinds(s: string)
    ensures ParseVersion(s).Some? ==> ParseVersion(s).value.VersionLine?
    ensures ParseStart(s).Some? ==> ParseStart(s).value.StartLine?
    ensures ParseEnd(s).Some? ==> ParseEnd(s).value.EndLine?
    ensures ParsePass(s).Some? ==> ParsePass(s).value.PassLine?
    ensures ParsePlace(s).Some? ==> ParsePlace(s).value.PlaceLine?
  {
    hide Quoted, LiteralTail, Digits, TurnWord, StripPrefix;
  }

  /** The line language: a line is read as saying something exactly when it has that shape, so that
      no text has two meanings and every text without a shape is refused. */
  lemma LineSays(s: string, line: Line)
    requires !line.BadLine?
    ensures ParseLine(s) == line <==> Says(s, line)
  {
    hide ParseLine, ParseVersion, ParseStart, ParseEnd, ParsePass, ParsePlace, VersionShape, StartShape, EndShape,
         PassShape, PlaceShape, DigitsValue;
    KindDecides(s, line);
    match line {
      case BlankLine =>
      case CommentLine(text) => assert s != "" ==> s == [s[0]] + s[1..];
      case VersionLine(version) => ParseVersionIs(s, version);
      case StartLine(gameId, seed) => ParseStartIs(s, gameId, seed);
      case EndLine(word) => ParseEndIs(s, word);
      case PassLine(word) => ParsePassIs(s, word);
      case PlaceLine(row, col, word, note) => ParsePlaceIs(s, row, col, word, note);
    }
  }

  lemma BadLinesSayNothing(s: string)
    ensures ParseLine(s) == BadLine <==> forall line: Line :: !line.BadLine? ==> !Says(s, line)
  {
    hide ParseLine, Says;
    forall line: Line | !line.BadLine?
      ensures ParseLine(s) == line <==> Says(s, line)
    {
      LineSays(s, line);
    }
    if ParseLine(s) != BadLine {
      assert Says(s, ParseLine(s));
    }
  }
}
