/** Which line of a record a diagnostic of the interpreter is about (server/internal/replay/decode.go).
    What runs is the harness, the record and one closing call in one program, so that the line
    that a diagnostic names has to be taken back to the record. */
module Diagnostics {
  import opened Options
  import opened Text
  import opened Grammar
  import opened RoundTrip

  predicate NotCloseBracket(c: char) {
    c != ']'
  }

  predicate NotOpenParenthesis(c: char) {
    c != '('
  }

  /** \s*[:：] */
  predicate ColonFollows(s: string) {
    var rest := s[Leading(s, IsPatternSpace)..];
    rest != "" && (rest[0] == ':' || rest[0] == '：')
  }

  /** \[([^\]]+)\][^(]*\((\d+)行目\)\s*[:：] at the very start of s: the digits. */
  function DiagnosticAt(s: string): (r: Option<string>)
    ensures r.Some? ==> AllDigits(r.value)
  {
    match StripPrefix("[", s)
    case None => None
    case Some(rest) =>
      var kind := Leading(rest, NotCloseBracket);
      match StripPrefix("]", rest[kind..])
      case None => None
      case Some(place) =>
        match StripPrefix("(", place[Leading(place, NotOpenParenthesis)..])
        case None => None
        case Some(inner) =>
          match Digits(inner)
          case None => None
          case Some((digits, outer)) =>
            match StripPrefix("行目)", outer)
            case None => None
            case Some(end) => if kind > 0 && ColonFollows(end) then Some(digits) else None
  }

  /** The leftmost place where the pattern matches. */
  function FindDiagnostic(s: string): (r: Option<string>)
    ensures r.Some? ==> AllDigits(r.value)
  {
    if DiagnosticAt(s).Some? then DiagnosticAt(s) else if s == "" then None else FindDiagnostic(s[1..])
  }

  /** The record's line that a diagnostic names, or 0. */
  function LocateFailure(harness: string, diagnostic: string, source: string): int {
    match FindDiagnostic(diagnostic)
    case None => 0
    case Some(digits) =>
      match Atoi(digits)
      case None => 0
      case Some(combinedLine) => LocateLine(harness, source, combinedLine)
  }

  /** A diagnostic as the interpreter writes it: its kind, the file, the line, and the rest after a
      colon. */
  function DiagnosticText(kind: string, file: string, line: nat, colon: string, rest: string): string {
    "[" + (kind + ("]" + (file + ("(" + (Decimal(line) + ("行目)" + (colon + rest)))))))
  }

  predicate Plain(kind: string, file: string) {
    kind != "" && (forall i :: 0 <= i < |kind| ==> NotCloseBracket(kind[i]))
    && forall i :: 0 <= i < |file| ==> NotOpenParenthesis(file[i])
  }

  /** A colon of either width, with space before it or without. */
  predicate IsColon(colon: string) {
    colon != "" && (colon[|colon| - 1] == ':' || colon[|colon| - 1] == '：')
    && forall i :: 0 <= i < |colon| - 1 ==> IsPatternSpace(colon[i])
  }

  lemma ColonIsFound(colon: string, rest: string)
    requires IsColon(colon)
    ensures ColonFollows(colon + rest)
  {
    var gap, last := colon[..|colon| - 1], [colon[|colon| - 1]];
    LeadingOf(gap, last + rest, IsPatternSpace);
    assert colon + rest == gap + (last + rest);
  }

  lemma DiagnosticAtOf(kind: string, file: string, line: nat, colon: string, rest: string)
    requires Plain(kind, file) && IsColon(colon)
    ensures DiagnosticAt(DiagnosticText(kind, file, line, colon, rest)) == Some(Decimal(line))
  {
    hide StripPrefix, Decimal, Digits, ColonFollows, IsColon;
    var end := colon + rest;
    var inner := Decimal(line) + ("行目)" + end);
    var place := file + ("(" + inner);
    var bracket := kind + ("]" + place);
    StripPrefixOf("[", bracket);
    LeadingOf(kind, "]" + place, NotCloseBracket);
    StripPrefixOf("]", place);
    LeadingOf(file, "(" + inner, NotOpenParenthesis);
    StripPrefixOf("(", inner);
    DigitsOf(line, "行目)" + end);
    StripPrefixOf("行目)", end);
    ColonIsFound(colon, rest);
  }

  lemma {:induction false} FindAfter(before: string, s: string)
    requires '[' !in before && DiagnosticAt(s).Some?
    ensures FindDiagnostic(before + s) == DiagnosticAt(s)
  {
    hide DiagnosticAt;
    if before == "" {
      assert before + s == s;
    } else {
      NoBracket(before + s);
      assert (before + s)[1..] == before[1..] + s;
      FindAfter(before[1..], s);
    }
  }

  lemma NoBracket(s: string)
    requires s != "" && s[0] != '['
    ensures DiagnosticAt(s) == None
  {
    StripPrefixDiffers("[", s);
  }

  /** A diagnostic about a line of the combined program names the record's line with the same text,
      if the line is one of the record's, and no line of it otherwise. */
  lemma FailureIsLocated(harness: string, source: string, before: string, kind: string, file: string, line: nat,
                         colon: string, rest: string)
    requires '[' !in before && Plain(kind, file) && IsColon(colon)
    requires 1 <= line <= |Split(Combined(harness, source))| <= 0x7fff_ffff_ffff_ffff
    ensures var located := LocateFailure(harness, before + DiagnosticText(kind, file, line, colon, rest), source);
            if |Split(harness)| < line <= |Split(harness)| + |Split(source)|
            then 1 <= located <= |Split(source)|
              && Split(source)[located - 1] == Split(Combined(harness, source))[line - 1]
            else located == 0
  {
    hide DiagnosticAt, FindDiagnostic, DiagnosticText, Split, Combined, LocateLine, DigitsValue, IsColon;
    DiagnosticAtOf(kind, file, line, colon, rest);
    FindAfter(before, DiagnosticText(kind, file, line, colon, rest));
    DecimalReadsBack(line);
    LocatedLineIsItsOwn(harness, source, line);
  }

  lemma {:induction false} FindNowhere(s: string)
    requires '[' !in s
    ensures FindDiagnostic(s) == None
  {
    hide DiagnosticAt;
    if s == "" {
      NoBracketAtAll(s);
    } else {
      NoBracket(s);
      FindNowhere(s[1..]);
    }
  }

  lemma NoBracketAtAll(s: string)
    requires s == ""
    ensures DiagnosticAt(s) == None
  {
    StripPrefixDiffers("[", s);
  }

  /** A message in another form blames no line. */
  lemma OtherMessagesBlameNoLine(harness: string, source: string, message: string)
    requires '[' !in message
    ensures LocateFailure(harness, message, source) == 0
  {
    FindNowhere(message);
  }
}
