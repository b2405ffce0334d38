/** Strings as the record code uses them: decimal numbers, lines, trimming, literal prefixes. */
module Text {
  import opened Options

  // ----- decimal numbers --------------------------------------------------------------

  function Digit(d: nat): char
    requires d < 10
  {
    ['0', '1', '2', '3', '4', '5', '6', '7', '8', '9'][d]
  }

  predicate IsDigit(c: char) {
    '0' <= c <= '9'
  }

  function DigitValue(c: char): nat
    requires IsDigit(c)
  {
    c as int - '0' as int
  }

  predicate AllDigits(s: string) {
    forall i :: 0 <= i < |s| ==> IsDigit(s[i])
  }

  /** A natural number in base ten, as %d prints it. */
  function Decimal(n: nat): string {
    if n < 10 then [Digit(n)] else Decimal(n / 10) + [Digit(n % 10)]
  }

  /** Any integer, as %d prints it. */
  function SignedDecimal(n: int): string {
    if n < 0 then "-" + Decimal(-n) else Decimal(n)
  }

  function DigitsValue(s: string): nat
    requires AllDigits(s)
  {
    if s == "" then 0 else DigitsValue(s[..|s| - 1]) * 10 + DigitValue(s[|s| - 1])
  }

  lemma DigitIsDigit(d: nat)
    requires d < 10
    ensures IsDigit(Digit(d)) && DigitValue(Digit(d)) == d
  {
  }

  /** Printing and reading back: the digits of n denote n. */
  lemma {:induction false} DecimalReadsBack(n: nat)
    ensures AllDigits(Decimal(n)) && Decimal(n) != "" && DigitsValue(Decimal(n)) == n
  {
    hide Digit, DigitValue, IsDigit;
    if n < 10 {
      DigitIsDigit(n);
      assert Decimal(n)[..0] == "";
    } else {
      DecimalReadsBack(n / 10);
      DigitIsDigit(n % 10);
      var before := Decimal(n / 10);
      assert Decimal(n)[..|before|] == before;
    }
  }

  /** Distinct numbers print differently. */
  lemma DecimalInjective(m: nat, n: nat)
    requires Decimal(m) == Decimal(n)
    ensures m == n
  {
    DecimalReadsBack(m);
    DecimalReadsBack(n);
  }

  // ----- leading characters and literal prefixes ----------------------------------------

  /** How many characters at the front satisfy p. */
  function Leading(s: string, p: char -> bool): (n: nat)
    ensures n <= |s|
  {
    if s != "" && p(s[0]) then 1 + Leading(s[1..], p) else 0
  }

  lemma {:induction false} LeadingOf(a: string, b: string, p: char -> bool)
    requires forall i :: 0 <= i < |a| ==> p(a[i])
    requires b == "" || !p(b[0])
    ensures Leading(a + b, p) == |a| && (a + b)[|a|..] == b && (a + b)[..|a|] == a
  {
    if a == "" {
      assert a + b == b;
    } else {
      LeadingOf(a[1..], b, p);
      assert (a + b)[1..] == a[1..] + b;
    }
  }

  lemma {:induction false} LeadingIs(s: string, p: char -> bool)
    ensures var n := Leading(s, p);
            (forall i :: 0 <= i < n ==> p(s[i])) && (n < |s| ==> !p(s[n]))
  {
    if s != "" && p(s[0]) {
      LeadingIs(s[1..], p);
    }
  }

  function StripPrefix(prefix: string, s: string): Option<string> {
    if prefix <= s then Some(s[|prefix|..]) else None
  }

  lemma StripPrefixOf(prefix: string, rest: string)
    ensures StripPrefix(prefix, prefix + rest) == Some(rest)
  {
  }

  lemma StripPrefixDiffers(prefix: string, s: string)
    requires prefix != "" && (s == "" || s[0] != prefix[0])
    ensures StripPrefix(prefix, s) == None
  {
  }

  // ----- lines ------------------------------------------------------------------------

  /** strings.Split(s, "\n"). */
  function Split(s: string): (lines: seq<string>)
    ensures |lines| >= 1
  {
    if s == "" then [""]
    else
      var rest := Split(s[1..]);
      if s[0] == '\n' then [""] + rest else [[s[0]] + rest[0]] + rest[1..]
  }

  /** strings.Count(s, "\n"). */
  function NewlineCount(s: string): nat {
    if s == "" then 0 else (if s[0] == '\n' then 1 else 0) + NewlineCount(s[1..])
  }

  lemma {:induction false} NewlinesAreLines(s: string)
    ensures |Split(s)| == NewlineCount(s) + 1
  {
    if s != "" {
      NewlinesAreLines(s[1..]);
    }
  }

  /** Texts joined by a newline split into the lines of the one, then those of the other. */
  lemma {:induction false} SplitJoined(a: string, b: string)
    ensures Split(a + "\n" + b) == Split(a) + Split(b)
  {
    hide Split;
    var s := a + "\n" + b;
    SplitOneMore(s);
    SplitOneMore(a);
    if a == "" {
      assert s[0] == '\n' && s[1..] == b;
    } else {
      SplitJoined(a[1..], b);
      assert s[1..] == a[1..] + "\n" + b && s[0] == a[0];
      var rest, more := Split(a[1..]), Split(b);
      assert (rest + more)[0] == rest[0] && (rest + more)[1..] == rest[1..] + more;
    }
  }

  lemma SplitOneMore(s: string)
    ensures s == "" ==> Split(s) == [""]
    ensures s != "" && s[0] == '\n' ==> Split(s) == [""] + Split(s[1..])
    ensures s != "" && s[0] != '\n' ==> Split(s) == [[s[0]] + Split(s[1..])[0]] + Split(s[1..])[1..]
  {
  }

  lemma {:induction false} SplitNoNewline(s: string)
    requires '\n' !in s
    ensures Split(s) == [s]
  {
    if s != "" {
      SplitNoNewline(s[1..]);
      assert [s[0]] + s[1..] == s;
    }
  }

  /** Every line, each followed by a newline. */
  function Lines(lines: seq<string>): string {
    if |lines| == 0 then "" else lines[0] + "\n" + Lines(lines[1..])
  }

  lemma {:induction false} LinesConcat(a: seq<string>, b: seq<string>)
    ensures Lines(a + b) == Lines(a) + Lines(b)
  {
    hide Lines;
    LinesOneMore(a);
    LinesOneMore(a + b);
    if |a| == 0 {
      assert a + b == b;
    } else {
      LinesConcat(a[1..], b);
      assert (a + b)[1..] == a[1..] + b && (a + b)[0] == a[0];
      var front, more, rest := a[0] + "\n", Lines(a[1..]), Lines(b);
      assert (front + more) + rest == front + (more + rest);
    }
  }

  lemma LinesOneMore(lines: seq<string>)
    ensures Lines(lines) == if |lines| == 0 then "" else lines[0] + "\n" + Lines(lines[1..])
  {
  }

  lemma LinesAppend(lines: seq<string>, line: string)
    ensures Lines(lines + [line]) == Lines(lines) + line + "\n"
  {
    LinesConcat(lines, [line]);
    assert Lines([line]) == line + "\n" + Lines([]);
    assert Lines(lines) + (line + "\n" + "") == Lines(lines) + line + "\n";
  }

  predicate NoNewlines(lines: seq<string>) {
    forall i :: 0 <= i < |lines| ==> '\n' !in lines[i]
  }

  /** Writing lines and splitting them again gives the lines and one empty rest. */
  lemma {:induction false} SplitLines(lines: seq<string>)
    requires NoNewlines(lines)
    ensures Split(Lines(lines)) == lines + [""]
  {
    if |lines| > 0 {
      SplitLines(lines[1..]);
      SplitNoNewline(lines[0]);
      SplitJoined(lines[0], Lines(lines[1..]));
      assert [lines[0]] + (lines[1..] + [""]) == lines + [""];
    }
  }

  // ----- white space ------------------------------------------------------------------

  /** The white space that strings.TrimSpace removes. */
  predicate IsSpace(c: char) {
    c == ' ' || '\t' <= c <= '\r' || c == '\U{0085}' || c == '\U{00A0}' || c == '\U{1680}'
    || '\U{2000}' <= c <= '\U{200A}' || c == '\U{2028}' || c == '\U{2029}' || c == '\U{202F}'
    || c == '\U{205F}' || c == '\U{3000}'
  }

  /** The narrower class that \s names in a pattern: tab, newline, form feed, return, space. */
  predicate IsPatternSpace(c: char) {
    c == ' ' || c == '\t' || c == '\n' || c == '\U{000C}' || c == '\r'
  }

  function TrimLeft(s: string): string {
    if s != "" && IsSpace(s[0]) then TrimLeft(s[1..]) else s
  }

  function TrimRight(s: string): string {
    if s != "" && IsSpace(s[|s| - 1]) then TrimRight(s[..|s| - 1]) else s
  }

  /** strings.TrimSpace. */
  function Trim(s: string): string {
    TrimRight(TrimLeft(s))
  }

  lemma TrimUnspaced(s: string)
    requires s == "" || (!IsSpace(s[0]) && !IsSpace(s[|s| - 1]))
    ensures Trim(s) == s
  {
  }

  lemma {:induction false} TrimRightEnds(s: string)
    ensures var t := TrimRight(s);
            t == "" || (t[0] == s[0] && !IsSpace(t[|t| - 1]))
    ensures |TrimRight(s)| <= |s|
  {
    if s != "" && IsSpace(s[|s| - 1]) {
      TrimRightEnds(s[..|s| - 1]);
    }
  }
}
