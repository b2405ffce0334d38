/** Well-formed UTF-8, as the standard library checks it for server/main.go. The check by byte ranges
    is proved to accept exactly the encodings of sequences of Unicode scalar values. */
module Utf8 {
  type Byte = x: int | 0 <= x < 256

  predicate Continues(b: Byte) {
    0x80 <= b <= 0xBF
  }

  /** The length of the well-formed sequence at the front, or 0 (table 3-7 of the Unicode Standard). */
  function RuneLength(s: seq<Byte>): (n: nat)
    ensures n <= 4 && n <= |s|
  {
    if |s| >= 1 && s[0] <= 0x7F then 1
    else if |s| >= 2 && 0xC2 <= s[0] <= 0xDF && Continues(s[1]) then 2
    else if |s| >= 3 && Continues(s[2])
      && (|| (s[0] == 0xE0 && 0xA0 <= s[1] <= 0xBF)
          || ((0xE1 <= s[0] <= 0xEC || 0xEE <= s[0] <= 0xEF) && Continues(s[1]))
          || (s[0] == 0xED && 0x80 <= s[1] <= 0x9F)) then 3
    else if |s| >= 4 && Continues(s[2]) && Continues(s[3])
      && (|| (s[0] == 0xF0 && 0x90 <= s[1] <= 0xBF)
          || (0xF1 <= s[0] <= 0xF3 && Continues(s[1]))
          || (s[0] == 0xF4 && 0x80 <= s[1] <= 0x8F)) then 4
    else 0
  }

  predicate Utf8Valid(s: seq<Byte>)
    decreases |s|
  {
    s == [] || (RuneLength(s) > 0 && Utf8Valid(s[RuneLength(s)..]))
  }

  // ----- what is well formed ----------------------------------------------------------

  /** A code point that is no surrogate. */
  predicate IsScalar(c: int) {
    0 <= c <= 0xD7FF || 0xE000 <= c <= 0x10FFFF
  }

  /** Section 3 of RFC 3629. */
  function EncodeRune(c: int): (r: seq<Byte>)
    requires IsScalar(c)
    ensures 1 <= |r| <= 4
  {
    if c < 0x80 then [c]
    else if c < 0x800 then [0xC0 + c / 64, 0x80 + c % 64]
    else if c < 0x10000 then [0xE0 + c / 4096, 0x80 + c / 64 % 64, 0x80 + c % 64]
    else [0xF0 + c / 262144, 0x80 + c / 4096 % 64, 0x80 + c / 64 % 64, 0x80 + c % 64]
  }

  function EncodeRunes(runes: seq<int>): seq<Byte>
    requires forall i :: 0 <= i < |runes| ==> IsScalar(runes[i])
  {
    if runes == [] then [] else EncodeRune(runes[0]) + EncodeRunes(runes[1..])
  }

  function DecodeRune(s: seq<Byte>): int
    requires RuneLength(s) > 0
  {
    match RuneLength(s)
    case 1 => s[0]
    case 2 => WithSixBits(s[0] - 0xC0, s[1] - 0x80)
    case 3 => WithSixBits(WithSixBits(s[0] - 0xE0, s[1] - 0x80), s[2] - 0x80)
    case _ => WithSixBits(WithSixBits(WithSixBits(s[0] - 0xF0, s[1] - 0x80), s[2] - 0x80), s[3] - 0x80)
  }

  /** Six more bits at the low end. */
  function WithSixBits(high: int, low: int): int {
    64 * high + low
  }

  lemma SixBitsSplit(high: int, low: int)
    requires 0 <= high && 0 <= low < 64
    ensures WithSixBits(high, low) / 64 == high && WithSixBits(high, low) % 64 == low
  {
  }

  lemma RuneAtFront(s: seq<Byte>)
    requires RuneLength(s) > 0
    ensures IsScalar(DecodeRune(s)) && s[..RuneLength(s)] == EncodeRune(DecodeRune(s))
  {
    var c := DecodeRune(s);
    if RuneLength(s) == 2 {
      SixBitsSplit(s[0] - 0xC0, s[1] - 0x80);
    } else if RuneLength(s) == 3 {
      ThreeAtFront(s);
    } else if RuneLength(s) == 4 {
      FourAtFront(s);
    }
  }

  lemma ThreeAtFront(s: seq<Byte>)
    requires RuneLength(s) == 3
    ensures IsScalar(DecodeRune(s)) && s[..3] == EncodeRune(DecodeRune(s))
  {
    var a, b, c := s[0] as int - 0xE0, s[1] as int - 0x80, s[2] as int - 0x80;
    var high := WithSixBits(a, b);
    SixBitsSplit(a, b);
    SixBitsSplit(high, c);
    assert DecodeRune(s) == WithSixBits(high, c);
    assert WithSixBits(high, c) / 4096 == WithSixBits(high, c) / 64 / 64;
    assert 0x800 <= WithSixBits(high, c) < 0x10000;
  }

  lemma FourAtFront(s: seq<Byte>)
    requires RuneLength(s) == 4
    ensures IsScalar(DecodeRune(s)) && s[..4] == EncodeRune(DecodeRune(s))
  {
    var a, b, c, d := s[0] as int - 0xF0, s[1] as int - 0x80, s[2] as int - 0x80, s[3] as int - 0x80;
    var top := WithSixBits(a, b);
    var high := WithSixBits(top, c);
    SixBitsSplit(a, b);
    SixBitsSplit(top, c);
    SixBitsSplit(high, d);
    var r := WithSixBits(high, d);
    assert DecodeRune(s) == r;
    assert r / 4096 == r / 64 / 64 && r / 262144 == r / 64 / 64 / 64;
    assert 0x10000 <= r <= 0x10FFFF;
  }

  lemma EncodedRune(c: int, rest: seq<Byte>)
    requires IsScalar(c)
    ensures RuneLength(EncodeRune(c) + rest) == |EncodeRune(c)|
  {
    hide RuneLength;
    RuneOf(c);
    RunesStay(EncodeRune(c), rest);
  }

  lemma RuneOf(c: int)
    requires IsScalar(c)
    ensures RuneLength(EncodeRune(c)) == |EncodeRune(c)|
  {
    if 0x800 <= c < 0x10000 {
      ThreeByteRune(c);
    } else if c >= 0x10000 {
      FourByteRune(c);
    }
  }

  lemma ThreeByteRune(c: int)
    requires IsScalar(c) && 0x800 <= c < 0x10000
    ensures RuneLength(EncodeRune(c)) == 3
  {
    var high := c / 4096;
    assert c / 64 / 64 == high && c / 64 == 64 * high + c / 64 % 64;
  }

  lemma FourByteRune(c: int)
    requires IsScalar(c) && c >= 0x10000
    ensures RuneLength(EncodeRune(c)) == 4
  {
    var top := c / 262144;
    assert c / 4096 / 64 == top && c / 4096 == 64 * top + c / 4096 % 64;
  }

  lemma RunesStay(s: seq<Byte>, rest: seq<Byte>)
    requires RuneLength(s) == |s| > 0
    ensures RuneLength(s + rest) == |s|
  {
  }

  function DecodeRunes(s: seq<Byte>): (runes: seq<int>)
    requires Utf8Valid(s)
    ensures forall i :: 0 <= i < |runes| ==> IsScalar(runes[i])
    decreases |s|
  {
    if s == [] then []
    else
      RuneAtFront(s);
      [DecodeRune(s)] + DecodeRunes(s[RuneLength(s)..])
  }

  /** What is accepted is the encoding of scalar values. */
  lemma {:induction false} ValidIsEncoded(s: seq<Byte>)
    requires Utf8Valid(s)
    ensures EncodeRunes(DecodeRunes(s)) == s
    decreases |s|
  {
    hide RuneLength, EncodeRune, DecodeRune;
    if s != [] {
      RuneAtFront(s);
      ValidIsEncoded(s[RuneLength(s)..]);
      assert s == s[..RuneLength(s)] + s[RuneLength(s)..];
      assert DecodeRunes(s)[1..] == DecodeRunes(s[RuneLength(s)..]);
    }
  }

  /** Every encoding of scalar values is accepted. */
  lemma {:induction false} EncodedIsValid(runes: seq<int>)
    requires forall i :: 0 <= i < |runes| ==> IsScalar(runes[i])
    ensures Utf8Valid(EncodeRunes(runes))
  {
    hide RuneLength, EncodeRune;
    if runes != [] {
      EncodedRune(runes[0], EncodeRunes(runes[1..]));
      EncodedIsValid(runes[1..]);
      var s := EncodeRunes(runes);
      assert s[|EncodeRune(runes[0])|..] == EncodeRunes(runes[1..]);
    }
  }

  // ----- cutting ----------------------------------------------------------------------

  /** A well-formed text has a well-formed cut within three bytes of any place. */
  lemma {:induction false} CutNearby(s: seq<Byte>, n: nat)
    requires Utf8Valid(s) && n <= |s|
    ensures exists k :: n - 3 <= k <= n && 0 <= k && Utf8Valid(s[..k])
    decreases |s|
  {
    var first := RuneLength(s);
    if s == [] || n < first {
      assert Utf8Valid(s[..0]);
    } else {
      CutNearby(s[first..], n - first);
      var k :| n - first - 3 <= k <= n - first && 0 <= k && Utf8Valid(s[first..][..k]);
      RuneInFront(s[..first + k], s, first);
      assert s[..first + k][first..] == s[first..][..k];
      assert Utf8Valid(s[..first + k]);
    }
  }

  lemma RuneInFront(prefix: seq<Byte>, s: seq<Byte>, first: nat)
    requires prefix <= s && RuneLength(s) == first && first <= |prefix| && first > 0
    ensures RuneLength(prefix) == first
  {
  }

  lemma {:induction false} AsciiIsValid(s: seq<Byte>)
    requires forall i :: 0 <= i < |s| ==> s[i] <= 0x7F
    ensures Utf8Valid(s)
    decreases |s|
  {
    if s != [] {
      AsciiIsValid(s[1..]);
    }
  }

  lemma EmptyIsValid()
    ensures Utf8Valid([])
  {
  }
}
