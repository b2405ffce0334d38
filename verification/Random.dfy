/** The linear congruential generator behind the next colour. */
module Random {
  import opened Protocol
  import opened Rules

  /** The state after n draws. */
  function Drawn(seed: int, n: nat): int {
    if n == 0 then seed else NextRandom(Drawn(seed, n - 1))
  }

  /** One draw stays in 32 bits, yields a colour, and its intermediate product is exact in a double. */
  lemma DrawInRange(x: int)
    ensures IsUint32(NextRandom(x)) && IsColor(ColorOf(NextRandom(x)))
    ensures IsUint32(x) ==> 0 <= x * 1664525 + 1013904223 < 0x20_0000_0000_0000
  {
  }

  /** The inverse draw: 4276115653 is the inverse of the multiplier modulo 2^32. */
  function PreviousRandom(y: int): int {
    ((y - 1013904223) * 4276115653) % 4294967296
  }

  lemma PreviousOfNext(x: int)
    requires IsUint32(x)
    ensures PreviousRandom(NextRandom(x)) == x
  {
    var q := (x * 1664525 + 1013904223) / 4294967296;
    var r := NextRandom(x);
    assert r == x * 1664525 + 1013904223 - q * 4294967296;
    Residue((r - 1013904223) * 4276115653, 1657219 * x - q * 4276115653, x);
  }

  lemma NextOfPrevious(y: int)
    requires IsUint32(y)
    ensures NextRandom(PreviousRandom(y)) == y
  {
    var z := (y - 1013904223) * 4276115653;
    var p := z / 4294967296;
    var x := PreviousRandom(y);
    assert x == z - p * 4294967296;
    Residue(x * 1664525 + 1013904223, 1657219 * (y - 1013904223) - p * 1664525, y);
  }

  lemma Residue(a: int, q: int, r: int)
    requires a == q * 4294967296 + r && IsUint32(r)
    ensures a % 4294967296 == r
  {
  }

  /** Distinct seeds give distinct generator states after every number of draws. */
  lemma {:induction false} DistinctSeedsStayDistinct(a: int, b: int, n: nat)
    requires IsUint32(a) && IsUint32(b) && a != b
    ensures IsUint32(Drawn(a, n)) && IsUint32(Drawn(b, n)) && Drawn(a, n) != Drawn(b, n)
  {
    if n > 0 {
      DistinctSeedsStayDistinct(a, b, n - 1);
      PreviousOfNext(Drawn(a, n - 1));
      PreviousOfNext(Drawn(b, n - 1));
      DrawInRange(Drawn(a, n - 1));
      DrawInRange(Drawn(b, n - 1));
    }
  }
}
