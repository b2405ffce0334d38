/** The token bucket of one connection (server/main.go). Times are seconds, and may step back. */
module RateLimiting {
  datatype Bucket = Bucket(rate: real, burst: real, tokens: real, lastFill: real)

  /** The configuration keeps the rate and the burst at one or more; of the rate only its sign is used. */
  predicate BucketOk(b: Bucket) {
    b.rate > 0.0 && b.burst >= 1.0 && 0.0 <= b.tokens <= b.burst
  }

  function Least(a: real, b: real): real {
    if a < b then a else b
  }

  /** What comes in over some time. */
  function Earned(rate: real, elapsed: real): real {
    elapsed * rate
  }

  function Refill(b: Bucket, now: real): Bucket {
    if now - b.lastFill > 0.0
    then b.(tokens := Least(b.burst, b.tokens + Earned(b.rate, now - b.lastFill)), lastFill := now)
    else b
  }

  lemma EarningGrows(rate: real, a: real, b: real)
    requires rate > 0.0 && a <= b
    ensures Earned(rate, a) <= Earned(rate, b) && Earned(rate, b - a) >= 0.0
  {
  }

  lemma EarningsAdd(rate: real, a: real, b: real)
    ensures Earned(rate, a) + Earned(rate, b) == Earned(rate, a + b)
    ensures Earned(rate, 0.0) == 0.0
  {
  }

  /** Time may be read as often as one likes: two refills come to the one at the later reading. */
  lemma RefillsAddUp(b: Bucket, t1: real, t2: real)
    requires BucketOk(b)
    ensures Refill(Refill(b, t1), t2) == Refill(b, Later(t1, t2))
  {
    hide Earned;
    EarningGrows(b.rate, b.lastFill, Later(b.lastFill, t1));
    if t1 > b.lastFill && t2 > t1 {
      EarningsAdd(b.rate, t1 - b.lastFill, t2 - t1);
      EarningGrows(b.rate, t1, t2);
    }
  }

  function Later(a: real, b: real): real {
    if a > b then a else b
  }

  predicate Grants(b: Bucket, now: real) {
    Refill(b, now).tokens >= 1.0
  }

  function Allow(b: Bucket, now: real): Bucket {
    var full := Refill(b, now);
    if full.tokens < 1.0 then full else full.(tokens := full.tokens - 1.0)
  }

  lemma AllowKeepsOk(b: Bucket, now: real)
    requires BucketOk(b)
    ensures BucketOk(Allow(b, now)) && Allow(b, now).rate == b.rate && Allow(b, now).burst == b.burst
    ensures Allow(b, now).lastFill == if now > b.lastFill then now else b.lastFill
  {
    hide Earned;
    if now > b.lastFill {
      EarningGrows(b.rate, b.lastFill, now);
    }
  }

  // ----- many calls -------------------------------------------------------------------

  function AllowAll(b: Bucket, times: seq<real>): Bucket
    decreases |times|
  {
    if times == [] then b else AllowAll(Allow(b, times[0]), times[1..])
  }

  /** How many of the calls are granted. */
  function Granted(b: Bucket, times: seq<real>): nat
    decreases |times|
  {
    if times == [] then 0
    else (if Grants(b, times[0]) then 1 else 0) + Granted(Allow(b, times[0]), times[1..])
  }

  lemma {:induction false} AlwaysOk(b: Bucket, times: seq<real>)
    requires BucketOk(b)
    ensures BucketOk(AllowAll(b, times))
    decreases |times|
  {
    if times != [] {
      AllowKeepsOk(b, times[0]);
      AlwaysOk(Allow(b, times[0]), times[1..]);
    }
  }

  /** The latest of some readings of the clock. */
  function Latest(times: seq<real>): (t: real)
    requires times != []
    ensures t in times && forall u :: u in times ==> u <= t
  {
    if |times| == 1 then times[0]
    else
      var rest := Latest(times[1..]);
      assert times == [times[0]] + times[1..];
      if times[0] > rest then times[0] else rest
  }

  /** What a call finds beyond the burst, and the bucket cannot hold. */
  function Overflow(b: Bucket, now: real): real {
    var offered := b.tokens + Earned(b.rate, Later(b.lastFill, now) - b.lastFill);
    if offered > b.burst then offered - b.burst else 0.0
  }

  function Lost(b: Bucket, times: seq<real>): real
    decreases |times|
  {
    if times == [] then 0.0 else Overflow(b, times[0]) + Lost(Allow(b, times[0]), times[1..])
  }

  /** One call loses nothing but what overflows: the rest is granted or kept. */
  lemma OneCall(b: Bucket, now: real)
    requires BucketOk(b)
    ensures (if Grants(b, now) then 1.0 else 0.0) + Allow(b, now).tokens + Overflow(b, now)
         == b.tokens + Earned(b.rate, Allow(b, now).lastFill - b.lastFill)
  {
    hide Earned;
    EarningsAdd(b.rate, 0.0, 0.0);
  }

  /** Conservation, over any calls and whatever the clock does: the tokens there were and what the
      rate gives are granted, kept, or lost to the burst, to the last fraction of a token. */
  lemma {:induction false} TokensAreConserved(b: Bucket, times: seq<real>)
    requires BucketOk(b)
    ensures Granted(b, times) as real + AllowAll(b, times).tokens + Lost(b, times)
         == b.tokens + Earned(b.rate, AllowAll(b, times).lastFill - b.lastFill)
    ensures Lost(b, times) >= 0.0
    decreases |times|
  {
    hide Grants, Allow, Earned;
    if times == [] {
      EarningsAdd(b.rate, 0.0, 0.0);
    } else {
      var next := Allow(b, times[0]);
      OneCall(b, times[0]);
      AllowKeepsOk(b, times[0]);
      TokensAreConserved(next, times[1..]);
      var last := AllowAll(next, times[1..]).lastFill;
      EarningsAdd(b.rate, last - next.lastFill, next.lastFill - b.lastFill);
      assert (last - next.lastFill) + (next.lastFill - b.lastFill) == last - b.lastFill;
    }
  }

  /** A client that never lets the bucket overflow and is refused at the end has got every whole
      token there was, at whatever pace it called. */
  lemma NoTokenIsWithheld(b: Bucket, times: seq<real>, now: real)
    requires BucketOk(b) && Lost(b, times + [now]) == 0.0 && !Grants(AllowAll(b, times), now)
    ensures Granted(b, times + [now])
         == (b.tokens + Earned(b.rate, Later(b.lastFill, Latest(times + [now])) - b.lastFill)).Floor
  {
    hide Grants, Allow, Earned, Lost, Latest;
    AlwaysOk(b, times);
    AlwaysOk(b, times + [now]);
    TokensAreConserved(b, times + [now]);
    ClockKept(b, times + [now]);
    AllowAllAppend(b, times, now);
    RefusedForWant(AllowAll(b, times), now);
    WholeTokens(Granted(b, times + [now]), AllowAll(b, times + [now]).tokens);
  }

  lemma WholeTokens(n: nat, part: real)
    requires 0.0 <= part < 1.0
    ensures (n as real + part).Floor == n
  {
  }

  lemma RefusedForWant(b: Bucket, now: real)
    requires !Grants(b, now)
    ensures Allow(b, now).tokens < 1.0
  {
    hide Earned;
  }

  lemma {:induction false} AllowAllAppend(b: Bucket, times: seq<real>, now: real)
    ensures AllowAll(b, times + [now]) == Allow(AllowAll(b, times), now)
    decreases |times|
  {
    hide Allow;
    if times == [] {
      assert ([] + [now])[1..] == [];
    } else {
      AllowAllAppend(Allow(b, times[0]), times[1..], now);
      assert (times + [now])[1..] == times[1..] + [now];
    }
  }

  /** So what is granted comes out of the tokens there were and of the time that passes. */
  lemma GrantsArePaid(b: Bucket, times: seq<real>)
    requires BucketOk(b)
    ensures Granted(b, times) as real + AllowAll(b, times).tokens
         <= b.tokens + Earned(b.rate, AllowAll(b, times).lastFill - b.lastFill)
  {
    hide Granted, AllowAll, Lost, Earned;
    TokensAreConserved(b, times);
  }

  lemma {:induction false} ClockKept(b: Bucket, times: seq<real>)
    requires BucketOk(b) && times != []
    ensures AllowAll(b, times).lastFill == Later(b.lastFill, Latest(times))
    decreases |times|
  {
    hide Allow;
    AllowKeepsOk(b, times[0]);
    if |times| > 1 {
      ClockKept(Allow(b, times[0]), times[1..]);
    }
  }

  /** The window bound. Over any stretch of calls, from any state of the bucket and whatever the
      clock does, no more is granted than the burst and what the rate gives from the first reading
      of the clock to the latest. */
  lemma WindowBound(b: Bucket, times: seq<real>)
    requires BucketOk(b) && times != []
    ensures Granted(b, times) as real <= b.burst + b.rate * (Latest(times) - times[0])
  {
    hide Granted, AllowAll, Refill, Latest;
    var full := Refill(b, times[0]);
    RefilledFirst(b, times);
    GrantsArePaid(full, times);
    AlwaysOk(full, times);
    ClockKept(full, times);
    var last := AllowAll(full, times).lastFill;
    assert times[0] in times;
    assert last - full.lastFill <= Latest(times) - times[0];
    EarningGrows(b.rate, last - full.lastFill, Latest(times) - times[0]);
  }

  lemma RefilledFirst(b: Bucket, times: seq<real>)
    requires BucketOk(b) && times != []
    ensures var full := Refill(b, times[0]);
            && BucketOk(full) && full.rate == b.rate && full.burst == b.burst && full.lastFill >= times[0]
            && Granted(full, times) == Granted(b, times)
  {
    hide Earned;
    var full := Refill(b, times[0]);
    assert Refill(full, times[0]) == full;
    if times[0] > b.lastFill {
      EarningGrows(b.rate, b.lastFill, times[0]);
    }
  }

  /** The bound is met: a full bucket grants its whole burst at one moment, and not one more. */
  lemma {:induction false} BurstPasses(b: Bucket, n: nat)
    requires BucketOk(b)
    ensures Granted(b, seq(n, _ => b.lastFill)) == if n as real <= b.tokens then n else b.tokens.Floor
    decreases n
  {
    var times := seq(n, _ => b.lastFill);
    if n > 0 {
      assert times[1..] == seq(n - 1, _ => b.lastFill);
      var next := Allow(b, b.lastFill);
      AllowKeepsOk(b, b.lastFill);
      BurstPasses(next, n - 1);
    }
  }

  /** Every call comes at least 1 / rate after the one before. */
  predicate Paced(rate: real, last: real, times: seq<real>)
    decreases |times|
  {
    times == [] || (Earned(rate, times[0] - last) >= 1.0 && Paced(rate, times[0], times[1..]))
  }

  lemma {:induction false} PacedCallsPass(b: Bucket, times: seq<real>)
    requires BucketOk(b) && Paced(b.rate, b.lastFill, times)
    ensures Granted(b, times) == |times|
    decreases |times|
  {
    hide Earned;
    if times != [] {
      Forward(b.rate, times[0] - b.lastFill);
      AllowKeepsOk(b, times[0]);
      assert Grants(b, times[0]);
      PacedCallsPass(Allow(b, times[0]), times[1..]);
    }
  }

  lemma Forward(rate: real, elapsed: real)
    requires Earned(rate, elapsed) >= 1.0 && rate > 0.0
    ensures elapsed > 0.0
  {
    if elapsed <= 0.0 {
      EarningGrows(rate, elapsed, 0.0);
      EarningsAdd(rate, 0.0, 0.0);
    }
  }

  // ----- the limiter itself -----------------------------------------------------------

  class RateLimiter {
    const rate: real
    const burst: real
    var tokens: real
    var lastFill: real

    function View(): Bucket
      reads this
    {
      Bucket(rate, burst, tokens, lastFill)
    }

    constructor (rate: real, burst: nat, now: real)
      ensures View() == Bucket(rate, burst as real, burst as real, now)
      ensures rate > 0.0 && burst >= 1 ==> BucketOk(View())
    {
      this.rate, this.burst, tokens, lastFill := rate, burst as real, burst as real, now;
    }

    method TryTake(now: real) returns (granted: bool)
      modifies this
      ensures granted == Grants(old(View()), now) && View() == Allow(old(View()), now)
      ensures old(BucketOk(View())) ==> BucketOk(View())
    {
      if BucketOk(View()) {
        AllowKeepsOk(View(), now);
      }
      var elapsed := now - lastFill;
      if elapsed > 0.0 {
        tokens := Least(burst, tokens + Earned(rate, elapsed));
        lastFill := now;
      }
      if tokens < 1.0 {
        return false;
      }
      tokens := tokens - 1.0;
      return true;
    }
  }
}
