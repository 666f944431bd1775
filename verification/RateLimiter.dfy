/** internal/channel/rest.go: the token bucket of each API key. Times are integer nanoseconds and
    tokens are counted in units, 60e9 of them to a token, so that a rate of n per minute adds n
    units a nanosecond. */
module RateLimiter {
  const TOKEN: nat := 60_000_000_000
  const SECOND: nat := 1_000_000_000

  datatype Bucket = Bucket(tokens: nat, lastTime: int)

  function Full(rate: nat): nat {
    rate * TOKEN
  }

  function New(rate: nat, now: int): Bucket {
    Bucket(Full(rate), now)
  }

  function Refill(rate: nat, b: Bucket, now: int): nat
    requires b.lastTime <= now
  {
    var more := b.tokens + Earned(rate, b.lastTime, now);
    if more > Full(rate) then Full(rate) else more
  }

  /** The units a bucket earns in a stretch of time. */
  function Earned(rate: nat, from: int, to: int): int {
    (to - from) * rate
  }

  predicate Takes(rate: nat, b: Bucket, now: int)
    requires b.lastTime <= now
  {
    Refill(rate, b, now) >= TOKEN
  }

  /** The duration allow returns: 0 admits the request. It is cut to whole nanoseconds. */
  function Wait(rate: nat, b: Bucket, now: int): nat
    requires rate > 0 && b.lastTime <= now
  {
    if Takes(rate, b, now) then 0 else (TOKEN - Refill(rate, b, now)) / rate
  }

  function Called(rate: nat, b: Bucket, now: int): Bucket
    requires b.lastTime <= now
  {
    Bucket(if Takes(rate, b, now) then Refill(rate, b, now) - TOKEN else Refill(rate, b, now), now)
  }

  /** RetryAfter of the response to a refused request, in seconds. */
  function RetryAfter(wait: nat): nat {
    wait / SECOND + 1
  }

  class RateLimiter {
    const rate: nat
    var buckets: map<string, Bucket>

    ghost predicate Valid(now: int)
      reads this
    {
      rate > 0 && forall key :: key in buckets ==> buckets[key].lastTime <= now && buckets[key].tokens <= Full(rate)
    }

    constructor (requestsPerMinute: int, now: int)
      ensures Valid(now) && buckets == map[] && rate == if requestsPerMinute <= 0 then 60 else requestsPerMinute
    {
      rate := if requestsPerMinute <= 0 then 60 else requestsPerMinute;
      buckets := map[];
    }

    ghost function BucketOf(key: string, now: int): Bucket
      reads this
    {
      if key in buckets then buckets[key] else New(rate, now)
    }

    method Allow(key: string, now: int) returns (wait: nat)
      requires Valid(now)
      modifies this
      ensures Valid(now)
      ensures wait == Wait(rate, old(BucketOf(key, now)), now)
      ensures buckets == old(buckets)[key := Called(rate, old(BucketOf(key, now)), now)]
    {
      var b := if key in buckets then buckets[key] else Bucket(rate * TOKEN, now);
      var elapsed := now - b.lastTime;
      var refill := elapsed * rate;
      assert refill == Earned(rate, b.lastTime, now) && refill >= 0;
      hide Earned;
      b := b.(tokens := b.tokens + refill);
      if b.tokens > rate * TOKEN {
        b := b.(tokens := rate * TOKEN);
      }
      b := b.(lastTime := now);
      if b.tokens >= TOKEN {
        buckets := buckets[key := b.(tokens := b.tokens - TOKEN)];
        return 0;
      }
      buckets := buckets[key := b];
      var deficit := TOKEN - b.tokens;
      return deficit / rate;
    }

    /** rateLimitMiddleware: 0 lets the request through. */
    method Check(key: string, now: int) returns (retryAfter: int)
      requires Valid(now)
      modifies this
      ensures Valid(now)
      ensures buckets == old(buckets)[key := Called(rate, old(BucketOf(key, now)), now)]
      ensures var wait := Wait(rate, old(BucketOf(key, now)), now);
              if wait > 0 then wait < retryAfter * 1_000_000_000 <= wait + 1_000_000_000 else retryAfter == 0
    {
      var wait := Allow(key, now);
      if wait > 0 {
        return wait / SECOND + 1;
      }
      return 0;
    }
  }

  /** The client is told the next full second after the wait, no earlier and no later. */
  lemma RetryAfterIsNextSecond(wait: nat)
    ensures wait < RetryAfter(wait) * 1_000_000_000 <= wait + 1_000_000_000
  {
  }

  // ----- One refused call -----

  lemma MulMonotone(a: int, b: int, rate: nat)
    requires a <= b
    ensures a * rate <= b * rate
  {
  }

  /** A refused client that calls again, with no call on its key in between, is let in exactly
      from the returned duration on. */
  lemma {:induction false} RetryAdmittedIff(rate: nat, b: Bucket, now: int, later: int)
    requires rate > 0 && b.lastTime <= now <= later && b.tokens <= Full(rate) && Wait(rate, b, now) > 0
    ensures Wait(rate, Called(rate, b, now), later) == 0 <==> later >= now + Wait(rate, b, now)
  {
    var tokens := Refill(rate, b, now);
    var deficit := TOKEN - tokens;
    var w := deficit / rate;
    var d := later - now;
    assert w * rate <= deficit < w * rate + rate;
    MulMonotone(rate, rate, rate);
    assert Full(rate) >= TOKEN by {
      MulMonotone(1, rate, TOKEN);
    }
    if d >= w {
      MulMonotone(w, d, rate);
      RefillCloseToToken(rate, tokens, d);
    } else {
      MulMonotone(d, w - 1, rate);
      assert (w - 1) * rate == w * rate - rate;
      assert TOKEN - (tokens + d * rate) >= rate;
      DivAtLeastOne(TOKEN - (tokens + d * rate), rate);
    }
  }

  lemma {:induction false} RefillCloseToToken(rate: nat, tokens: nat, d: nat)
    requires rate > 0 && tokens < TOKEN && TOKEN - tokens < d * rate + rate
    requires Full(rate) >= TOKEN
    ensures Wait(rate, Bucket(tokens, 0), d) == 0
  {
    var more := tokens + d * rate;
    if more < TOKEN {
      DivBelow(TOKEN - more, rate);
    }
  }

  lemma DivBelow(a: nat, rate: nat)
    requires a < rate
    ensures a / rate == 0
  {
  }

  lemma DivAtLeastOne(a: nat, rate: nat)
    requires 0 < rate <= a
    ensures a / rate >= 1
  {
  }

  /** A client that waits RetryAfter seconds gets a token. */
  lemma {:induction false} RetryAfterTakesToken(rate: nat, b: Bucket, now: int, later: int)
    requires rate > 0 && b.lastTime <= now <= later && b.tokens <= Full(rate) && Wait(rate, b, now) > 0
    requires later >= now + RetryAfter(Wait(rate, b, now)) * SECOND
    ensures Takes(rate, Called(rate, b, now), later)
  {
    var tokens := Refill(rate, b, now);
    var w := (TOKEN - tokens) / rate;
    assert w * rate <= TOKEN - tokens < w * rate + rate;
    assert later - now >= w + 1;
    MulMonotone(w + 1, later - now, rate);
    assert (w + 1) * rate == w * rate + rate;
    MulMonotone(1, rate, TOKEN);
  }

  /** A request can get through without taking a token: when less than a nanosecond's worth of
      units is missing, the duration is cut to 0. */
  lemma {:induction false} AdmittedWithoutTokenIff(rate: nat, b: Bucket, now: int)
    requires rate > 0 && b.lastTime <= now
    ensures Wait(rate, b, now) == 0 && !Takes(rate, b, now) <==> TOKEN - rate < Refill(rate, b, now) < TOKEN
  {
    var missing := TOKEN - Refill(rate, b, now);
    if 0 < missing < rate {
      DivBelow(missing, rate);
    } else if missing >= rate {
      DivAtLeastOne(missing, rate);
    }
  }

  /** Only within one nanosecond: any later call on the key takes a token. */
  lemma {:induction false} NextCallTakesToken(rate: nat, b: Bucket, now: int, later: int)
    requires rate > 0 && b.lastTime <= now < later && Wait(rate, b, now) == 0 && !Takes(rate, b, now)
    ensures Takes(rate, Called(rate, b, now), later)
  {
    AdmittedWithoutTokenIff(rate, b, now);
    MulMonotone(1, later - now, rate);
    MulMonotone(1, rate, TOKEN);
  }

  // ----- All the calls on one key -----

  predicate Monotone(start: int, times: seq<int>) {
    (|times| > 0 ==> start <= times[0]) && forall i, j :: 0 <= i < j < |times| ==> times[i] <= times[j]
  }

  function After(rate: nat, b: Bucket, times: seq<int>): (after: Bucket)
    requires Monotone(b.lastTime, times)
    ensures after.lastTime == if |times| == 0 then b.lastTime else times[|times|-1]
  {
    if |times| == 0 then b else Called(rate, After(rate, b, times[..|times|-1]), times[|times|-1])
  }

  /** How many of the calls take a token. */
  function Taken(rate: nat, b: Bucket, times: seq<int>): nat
    requires Monotone(b.lastTime, times)
  {
    if |times| == 0 then 0
    else
      var front := times[..|times|-1];
      Taken(rate, b, front) + (if Takes(rate, After(rate, b, front), times[|times|-1]) then 1 else 0)
  }

  lemma {:induction false} NeverOverfull(rate: nat, b: Bucket, times: seq<int>)
    requires Monotone(b.lastTime, times) && b.tokens <= Full(rate)
    ensures After(rate, b, times).tokens <= Full(rate)
  {
    if |times| > 0 {
      NeverOverfull(rate, b, times[..|times|-1]);
    }
  }

  /** What is in the bucket plus what was taken never exceeds a full bucket plus the refill since
      the first call. */
  lemma {:induction false} Conservation(rate: nat, b: Bucket, times: seq<int>)
    requires Monotone(b.lastTime, times) && |times| > 0
    ensures After(rate, b, times).tokens + Taken(rate, b, times) * TOKEN
         <= Full(rate) + Earned(rate, times[0], times[|times|-1])
  {
    var front, last := times[..|times|-1], times[|times|-1];
    if |front| == 0 {
      assert Taken(rate, b, front) == 0;
    } else {
      Conservation(rate, b, front);
      var before := After(rate, b, front);
      var gap, sofar := last - before.lastTime, before.lastTime - times[0];
      assert (sofar + gap) * rate == sofar * rate + gap * rate;
    }
  }

  lemma {:induction false} MonotoneSplits(start: int, x: seq<int>, y: seq<int>)
    requires Monotone(start, x + y)
    ensures Monotone(start, x) && Monotone(if |x| == 0 then start else x[|x|-1], y)
  {
    assert forall i :: 0 <= i < |x| ==> x[i] == (x + y)[i];
    assert forall i :: 0 <= i < |y| ==> y[i] == (x + y)[|x| + i];
  }

  lemma MonotoneExtends(start: int, times: seq<int>, now: int)
    requires Monotone(start, times) && (if |times| == 0 then start else times[|times|-1]) <= now
    ensures Monotone(start, times + [now])
  {
  }

  lemma {:induction false} RunSplits(rate: nat, b: Bucket, x: seq<int>, y: seq<int>)
    requires Monotone(b.lastTime, x + y)
    ensures Monotone(b.lastTime, x) && Monotone(After(rate, b, x).lastTime, y)
    ensures Taken(rate, b, x + y) == Taken(rate, b, x) + Taken(rate, After(rate, b, x), y)
    ensures After(rate, b, x + y) == After(rate, After(rate, b, x), y)
  {
    MonotoneSplits(b.lastTime, x, y);
    if |y| == 0 {
      assert x + y == x;
    } else {
      var y' := y[..|y|-1];
      assert (x + y)[..|x + y|-1] == x + y';
      RunSplits(rate, b, x, y');
    }
  }

  /** Over any run of calls on a key and any window of it, the calls that take a token number at
      most the bucket's size plus the rate times the length of the window. */
  lemma {:induction false} WindowBound(rate: nat, b: Bucket, times: seq<int>, i: nat, j: nat)
    requires Monotone(b.lastTime, times) && i < j <= |times|
    ensures Monotone(b.lastTime, times[..i]) && Monotone(b.lastTime, times[..j])
    ensures Taken(rate, b, times[..i]) <= Taken(rate, b, times[..j])
    ensures (Taken(rate, b, times[..j]) - Taken(rate, b, times[..i])) * TOKEN <= Full(rate) + Earned(rate, times[i], times[j-1])
  {
    var front, window := times[..i], times[i..j];
    assert times[..j] == front + window && times == times[..j] + times[j..];
    MonotoneSplits(b.lastTime, times[..j], times[j..]);
    MonotoneSplits(b.lastTime, front, window);
    RunSplits(rate, b, front, window);
    hide *;
    Conservation(rate, After(rate, b, front), window);
    assert window[0] == times[i] && window[|window|-1] == times[j-1];
    var taken := Taken(rate, After(rate, b, front), window);
    assert Taken(rate, b, times[..j]) - Taken(rate, b, front) == taken;
  }

  function AtOnce(n: nat, now: int): seq<int> {
    seq(n, i requires 0 <= i < n => now)
  }

  /** A new key can spend a whole minute's requests at one instant, one by one. */
  lemma {:induction false} Burst(rate: nat, n: nat, now: int)
    requires n <= rate
    ensures Monotone(now, AtOnce(n, now))
    ensures After(rate, New(rate, now), AtOnce(n, now)) == Bucket((rate - n) * TOKEN, now)
    ensures Taken(rate, New(rate, now), AtOnce(n, now)) == n
  {
    if n > 0 {
      assert AtOnce(n, now)[..n-1] == AtOnce(n - 1, now);
      Burst(rate, n - 1, now);
      assert Earned(rate, now, now) == 0;
    }
  }

  /** An admission without a token does happen: at 7 requests a minute, 8571428571 nanoseconds
      after such a burst. */
  lemma {:induction false} TokenlessAdmission()
    ensures Monotone(0, AtOnce(7, 0))
    ensures var drained := After(7, New(7, 0), AtOnce(7, 0));
            Wait(7, drained, 8571428571) == 0 && !Takes(7, drained, 8571428571)
  {
    Burst(7, 7, 0);
    assert Refill(7, Bucket(0, 0), 8571428571) == 59_999_999_997;
    hide *;
    AdmittedWithoutTokenIff(7, Bucket(0, 0), 8571428571);
  }

  // ----- The keys -----

  datatype Call = Call(key: string, now: int)

  function TimesOf(calls: seq<Call>, key: string): seq<int> {
    if |calls| == 0 then []
    else TimesOf(calls[..|calls|-1], key) + (if calls[|calls|-1].key == key then [calls[|calls|-1].now] else [])
  }

  predicate Clock(start: int, calls: seq<Call>) {
    (|calls| > 0 ==> start <= calls[0].now) && forall i, j :: 0 <= i < j < |calls| ==> calls[i].now <= calls[j].now
  }

  lemma NoCalls(calls: seq<Call>, key: string)
    ensures TimesOf(calls[..0], key) == []
  {
  }

  lemma {:induction false} OneMoreCall(calls: seq<Call>, k: nat, key: string)
    requires k < |calls|
    ensures TimesOf(calls[..k+1], key)
         == if calls[k].key == key then TimesOf(calls[..k], key) + [calls[k].now] else TimesOf(calls[..k], key)
  {
    assert calls[..k+1][..k] == calls[..k];
  }

  lemma {:induction false} AfterExtends(rate: nat, b: Bucket, times: seq<int>, now: int)
    requires Monotone(b.lastTime, times) && Monotone(b.lastTime, times + [now])
    requires (if |times| == 0 then b.lastTime else times[|times|-1]) <= now
    ensures After(rate, b, times + [now]) == Called(rate, After(rate, b, times), now)
  {
    assert (times + [now])[..|times|] == times;
  }

  /** The bucket a key's calls start from: its own, or a full one at the first of them. */
  function FirstBucket(rate: nat, buckets: map<string, Bucket>, key: string, times: seq<int>): Bucket {
    if key in buckets then buckets[key] else New(rate, if |times| == 0 then 0 else times[0])
  }

  /** Over any calls: the key has a bucket exactly if it had one or was called, and it is what its
      own calls make of the bucket they started from. */
  predicate KeyAfter(rate: nat, before: map<string, Bucket>, after: map<string, Bucket>, key: string, times: seq<int>) {
    && (key in after <==> key in before || times != [])
    && Monotone(FirstBucket(rate, before, key, times).lastTime, times)
    && (key in after ==> after[key] == After(rate, FirstBucket(rate, before, key, times), times))
  }

  lemma OtherKeyCalled(rate: nat, before: map<string, Bucket>, was: map<string, Bucket>, after: map<string, Bucket>, key: string,
                       times: seq<int>)
    requires KeyAfter(rate, before, was, key, times) && (key in after <==> key in was) && (key in was ==> after[key] == was[key])
    ensures KeyAfter(rate, before, after, key, times)
  {
  }

  lemma NotCalledYet(rate: nat, buckets: map<string, Bucket>, key: string)
    ensures KeyAfter(rate, buckets, buckets, key, [])
  {
  }

  lemma {:induction false} CalledAgain(rate: nat, before: map<string, Bucket>, b: Bucket, after: map<string, Bucket>, key: string,
                                       times: seq<int>, now: int)
    requires KeyAfter(rate, before, after, key, times) && b.lastTime <= now
    requires b == (if key in after then after[key] else New(rate, now))
    ensures KeyAfter(rate, before, after[key := Called(rate, b, now)], key, times + [now])
  {
    hide Called;
    var first, more := FirstBucket(rate, before, key, times), FirstBucket(rate, before, key, times + [now]);
    if key in after {
      assert more == first;
      MonotoneExtends(first.lastTime, times, now);
      AfterExtends(rate, first, times, now);
    } else {
      assert times == [] && more == New(rate, now) && After(rate, more, []) == more;
      MonotoneExtends(now, [], now);
      AfterExtends(rate, more, [], now);
    }
  }

  /** The limiter over any calls on any keys: what a key's bucket holds depends on that key's calls
      alone, be it known at the start or new. */
  method RunCalls(limiter: RateLimiter, calls: seq<Call>, start: int, key: string)
    requires limiter.Valid(start) && Clock(start, calls)
    modifies limiter
    ensures limiter.Valid(if |calls| == 0 then start else calls[|calls|-1].now)
    ensures KeyAfter(limiter.rate, old(limiter.buckets), limiter.buckets, key, TimesOf(calls, key))
  {
    hide Called, Wait, After, TimesOf, Monotone, Full, KeyAfter;
    ghost var buckets := limiter.buckets;
    ghost var now := start;
    NoCalls(calls, key);
    NotCalledYet(limiter.rate, buckets, key);
    for k := 0 to |calls|
      invariant now == if k == 0 then start else calls[k-1].now
      invariant limiter.Valid(now)
      invariant KeyAfter(limiter.rate, buckets, limiter.buckets, key, TimesOf(calls[..k], key))
    {
      ghost var was, b := limiter.buckets, limiter.BucketOf(calls[k].key, calls[k].now);
      var _ := limiter.Allow(calls[k].key, calls[k].now);
      now := calls[k].now;
      OneMoreCall(calls, k, key);
      if calls[k].key == key {
        CalledAgain(limiter.rate, buckets, b, was, key, TimesOf(calls[..k], key), now);
      } else {
        OtherKeyCalled(limiter.rate, buckets, was, limiter.buckets, key, TimesOf(calls[..k], key));
      }
    }
    assert calls[..|calls|] == calls;
  }
}
