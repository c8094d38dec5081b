/** The Redis token bucket (`src/rate_limit.rs`): the Lua script with its key expiry, against the
    in-process bucket. Timestamps are whole milliseconds. */
module RedisBucket {
  import opened Base
  import opened TokenBucket
  import opened RateLimiter

  const TTL_MS: int := 120_000

  /** The hash stored under the key, and when the key expires. */
  datatype Stored = Stored(tokens: real, ts: int, expiresAt: int)

  datatype Reply = Reply(stored: Stored, retryAfterMs: int)

  /** A key is gone once its expiry lies in the past. */
  function Visible(s: Option<Stored>, now: int): Option<Stored> {
    if s.Some? && now > s.value.expiresAt then None else s
  }

  /** The tokens the script works with; a missing key counts as a full bucket. */
  function Refilled(s: Option<Stored>, now: int, capacity: int, refillPerMs: real): real {
    match Visible(s, now)
    case None => RMin(capacity as real, capacity as real + (now - now) as real * refillPerMs)
    case Some(v) => RMin(capacity as real, v.tokens + (now - v.ts) as real * refillPerMs)
  }

  function Ceil(x: real): int {
    -((-x).Floor)
  }

  function Script(s: Option<Stored>, now: int, capacity: int, refillPerMs: real): Reply
    requires refillPerMs > 0.0
  {
    var tokens := Refilled(s, now, capacity, refillPerMs);
    if tokens < 1.0 then Reply(Stored(tokens, now, now + TTL_MS), Ceil((1.0 - tokens) / refillPerMs))
    else Reply(Stored(tokens - 1.0, now, now + TTL_MS), 0)
  }

  function Capacity(burst: u32): int {
    Max(burst, 1)
  }

  function RefillPerMs(requestsPerMinute: u32): (r: real)
    ensures r > 0.0
  {
    RMax(RatePerSecond(requestsPerMinute) / 1000.0, 0.000001)
  }

  /** `check_bucket`, which clamps the script's arguments. */
  function CheckRedis(s: Option<Stored>, now: int, burst: u32, rpm: u32): Reply {
    Script(s, now, Capacity(burst), RefillPerMs(rpm))
  }

  predicate Allowed(r: Reply) {
    r.retryAfterMs <= 0
  }

  /** The rounded-up answer is positive exactly when less than one token was there. */
  lemma AllowedIffToken(s: Option<Stored>, now: int, burst: u32, rpm: u32)
    ensures Allowed(CheckRedis(s, now, burst, rpm)) <==> Refilled(s, now, Capacity(burst), RefillPerMs(rpm)) >= 1.0
  {
    var tokens, rate := Refilled(s, now, Capacity(burst), RefillPerMs(rpm)), RefillPerMs(rpm);
    if tokens < 1.0 {
      var x := (1.0 - tokens) / rate;
      assert x > 0.0;
    }
  }

  /** A refused caller is told the least whole number of milliseconds after which a token is there. */
  lemma RetryAfterExact(s: Option<Stored>, now: int, burst: u32, rpm: u32)
    ensures var r := CheckRedis(s, now, burst, rpm);
            !Allowed(r) ==>
              && r.stored.tokens + r.retryAfterMs as real * RefillPerMs(rpm) >= 1.0
              && r.stored.tokens + (r.retryAfterMs - 1) as real * RefillPerMs(rpm) < 1.0
  {
    var tokens := Refilled(s, now, Capacity(burst), RefillPerMs(rpm));
    AllowedIffToken(s, now, burst, rpm);
    if tokens < 1.0 { LeastWait(tokens, RefillPerMs(rpm), CheckRedis(s, now, burst, rpm).retryAfterMs); }
  }

  lemma LeastWait(tokens: real, rate: real, n: int)
    requires rate > 0.0 && n == Ceil((1.0 - tokens) / rate)
    ensures tokens + (n - 1) as real * rate < 1.0 <= tokens + n as real * rate
  {
    var x, m := (1.0 - tokens) / rate, (n - 1) as real;
    assert x * rate == 1.0 - tokens;
    assert m < x <= n as real;
    ScaleOrder(x, n as real, rate);
    ScaleOrder(x, m, rate);
  }

  /** The whole seconds that the caller is told. */
  function RetryAfterSeconds(r: Reply): int {
    Max(r.retryAfterMs / 1_000, 1)
  }

  /** Waiting them is enough exactly if at most a second, or a whole number of seconds, is missing. */
  lemma SecondsSufficeIff(s: Option<Stored>, now: int, burst: u32, rpm: u32)
    requires !Allowed(CheckRedis(s, now, burst, rpm))
    ensures var r := CheckRedis(s, now, burst, rpm);
            r.stored.tokens + (1_000 * RetryAfterSeconds(r)) as real * RefillPerMs(rpm) >= 1.0 <==>
              r.retryAfterMs <= 1_000 || r.retryAfterMs % 1_000 == 0
  {
    var r, rate := CheckRedis(s, now, burst, rpm), RefillPerMs(rpm);
    RetryAfterExact(s, now, burst, rpm);
    EnoughIff(r.stored.tokens, rate, r.retryAfterMs, 1_000 * RetryAfterSeconds(r));
  }

  lemma EnoughIff(tokens: real, rate: real, least: int, wait: int)
    requires rate > 0.0 && tokens + (least - 1) as real * rate < 1.0 <= tokens + least as real * rate
    ensures tokens + wait as real * rate >= 1.0 <==> wait >= least
  {
    EnoughOf(tokens, rate, least as real, (least - 1) as real, wait as real);
  }

  lemma EnoughOf(tokens: real, rate: real, n: real, m: real, wait: real)
    requires rate > 0.0 && tokens + m * rate < 1.0 <= tokens + n * rate && (wait >= n || wait <= m) && m < n
    ensures tokens + wait * rate >= 1.0 <==> wait >= n
  {
    if wait >= n { ScaleOrder(n, wait, rate); } else { ScaleOrder(wait, m, rate); }
  }

  /** What the script stores: the refilled tokens, less one if the call is allowed, for two minutes. A key
      that is gone counts as a full bucket. */
  lemma StoredExact(s: Option<Stored>, now: int, burst: u32, rpm: u32)
    ensures var r := CheckRedis(s, now, burst, rpm);
            var full := Max(1, burst) as real;
            var before := if s.Some? && now <= s.value.expiresAt
                          then RMin(full, s.value.tokens + (now - s.value.ts) as real * RefillPerMs(rpm)) else full;
            && r.stored.tokens == before - (if Allowed(r) then 1.0 else 0.0)
            && (Allowed(r) <==> before >= 1.0) && r.stored.ts == now && r.stored.expiresAt == now + 120_000
            && (Allowed(r) ==> r.retryAfterMs == 0)
  {
    AllowedIffToken(s, now, burst, rpm);
  }

  /** The rate in tokens a millisecond, with at least one request a minute. */
  lemma RefillExact(rpm: u32)
    ensures RefillPerMs(rpm) * 60_000.0 == Max(rpm, 1) as real
  {
  }

  // ---------------------------------------------------------------- side by side

  function Seconds(ms: int): real {
    ms as real / 1000.0
  }

  function LocalBucket(burst: u32, rpm: u32, ms: int): Bucket {
    NewBucket(burst as real, RatePerSecond(rpm), Seconds(ms))
  }

  predicate Ordered(times: seq<int>, from: int)
    decreases times
  {
    times == [] || (from <= times[0] && Ordered(times[1..], times[0]))
  }

  function LocalVerdicts(b: Bucket, times: seq<int>): (v: seq<bool>)
    requires BucketOk(b)
    ensures |v| == |times|
    decreases times
  {
    if times == [] then []
    else [Grants(b, Seconds(times[0]))] + LocalVerdicts(Check(b, Seconds(times[0])), times[1..])
  }

  function RedisVerdicts(s: Option<Stored>, times: seq<int>, burst: u32, rpm: u32): (v: seq<bool>)
    ensures |v| == |times|
    decreases times
  {
    if times == [] then []
    else
      var r := CheckRedis(s, times[0], burst, rpm);
      [Allowed(r)] + RedisVerdicts(Some(r.stored), times[1..], burst, rpm)
  }

  /** Expiry cannot be noticed: by the first millisecond at which a key can be gone, any bucket has
      filled up again. And the two clamps on the refill rate agree. */
  predicate Invisible(burst: u32, rpm: u32) {
    rpm >= 6 && Capacity(burst) as real <= RatePerSecond(rpm) * 120.001
  }

  /** The same bucket in two places: equal tokens at equal times, and a missing key is a full bucket. */
  ghost predicate Synced(b: Bucket, s: Option<Stored>, burst: u32, rpm: u32, clock: int) {
    && BucketOk(b) && b.last <= Seconds(clock)
    && b.capacity == Capacity(burst) as real && b.rate == RatePerSecond(rpm)
    && (match s
        case None => b.tokens == b.capacity
        case Some(v) =>
          b.tokens == v.tokens && v.ts <= clock && b.last == Seconds(v.ts) && v.expiresAt == v.ts + TTL_MS)
  }

  lemma RatesAgree(rpm: u32)
    ensures RefillPerMs(rpm) == RatePerSecond(rpm) / 1000.0
    ensures rpm >= 6 ==> RMax(RatePerSecond(rpm), 0.1) == RatePerSecond(rpm)
    ensures rpm < 6 ==> RMax(RatePerSecond(rpm), 0.1) == 0.1 && RatePerSecond(rpm) <= 5.0 / 60.0
    ensures RatePerSecond(rpm) > 0.0
  {
  }

  lemma UnitsAgree(now: int, ts: int, rate: real)
    requires ts <= now
    ensures (now - ts) as real * (rate / 1000.0) == Elapsed(Seconds(now), Seconds(ts)) * rate
  {
    assert Seconds(now) - Seconds(ts) == (now - ts) as real / 1000.0;
  }

  lemma LongElapsed(now: int, ts: int, rate: real, need: real)
    requires now - ts >= TTL_MS + 1 && rate > 0.0 && need <= rate * 120.001
    ensures Elapsed(Seconds(now), Seconds(ts)) * rate >= need
  {
    var e := Elapsed(Seconds(now), Seconds(ts));
    assert e == (now - ts) as real / 1000.0;
    assert e >= 120.001;
    assert e * rate >= 120.001 * rate;
  }

  lemma TokensAgree(b: Bucket, s: Option<Stored>, burst: u32, rpm: u32, clock: int, now: int)
    requires Synced(b, s, burst, rpm, clock) && clock <= now && Invisible(burst, rpm)
    ensures Refill(b, Seconds(now)).tokens == Refilled(s, now, Capacity(burst), RefillPerMs(rpm))
  {
    RatesAgree(rpm);
    match s {
      case None =>
        assert Elapsed(Seconds(now), b.last) * b.rate >= 0.0;
      case Some(v) =>
        if now > v.expiresAt {
          LongElapsed(now, v.ts, b.rate, b.capacity);
        } else {
          UnitsAgree(now, v.ts, b.rate);
        }
    }
  }

  /** One check on each side: same verdict, and the same tokens afterwards. */
  lemma CheckAgrees(b: Bucket, s: Option<Stored>, burst: u32, rpm: u32, clock: int, now: int)
    requires Synced(b, s, burst, rpm, clock) && clock <= now && Invisible(burst, rpm)
    ensures Grants(b, Seconds(now)) <==> Allowed(CheckRedis(s, now, burst, rpm))
    ensures Synced(Check(b, Seconds(now)), Some(CheckRedis(s, now, burst, rpm).stored), burst, rpm, now)
  {
    TokensAgree(b, s, burst, rpm, clock, now);
    AllowedIffToken(s, now, burst, rpm);
    CheckTakesOne(b, Seconds(now));
  }

  lemma {:induction false} VerdictsAgree(b: Bucket, s: Option<Stored>, times: seq<int>, burst: u32, rpm: u32,
                                         clock: int)
    requires Synced(b, s, burst, rpm, clock) && Ordered(times, clock) && Invisible(burst, rpm)
    ensures LocalVerdicts(b, times) == RedisVerdicts(s, times, burst, rpm)
    decreases times
  {
    if times != [] {
      CheckAgrees(b, s, burst, rpm, clock, times[0]);
      VerdictsAgree(Check(b, Seconds(times[0])), Some(CheckRedis(s, times[0], burst, rpm).stored), times[1..], burst,
          rpm, times[0]);
    }
  }

  // ---------------------------------------------------------------- where they differ

  function Times(t: int, n: nat): (r: seq<int>)
    ensures |r| == n && forall i :: 0 <= i < n ==> r[i] == t
  {
    seq(n, _ => t)
  }

  lemma TimesCons(t: int, n: nat)
    requires n > 0
    ensures Times(t, n) == [t] + Times(t, n - 1)
  {
  }

  lemma {:induction false} TimesOrdered(t: int, n: nat, rest: seq<int>, from: int)
    requires from <= t && Ordered(rest, t)
    ensures Ordered(Times(t, n) + rest, from)
    decreases n
  {
    if n == 0 {
      assert Times(t, n) + rest == rest;
      if rest != [] { assert from <= rest[0]; }
    } else {
      TimesOrdered(t, n - 1, rest, t);
      TimesCons(t, n);
      assert (Times(t, n) + rest)[1..] == Times(t, n - 1) + rest;
    }
  }

  lemma LocalDrainOne(b: Bucket, t: int, times: seq<int>)
    requires BucketOk(b) && b.last == Seconds(t) && b.tokens >= 1.0
    ensures var c := b.(tokens := b.tokens - 1.0);
            BucketOk(c) && LocalVerdicts(b, [t] + times) == [true] + LocalVerdicts(c, times)
  {
    CheckTakesOne(b, Seconds(t));
    assert Refill(b, Seconds(t)) == b;
    assert ([t] + times)[1..] == times;
  }

  lemma TimesAhead(t: int, n: nat, rest: seq<int>)
    requires n > 0
    ensures Times(t, n) + rest == [t] + (Times(t, n - 1) + rest)
  {
  }

  lemma TruesAhead(n: nat, rest: seq<bool>)
    requires n > 0
    ensures seq(n, _ => true) + rest == [true] + (seq(n - 1, _ => true) + rest)
  {
  }

  /** Checks at one instant take whole tokens. */
  lemma {:induction false} LocalDrain(b: Bucket, t: int, n: nat, rest: seq<int>)
    requires BucketOk(b) && b.last == Seconds(t) && b.tokens >= n as real
    ensures var d := b.(tokens := b.tokens - n as real);
            BucketOk(d) && LocalVerdicts(b, Times(t, n) + rest) == seq(n, _ => true) + LocalVerdicts(d, rest)
    decreases n
  {
    if n == 0 {
      assert Times(t, n) + rest == rest;
      assert b.(tokens := b.tokens - n as real) == b;
    } else {
      var c := b.(tokens := b.tokens - 1.0);
      var later := Times(t, n - 1) + rest;
      LocalDrainOne(b, t, later);
      LocalDrain(c, t, n - 1, rest);
      TimesAhead(t, n, rest);
      TruesAhead(n, LocalVerdicts(b.(tokens := b.tokens - n as real), rest));
      assert c.(tokens := c.tokens - (n - 1) as real) == b.(tokens := b.tokens - n as real);
    }
  }

  /** A bucket that grants `n` checks at one instant held `n` tokens. */
  lemma {:induction false} LocalAllGranted(b: Bucket, t: int, n: nat)
    requires BucketOk(b) && b.last <= Seconds(t) && n > 0
    requires LocalVerdicts(b, Times(t, n)) == seq(n, _ => true)
    ensures Refill(b, Seconds(t)).tokens >= n as real
    decreases n
  {
    TimesCons(t, n);
    assert LocalVerdicts(b, Times(t, n))[0];
    assert Times(t, n)[1..] == Times(t, n - 1);
    CheckTakesOne(b, Seconds(t));
    if n > 1 {
      var c := Check(b, Seconds(t));
      assert seq(n, _ => true)[1..] == seq(n - 1, _ => true);
      assert LocalVerdicts(b, Times(t, n))[1..] == LocalVerdicts(c, Times(t, n - 1));
      LocalAllGranted(c, t, n - 1);
      assert Refill(c, Seconds(t)) == c;
    }
  }

  lemma {:induction false} RedisDrain(s: Option<Stored>, t: int, n: nat, rest: seq<int>, burst: u32, rpm: u32,
                                      held: real)
    requires held == Refilled(s, t, Capacity(burst), RefillPerMs(rpm)) && held >= n as real && n > 0
    ensures RedisVerdicts(s, Times(t, n) + rest, burst, rpm) ==
            seq(n, _ => true) + RedisVerdicts(Some(Stored(held - n as real, t, t + TTL_MS)), rest, burst, rpm)
    decreases n
  {
    AllowedIffToken(s, t, burst, rpm);
    TimesCons(t, n);
    assert (Times(t, n) + rest)[1..] == Times(t, n - 1) + rest;
    var next := Stored(held - 1.0, t, t + TTL_MS);
    assert CheckRedis(s, t, burst, rpm).stored == next;
    assert seq(n, _ => true) == [true] + seq(n - 1, _ => true);
    if n > 1 {
      assert Refilled(Some(next), t, Capacity(burst), RefillPerMs(rpm)) == held - 1.0;
      RedisDrain(Some(next), t, n - 1, rest, burst, rpm, held - 1.0);
      assert (held - 1.0) - (n - 1) as real == held - n as real;
    } else {
      assert Times(t, 0) + rest == rest;
      assert held - n as real == held - 1.0;
    }
  }

  /** Empty both buckets at `t0`, then look at what comes after. */
  lemma BothDrained(burst: u32, rpm: u32, t0: int, rest: seq<int>) returns (b: Bucket)
    ensures b == Bucket(Capacity(burst) as real, 0.0, RMax(RatePerSecond(rpm), 0.1), Seconds(t0)) && BucketOk(b)
    ensures var n := Capacity(burst);
            && LocalVerdicts(LocalBucket(burst, rpm, t0), Times(t0, n) + rest) == seq(n, _ => true)
                + LocalVerdicts(b, rest)
            && RedisVerdicts(None, Times(t0, n) + rest, burst, rpm) ==
               seq(n, _ => true) + RedisVerdicts(Some(Stored(0.0, t0, t0 + TTL_MS)), rest, burst, rpm)
  {
    var full, n := LocalBucket(burst, rpm, t0), Capacity(burst);
    LocalDrain(full, t0, n, rest);
    b := full.(tokens := full.tokens - n as real);
    assert Refilled(None, t0, n, RefillPerMs(rpm)) == n as real;
    RedisDrain(None, t0, n, rest, burst, rpm, n as real);
  }

  /** Below six requests a minute the local bucket refills faster: ten seconds give it a token. */
  lemma SlowRatesDiffer(burst: u32, rpm: u32, t0: int) returns (times: seq<int>)
    requires rpm < 6
    ensures Ordered(times, t0)
    ensures LocalVerdicts(LocalBucket(burst, rpm, t0), times) != RedisVerdicts(None, times, burst, rpm)
  {
    var rest, n := [t0 + 10_000], Capacity(burst);
    times := Times(t0, n) + rest;
    assert Ordered(rest, t0) by { assert rest[1..] == []; }
    TimesOrdered(t0, n, rest, t0);
    var b := BothDrained(burst, rpm, t0, rest);
    RatesAgree(rpm);
    var s := Some(Stored(0.0, t0, t0 + TTL_MS));
    UnitsAgree(t0 + 10_000, t0, b.rate);
    assert LocalVerdicts(b, rest)[0];
    AllowedIffToken(s, t0 + 10_000, burst, rpm);
    assert !RedisVerdicts(s, rest, burst, rpm)[0];
    assert LocalVerdicts(LocalBucket(burst, rpm, t0), times)[n] == LocalVerdicts(b, rest)[0];
    assert RedisVerdicts(None, times, burst, rpm)[n] == RedisVerdicts(s, rest, burst, rpm)[0];
  }

  /** A burst of more than the expiry interval's refill comes back at once when the key expires. */
  lemma ExpiryDiffers(burst: u32, rpm: u32, t0: int) returns (times: seq<int>)
    requires rpm >= 6 && Capacity(burst) as real > RatePerSecond(rpm) * 120.001
    ensures Ordered(times, t0)
    ensures LocalVerdicts(LocalBucket(burst, rpm, t0), times) != RedisVerdicts(None, times, burst, rpm)
  {
    var n, t1 := Capacity(burst), t0 + TTL_MS + 1;
    var rest := Times(t1, n);
    times := Times(t0, n) + rest;
    assert Times(t1, n) + [] == rest;
    TimesOrdered(t1, n, [], t0);
    TimesOrdered(t0, n, rest, t0);
    var b := BothDrained(burst, rpm, t0, rest);
    var s := Some(Stored(0.0, t0, t0 + TTL_MS));
    assert Refilled(s, t1, n, RefillPerMs(rpm)) == n as real;
    RedisDrain(s, t1, n, [], burst, rpm, n as real);
    assert RedisVerdicts(s, rest, burst, rpm) == seq(n, _ => true);
    RatesAgree(rpm);
    assert Elapsed(Seconds(t1), b.last) == 120.001;
    if LocalVerdicts(b, rest) == seq(n, _ => true) {
      LocalAllGranted(b, t1, n);
      assert false;
    }
    assert LocalVerdicts(LocalBucket(burst, rpm, t0), times)[n..] == LocalVerdicts(b, rest);
    assert RedisVerdicts(None, times, burst, rpm)[n..] == RedisVerdicts(s, rest, burst, rpm);
  }

  /** The two implementations give the same verdicts on every timestamp sequence exactly when the
      configured rate is at least six a minute and the burst is at most 120.001 seconds of refill. */
  lemma RedisAgreesIff(burst: u32, rpm: u32, t0: int)
    ensures (forall times :: Ordered(times, t0) ==>
               LocalVerdicts(LocalBucket(burst, rpm, t0), times) == RedisVerdicts(None, times, burst, rpm))
            <==> Invisible(burst, rpm)
  {
    if Invisible(burst, rpm) {
      RatesAgree(rpm);
      forall times | Ordered(times, t0)
        ensures LocalVerdicts(LocalBucket(burst, rpm, t0), times) == RedisVerdicts(None, times, burst, rpm)
      {
        VerdictsAgree(LocalBucket(burst, rpm, t0), None, times, burst, rpm, t0);
      }
    } else {
      var times;
      if rpm < 6 { times := SlowRatesDiffer(burst, rpm, t0); } else { times := ExpiryDiffers(burst, rpm, t0); }
    }
  }
}
