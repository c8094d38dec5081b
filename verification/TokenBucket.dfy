/** The token bucket of the rate limiter (`src/rate_limit.rs`), over the reals. Instants are seconds. */
module TokenBucket {
  import opened Base

  datatype Bucket = Bucket(capacity: real, tokens: real, rate: real, last: real)

  function RMin(a: real, b: real): real { if a <= b then a else b }
  function RMax(a: real, b: real): real { if a <= b then b else a }

  function NewBucket(capacity: real, rate: real, now: real): (b: Bucket)
    ensures BucketOk(b) && b.tokens == b.capacity && b.last == now
  {
    Bucket(RMax(capacity, 1.0), RMax(capacity, 1.0), RMax(rate, 0.1), now)
  }

  predicate BucketOk(b: Bucket) {
    1.0 <= b.capacity && 0.0 <= b.tokens <= b.capacity && 0.1 <= b.rate
  }

  /** A clock reading older than the last one adds nothing (`duration_since`). */
  function Elapsed(now: real, since: real): real {
    RMax(now - since, 0.0)
  }

  function Refill(b: Bucket, now: real): (r: Bucket)
    requires BucketOk(b)
    ensures BucketOk(r) && r.last == now && r.capacity == b.capacity && r.rate == b.rate && b.tokens <= r.tokens
  {
    assert Elapsed(now, b.last) * b.rate >= 0.0;
    b.(tokens := RMin(b.tokens + Elapsed(now, b.last) * b.rate, b.capacity), last := now)
  }

  /** How long a refilled bucket asks the caller to wait; `None` when it has a token. */
  function Wait(b: Bucket): Option<real>
    requires BucketOk(b)
  {
    if b.tokens >= 1.0 then None else Some(RMax((1.0 - b.tokens) / b.rate, 0.001))
  }

  function Consume(b: Bucket, now: real): (r: Bucket)
    requires BucketOk(b)
    ensures BucketOk(r)
  {
    var f := Refill(b, now);
    f.(tokens := RMax(f.tokens - 1.0, 0.0))
  }

  predicate Grants(b: Bucket, now: real)
    requires BucketOk(b)
  {
    Wait(Refill(b, now)).None?
  }

  /** One check: refill, then take a token if there is one. */
  function Check(b: Bucket, now: real): (r: Bucket)
    requires BucketOk(b)
    ensures BucketOk(r)
  {
    if Grants(b, now) then Consume(Refill(b, now), now) else Refill(b, now)
  }

  /** After a granted check exactly one token is gone: the floor at zero never bites. */
  lemma CheckTakesOne(b: Bucket, now: real)
    requires BucketOk(b)
    ensures Check(b, now).tokens == Refill(b, now).tokens - (if Grants(b, now) then 1.0 else 0.0)
    ensures Check(b, now).last == now && Check(b, now).capacity == b.capacity && Check(b, now).rate == b.rate
  {
    var f := Refill(b, now);
    assert Elapsed(now, f.last) == 0.0;
    assert Refill(f, now) == f;
  }

  // ---------------------------------------------------------------- any window of any run

  /** What a run does to one bucket: leave it, refill it, or refill it and take a token. */
  datatype Move = Skip | Touch(at: real) | Take(at: real)

  function Apply(b: Bucket, m: Move): (r: Bucket)
    requires BucketOk(b)
    ensures BucketOk(r)
  {
    match m
    case Skip => b
    case Touch(at) => Refill(b, at)
    case Take(at) => Consume(Refill(b, at), at)
  }

  /** Tokens are taken only when one is there, and the clock never goes back. */
  predicate Legal(b: Bucket, ms: seq<Move>)
    requires BucketOk(b)
    decreases ms
  {
    ms == [] ||
    (&& (ms[0].Skip? || b.last <= ms[0].at)
     && (ms[0].Take? ==> Grants(b, ms[0].at))
     && Legal(Apply(b, ms[0]), ms[1..]))
  }

  /** Tokens taken in the window [from, to]. */
  function TakesIn(ms: seq<Move>, from: real, to: real): nat
    decreases ms
  {
    if ms == [] then 0
    else (if ms[0].Take? && from <= ms[0].at <= to then 1 else 0) + TakesIn(ms[1..], from, to)
  }

  /** When a bucket was touched, what it then held, whether a token was taken. */
  datatype Tick = Tick(time: real, held: real, took: bool)

  function Spent(t: Tick): real { if t.took then 1.0 else 0.0 }

  /** `inflow(t)` counts the tokens that have flowed in by time `t`. */
  ghost predicate Increasing(inflow: real -> real) {
    forall x, y :: x <= y ==> inflow(x) <= inflow(y)
  }

  /** Each tick pays for what it takes out of what was held and what flowed in since. */
  ghost predicate Funded(inflow: real -> real, capacity: real, held: real, time: real, ts: seq<Tick>)
    decreases ts
  {
    ts == [] ||
    (&& time <= ts[0].time
     && 0.0 <= ts[0].held
     && ts[0].held + Spent(ts[0]) <= held + (inflow(ts[0].time) - inflow(time))
     && ts[0].held + Spent(ts[0]) <= capacity
     && Funded(inflow, capacity, ts[0].held, ts[0].time, ts[1..]))
  }

  function SpentIn(ts: seq<Tick>, from: real, to: real): real
    decreases ts
  {
    if ts == [] then 0.0
    else (if from <= ts[0].time <= to then Spent(ts[0]) else 0.0) + SpentIn(ts[1..], from, to)
  }

  lemma {:induction false} NothingAfter(inflow: real -> real, capacity: real, held: real, time: real, ts: seq<Tick>,
                                        from: real, to: real)
    requires Funded(inflow, capacity, held, time, ts) && to < time
    ensures SpentIn(ts, from, to) == 0.0
    decreases ts
  {
    if ts != [] { NothingAfter(inflow, capacity, ts[0].held, ts[0].time, ts[1..], from, to); }
  }

  /** Up to any instant at most what is held and what flows in until then is spent. */
  lemma {:induction false} SpentUpTo(inflow: real -> real, capacity: real, held: real, time: real, ts: seq<Tick>,
                                     from: real, to: real)
    requires Increasing(inflow) && Funded(inflow, capacity, held, time, ts) && 0.0 <= held && time <= to
    ensures SpentIn(ts, from, to) <= held + (inflow(to) - inflow(time))
    decreases ts
  {
    if ts != [] {
      if ts[0].time <= to {
        SpentUpTo(inflow, capacity, ts[0].held, ts[0].time, ts[1..], from, to);
      } else {
        NothingAfter(inflow, capacity, ts[0].held, ts[0].time, ts[1..], from, to);
      }
    }
  }

  lemma {:induction false} SpentWindow(inflow: real -> real, capacity: real, held: real, time: real, ts: seq<Tick>,
                                       from: real, to: real)
    requires Increasing(inflow) && Funded(inflow, capacity, held, time, ts) && 0.0 <= capacity && from <= to
    ensures SpentIn(ts, from, to) <= capacity + (inflow(to) - inflow(from))
    decreases ts
  {
    if ts != [] {
      if ts[0].time < from {
        SpentWindow(inflow, capacity, ts[0].held, ts[0].time, ts[1..], from, to);
      } else if ts[0].time <= to {
        SpentUpTo(inflow, capacity, ts[0].held, ts[0].time, ts[1..], from, to);
      } else {
        NothingAfter(inflow, capacity, ts[0].held, ts[0].time, ts[1..], from, to);
      }
    }
  }

  ghost function Stamps(b: Bucket, ms: seq<Move>): seq<Tick>
    requires BucketOk(b)
    decreases ms
  {
    if ms == [] then []
    else
      var c := Apply(b, ms[0]);
      if ms[0].Skip? then Stamps(c, ms[1..]) else [Tick(ms[0].at, c.tokens, ms[0].Take?)] + Stamps(c, ms[1..])
  }

  lemma MovePays(b: Bucket, m: Move)
    requires BucketOk(b) && !m.Skip? && b.last <= m.at && (m.Take? ==> Grants(b, m.at))
    ensures var c, spent := Apply(b, m), if m.Take? then 1.0 else 0.0;
            && c.last == m.at && c.rate == b.rate && c.capacity == b.capacity
            && c.tokens + spent <= b.tokens + (b.rate * m.at - b.rate * b.last)
            && c.tokens + spent <= b.capacity
  {
    CheckTakesOne(b, m.at);
    assert b.rate * (m.at - b.last) == b.rate * m.at - b.rate * b.last;
  }

  lemma {:induction false} RunIsFunded(b: Bucket, ms: seq<Move>, inflow: real -> real)
    requires BucketOk(b) && Legal(b, ms) && (forall x :: inflow(x) == b.rate * x)
    ensures Funded(inflow, b.capacity, b.tokens, b.last, Stamps(b, ms))
    decreases ms
  {
    if ms != [] {
      if !ms[0].Skip? { MovePays(b, ms[0]); }
      RunIsFunded(Apply(b, ms[0]), ms[1..], inflow);
    }
  }

  lemma {:induction false} TakesAreSpent(b: Bucket, ms: seq<Move>, from: real, to: real)
    requires BucketOk(b)
    ensures TakesIn(ms, from, to) as real == SpentIn(Stamps(b, ms), from, to)
    decreases ms
  {
    if ms != [] { TakesAreSpent(Apply(b, ms[0]), ms[1..], from, to); }
  }

  lemma MulOrder(rate: real, x: real, y: real)
    requires rate >= 0.0
    ensures rate * (y - x) == rate * y - rate * x
    ensures x <= y ==> rate * x <= rate * y
  {
    if x <= y { assert rate * (y - x) >= 0.0; }
  }

  lemma InflowIncreases(rate: real, inflow: real -> real)
    requires rate >= 0.0 && (forall x :: inflow(x) == rate * x)
    ensures Increasing(inflow)
  {
    forall x, y | x <= y ensures inflow(x) <= inflow(y) { MulOrder(rate, x, y); }
  }

  lemma RunTicks(b: Bucket, ms: seq<Move>, from: real, to: real) returns (ts: seq<Tick>, inflow: real -> real)
    requires BucketOk(b) && Legal(b, ms)
    ensures Increasing(inflow) && Funded(inflow, b.capacity, b.tokens, b.last, ts)
    ensures TakesIn(ms, from, to) as real == SpentIn(ts, from, to)
    ensures inflow(to) - inflow(from) == b.rate * (to - from)
  {
    inflow := (x: real) => b.rate * x;
    ts := Stamps(b, ms);
    InflowIncreases(b.rate, inflow);
    MulOrder(b.rate, from, to);
    RunIsFunded(b, ms, inflow);
    TakesAreSpent(b, ms, from, to);
  }

  /** In every window of every run a bucket admits at most `capacity + rate * length`. */
  lemma WindowBound(b: Bucket, ms: seq<Move>, from: real, to: real)
    requires BucketOk(b) && Legal(b, ms) && from <= to
    ensures TakesIn(ms, from, to) as real <= b.capacity + b.rate * (to - from)
  {
    var ts, inflow := RunTicks(b, ms, from, to);
    SpentWindow(inflow, b.capacity, b.tokens, b.last, ts, from, to);
  }

  /** The same, for callers that name the inflow of the window. */
  lemma WindowBoundBy(b: Bucket, ms: seq<Move>, from: real, to: real, flow: real)
    requires BucketOk(b) && Legal(b, ms) && from <= to && flow == b.rate * (to - from)
    ensures TakesIn(ms, from, to) as real <= b.capacity + flow
  {
    WindowBound(b, ms, from, to);
  }

  // ---------------------------------------------------------------- how long to wait

  /** An undisturbed bucket that refused at `b.last` grants after `x` more seconds iff that covers
      the missing fraction of a token. */
  lemma GrantsIffWaited(b: Bucket, x: real)
    requires BucketOk(b) && b.tokens < 1.0 && x >= 0.0
    ensures Grants(b, b.last + x) <==> x >= (1.0 - b.tokens) / b.rate
  {
    var need := (1.0 - b.tokens) / b.rate;
    assert need * b.rate == 1.0 - b.tokens;
    assert Elapsed(b.last + x, b.last) == x;
    if x >= need {
      assert x * b.rate >= need * b.rate;
    } else {
      assert x * b.rate < need * b.rate;
    }
  }

  /** The whole seconds returned to the client: `as_secs().max(1)`. */
  function RetryAfter(wait: real): int {
    Max(wait.Floor, 1)
  }

  /** Waiting the computed duration, or the returned seconds plus one, always suffices. */
  lemma WaitSuffices(b: Bucket, x: real)
    requires BucketOk(b) && Wait(b).Some?
    requires x >= Wait(b).value || x >= (RetryAfter(Wait(b).value) + 1) as real
    ensures Grants(b, b.last + x)
  {
    var need := (1.0 - b.tokens) / b.rate;
    assert need > 0.0;
    assert x >= need;
    GrantsIffWaited(b, x);
  }

  /** Waiting just the returned whole seconds suffices exactly when the computed wait is at most one
      second or a whole number of seconds, because the fraction is dropped. */
  lemma RetryAfterSufficesIff(b: Bucket)
    requires BucketOk(b) && Wait(b).Some?
    ensures var w := Wait(b).value;
            Grants(b, b.last + RetryAfter(w) as real) <==> w <= 1.0 || w == w.Floor as real
  {
    var w := Wait(b).value;
    GrantsIffWaited(b, RetryAfter(w) as real);
  }

  /** A bucket that misses so much of a token that it waits `w` seconds. */
  lemma WaitingBucket(capacity: real, rate: real, w: real) returns (b: Bucket)
    requires capacity >= 1.0 && rate >= 0.1 && 0.001 <= w && w * rate <= 1.0
    ensures BucketOk(b) && b.capacity == capacity && b.rate == rate && Wait(b) == Some(w)
  {
    b := Bucket(capacity, 1.0 - w * rate, rate, 0.0);
    assert w * rate > 0.0;
    assert (w * rate) / rate == w;
  }

  lemma ScaleOrder(x: real, y: real, rate: real)
    requires rate > 0.0
    ensures x <= y <==> x * rate <= y * rate
  {
    MulOrder(rate, x, y);
    MulOrder(rate, y, x);
    assert x * rate == y * rate ==> (x - y) * rate == 0.0;
  }

  /** A wait between one and two seconds that a slow bucket can ask for. */
  lemma FractionalWait(rate: real) returns (w: real)
    requires 0.1 <= rate < 1.0
    ensures 1.0 < w < 2.0 && w * rate <= 1.0
  {
    var all := 1.0 / rate;
    assert all * rate == 1.0;
    w := RMin(1.5, all);
    ScaleOrder(all, 1.0, rate);
    ScaleOrder(w, all, rate);
  }

  /** The returned seconds suffice after every refusal exactly when the bucket refills at least one
      token a second. */
  ghost predicate AlwaysSuffices(capacity: real, rate: real) {
    forall b :: BucketOk(b) && b.capacity == capacity && b.rate == rate && Wait(b).Some? ==>
      Grants(b, b.last + RetryAfter(Wait(b).value) as real)
  }

  lemma AlwaysSufficesIff(capacity: real, rate: real)
    requires capacity >= 1.0 && rate >= 0.1
    ensures AlwaysSuffices(capacity, rate) <==> rate >= 1.0
  {
    if rate >= 1.0 {
      forall b | BucketOk(b) && b.capacity == capacity && b.rate == rate && Wait(b).Some?
        ensures Grants(b, b.last + RetryAfter(Wait(b).value) as real)
      {
        ShortWait(b);
        RetryAfterSufficesIff(b);
      }
    } else {
      var w := FractionalWait(rate);
      var b := WaitingBucket(capacity, rate, w);
      RetryAfterSufficesIff(b);
    }
  }

  lemma ShortWait(b: Bucket)
    requires BucketOk(b) && b.rate >= 1.0 && Wait(b).Some?
    ensures Wait(b).value <= 1.0
  {
    var need := (1.0 - b.tokens) / b.rate;
    assert need * b.rate == 1.0 - b.tokens;
    ScaleOrder(need, 1.0, b.rate);
  }

  /** A bucket after checks at these instants. */
  function Checked(b: Bucket, times: seq<real>): (r: Bucket)
    requires BucketOk(b)
    ensures BucketOk(r)
  {
    if times == [] then b else Check(Checked(b, times[..|times| - 1]), times[|times| - 1])
  }

  /** If this check is refused, waiting the returned seconds gets a token. */
  predicate SufficesAt(b: Bucket, now: real)
    requires BucketOk(b)
  {
    !Grants(b, now) ==>
      var refused := Check(b, now);
      Wait(refused).Some? && Grants(refused, now + RetryAfter(Wait(refused).value) as real)
  }

  /** So it is in every run of this bucket. */
  ghost predicate RunsSuffice(b: Bucket)
    requires BucketOk(b)
  {
    forall times, now :: SufficesAt(Checked(b, times), now)
  }

  lemma {:induction false} CheckedKeeps(b: Bucket, times: seq<real>)
    requires BucketOk(b)
    ensures Checked(b, times).capacity == b.capacity && Checked(b, times).rate == b.rate
  {
    if times != [] {
      CheckedKeeps(b, times[..|times| - 1]);
      CheckTakesOne(Checked(b, times[..|times| - 1]), times[|times| - 1]);
    }
  }

  /** `n` checks at one instant. */
  function Burst(n: nat, at: real): seq<real> {
    seq(n, _ => at)
  }

  lemma {:induction false} BurstTakes(b: Bucket, n: nat)
    requires BucketOk(b) && n as real <= b.tokens
    ensures Checked(b, Burst(n, b.last)) == b.(tokens := b.tokens - n as real)
  {
    if n > 0 {
      assert Burst(n, b.last)[..n - 1] == Burst(n - 1, b.last);
      BurstTakes(b, n - 1);
      var c := b.(tokens := b.tokens - (n - 1) as real);
      assert Elapsed(c.last, c.last) == 0.0;
      CheckTakesOne(c, c.last);
    }
  }

  /** An empty bucket is checked when it lacks exactly what it refills in `w` seconds. */
  lemma CheckedTooSoon(b: Bucket, w: real) returns (now: real)
    requires BucketOk(b) && b.tokens == 0.0 && 0.001 <= w && 0.0 < w * b.rate <= 1.0
    ensures now >= b.last && !Grants(b, now) && Wait(Check(b, now)) == Some(w)
  {
    var all := 1.0 / b.rate;
    assert all * b.rate == 1.0;
    ScaleOrder(w, all, b.rate);
    now := b.last + (all - w);
    assert Elapsed(now, b.last) == all - w;
    assert (all - w) * b.rate == 1.0 - w * b.rate;
    var missing := w * b.rate;
    assert Refill(b, now).tokens == 1.0 - missing;
    CheckTakesOne(b, now);
    assert missing / b.rate == w;
  }

  /** For every slow bucket there is a run that spends the burst and then asks at such a moment. */
  lemma SlowRunFails(burst: nat, rate: real, start: real)
    requires rate < 1.0
    ensures !RunsSuffice(NewBucket(burst as real, rate, start))
  {
    var b := NewBucket(burst as real, rate, start);
    var n := Max(burst, 1);
    BurstTakes(b, n);
    var spent := Checked(b, Burst(n, start));
    var w := FractionalWait(b.rate);
    ScaleOrder(0.001, w, b.rate);
    var now := CheckedTooSoon(spent, w);
    CheckTakesOne(spent, now);
    RetryAfterSufficesIff(Check(spent, now));
    assert !SufficesAt(Checked(b, Burst(n, start)), now);
  }

  /** The returned seconds suffice after every refusal in every run of a new bucket exactly when it
      is set to refill at least one token a second. */
  lemma RunsSufficeIff(burst: nat, rate: real, start: real)
    ensures RunsSuffice(NewBucket(burst as real, rate, start)) <==> rate >= 1.0
  {
    if rate >= 1.0 {
      var full := NewBucket(burst as real, rate, start);
      forall times, now ensures SufficesAt(Checked(full, times), now) {
        var b := Checked(full, times);
        CheckedKeeps(full, times);
        CheckTakesOne(b, now);
        AlwaysSufficesIff(full.capacity, full.rate);
      }
    } else {
      SlowRunFails(burst, rate, start);
    }
  }

  /** A refusal for which the returned second is not enough: six a minute, the only token spent, and
      another call 8.5 seconds later. */
  lemma RetryAfterTooShort()
    ensures var b := Check(Check(NewBucket(1.0, 0.1, 0.0), 0.0), 8.5);
            && !Grants(Check(NewBucket(1.0, 0.1, 0.0), 0.0), 8.5)
            && Wait(b) == Some(1.5) && RetryAfter(1.5) == 1 && !Grants(b, b.last + 1.0)
  {
    var start := NewBucket(1.0, 0.1, 0.0);
    CheckTakesOne(start, 0.0);
    var spent := Check(start, 0.0);
    assert spent == Bucket(1.0, 0.0, 0.1, 0.0);
    assert Elapsed(8.5, 0.0) * 0.1 == 0.85;
    var b := Check(spent, 8.5);
    assert b == Bucket(1.0, 0.85, 0.1, 8.5);
    assert (1.0 - 0.85) / 0.1 == 1.5;
    GrantsIffWaited(b, 1.0);
  }

  // ---------------------------------------------------------------- the object

  class TokenBucketCell {
    var capacity: real
    var tokens: real
    var refillPerSecond: real
    var lastRefill: real

    ghost function Value(): Bucket
      reads this
    {
      Bucket(capacity, tokens, refillPerSecond, lastRefill)
    }

    constructor (capacity: real, refillPerSecond: real, now: real)
      ensures Value() == NewBucket(capacity, refillPerSecond, now)
    {
      this.capacity := RMax(capacity, 1.0);
      this.tokens := RMax(capacity, 1.0);
      this.refillPerSecond := RMax(refillPerSecond, 0.1);
      this.lastRefill := now;
    }

    method RefillNow(now: real)
      requires BucketOk(Value())
      modifies this
      ensures Value() == Refill(old(Value()), now)
    {
      var elapsed := RMax(now - lastRefill, 0.0);
      tokens := RMin(tokens + elapsed * refillPerSecond, capacity);
      lastRefill := now;
    }

    method WaitDuration(now: real) returns (wait: Option<real>)
      requires BucketOk(Value())
      modifies this
      ensures Value() == Refill(old(Value()), now)
      ensures wait == Wait(Value())
      ensures wait.Some? ==> Grants(Value(), now + wait.value)
    {
      RefillNow(now);
      if tokens >= 1.0 {
        wait := None;
      } else {
        var deficit := 1.0 - tokens;
        wait := Some(RMax(deficit / refillPerSecond, 0.001));
        WaitSuffices(Value(), wait.value);
      }
    }

    method ConsumeOne(now: real)
      requires BucketOk(Value())
      modifies this
      ensures Value() == Consume(old(Value()), now)
    {
      RefillNow(now);
      tokens := RMax(tokens - 1.0, 0.0);
    }
  }
}
