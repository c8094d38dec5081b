/** Pauses between retries (`retry_backoff` and `deterministic_jitter_ms` in
    `src/routing/fallback.rs`). */
module Backoff {
  import opened Base
  import opened Resilience
  import opened Fallback

  type byte = n: nat | n < 256

  function Pow2(k: nat): nat {
    if k == 0 then 1 else 2 * Pow2(k - 1)
  }

  /** `2_u64.saturating_pow(k)` */
  function SatPow2(k: u32): u64 {
    if Pow2(k) <= U64_MAX then Pow2(k) else U64_MAX
  }

  function Cap(p: RetryPolicy): u64 {
    Max(p.maxBackoffMs, p.initialBackoffMs)
  }

  /** The pause before jitter, in saturating 64-bit arithmetic. */
  function Capped(p: RetryPolicy, k: u32): u64 {
    var base := SatMul64(p.initialBackoffMs, SatPow2(if k < 1 then 0 else k - 1));
    Min(base, Cap(p))
  }

  function ByteSum(name: seq<byte>): u64 {
    if name == [] then 0 else SatAdd64(ByteSum(name[..|name| - 1]), name[|name| - 1])
  }

  /** No value when the computation panics: `jitter_ms + 1` overflows, or wraps to a zero divisor. */
  function Jitter(name: seq<byte>, k: u32, jitterMs: u64): Option<u64> {
    if jitterMs == 0 then Some(0)
    else if jitterMs == U64_MAX then None
    else Some(SatAdd64(ByteSum(name), k * 17) % (jitterMs + 1))
  }

  function RetryBackoff(p: RetryPolicy, k: u32, name: seq<byte>): Option<u64> {
    match Jitter(name, k, p.jitterMs)
    case None => None
    case Some(j) => Some(SatAdd64(Capped(p, k), j))
  }

  lemma {:induction false} Pow2Grows(k: nat, m: nat)
    requires k <= m
    ensures 1 <= Pow2(k) <= Pow2(m)
    decreases m
  {
    if k < m {
      Pow2Grows(k, m - 1);
    } else if k > 0 {
      Pow2Grows(k - 1, m - 1);
    }
  }

  lemma ProductGrows(a: nat, x: nat, y: nat)
    requires x <= y
    ensures a * x <= a * y
  {
  }

  /** Saturation never shows: the pause is that of unbounded integers. */
  lemma BackoffExact(p: RetryPolicy, k: u32)
    requires k >= 1
    ensures Capped(p, k) == Min(p.initialBackoffMs * Pow2(k - 1), Cap(p))
  {
    var a := p.initialBackoffMs;
    Pow2Grows(0, k - 1);
    if a == 0 {
      assert a * SatPow2(k - 1) == 0 && a * Pow2(k - 1) == 0;
    } else if Pow2(k - 1) > U64_MAX {
      ProductGrows(Pow2(k - 1), 1, a);
      ProductGrows(U64_MAX, 1, a);
    }
  }

  /** It doubles from one retry to the next until it reaches the cap, and never shrinks. */
  lemma BackoffDoubles(p: RetryPolicy, k: u32)
    requires 1 <= k < U32_MAX
    ensures Capped(p, k + 1) == Min(2 * Capped(p, k), Cap(p))
    ensures Capped(p, 1) == p.initialBackoffMs && Capped(p, k) <= Capped(p, k + 1) <= Cap(p)
  {
    BackoffExact(p, k);
    BackoffExact(p, k + 1);
    BackoffExact(p, 1);
    DoubleProduct(p.initialBackoffMs, k);
  }

  lemma DoubleProduct(a: nat, k: nat)
    requires k >= 1
    ensures a * Pow2(k) == 2 * (a * Pow2(k - 1))
  {
    var x := Pow2(k - 1);
    assert a * (2 * x) == 2 * (a * x);
  }

  lemma {:induction false} BackoffMonotone(p: RetryPolicy, k: u32, m: u32)
    requires 1 <= k <= m
    ensures Capped(p, k) <= Capped(p, m)
    decreases m
  {
    if k < m {
      BackoffMonotone(p, k, m - 1);
      BackoffDoubles(p, m - 1);
    }
  }

  /** The pause fails only for the largest jitter setting; otherwise it lies between the capped value
      and that plus the jitter, cut off at 64 bits. */
  lemma BackoffBounds(p: RetryPolicy, k: u32, name: seq<byte>)
    requires k >= 1
    ensures RetryBackoff(p, k, name).None? <==> p.jitterMs == U64_MAX
    ensures RetryBackoff(p, k, name).Some? ==>
              Capped(p, k) <= RetryBackoff(p, k, name).value <= Min(Cap(p) + p.jitterMs, U64_MAX)
  {
    var j := Jitter(name, k, p.jitterMs);
    if j.Some? && p.jitterMs > 0 {
      ModBelow(SatAdd64(ByteSum(name), k * 17), p.jitterMs + 1);
    }
  }

  /** The bytes of a name added up without bound, from the front. */
  function Bytes(name: seq<byte>): nat {
    if name == [] then 0 else name[0] + Bytes(name[1..])
  }

  lemma {:induction false} BytesSnoc(name: seq<byte>, b: byte)
    ensures Bytes(name + [b]) == Bytes(name) + b
  {
    if name == [] {
      assert name + [b] == [b];
    } else {
      assert (name + [b])[1..] == name[1..] + [b];
      BytesSnoc(name[1..], b);
    }
  }

  lemma {:induction false} ByteSumExact(name: seq<byte>)
    ensures ByteSum(name) == Min(Bytes(name), U64_MAX)
  {
    if name != [] {
      ByteSumExact(name[..|name| - 1]);
      BytesSnoc(name[..|name| - 1], name[|name| - 1]);
      assert name == name[..|name| - 1] + [name[|name| - 1]];
    }
  }

  /** The jitter is fixed by the provider's name and the retry: their sum, seventeen for each retry, over
      the jitter setting, so it takes each value from zero to the setting. */
  lemma JitterExact(p: RetryPolicy, k: u32, name: seq<byte>)
    requires k >= 1 && p.jitterMs < U64_MAX
    ensures RetryBackoff(p, k, name) ==
            Some(Min(Min(p.initialBackoffMs * Pow2(k - 1), Max(p.initialBackoffMs, p.maxBackoffMs)) +
                     Min(Bytes(name) + 17 * k, 18_446_744_073_709_551_615) % (p.jitterMs + 1),
                     18_446_744_073_709_551_615))
  {
    BackoffExact(p, k);
    ByteSumExact(name);
    if p.jitterMs == 0 { ModOne(Min(Bytes(name) + 17 * k, 18_446_744_073_709_551_615)); }
  }

  lemma ModOne(x: nat)
    ensures x % 1 == 0
  {
  }

  lemma ModBelow(x: nat, d: nat)
    requires d > 0
    ensures x % d < d
  {
  }

  /** Without jitter it is the capped value exactly. */
  lemma NoJitter(p: RetryPolicy, k: u32, name: seq<byte>)
    requires k >= 1 && p.jitterMs == 0
    ensures RetryBackoff(p, k, name) == Some(Min(p.initialBackoffMs * Pow2(k - 1), Cap(p)))
  {
    BackoffExact(p, k);
  }

  // ---------------------------------------------------------------- a whole candidate

  /** Milliseconds slept after the first `n` failed calls. */
  function Slept(p: RetryPolicy, name: seq<byte>, n: u32): nat
    requires p.jitterMs < U64_MAX
  {
    if n == 0 then 0 else Slept(p, name, n - 1) + RetryBackoff(p, n, name).value
  }

  lemma OneMore(sum: nat, x: nat, n: nat, d: nat)
    requires sum <= n * d && x <= d
    ensures sum + x <= (n + 1) * d
  {
  }

  lemma {:induction false} SleptBound(p: RetryPolicy, name: seq<byte>, n: u32, d: nat)
    requires p.jitterMs < U64_MAX && d == Cap(p) + p.jitterMs
    ensures Slept(p, name, n) <= n * d
  {
    if n > 0 {
      SleptBound(p, name, n - 1, d);
      BackoffBounds(p, n, name);
      OneMore(Slept(p, name, n - 1), RetryBackoff(p, n, name).value, n - 1, d);
    }
  }

  lemma ScaleGrows(x: nat, y: nat, d: nat)
    requires x <= y
    ensures x * d <= y * d
  {
  }

  /** A candidate sleeps once between one call and the next, so in all at most `max_retries` times
      the cap plus jitter. */
  lemma CandidateSleepBound(p: RetryPolicy, name: seq<byte>, streaming: bool, replies: seq<Reply>)
    requires p.jitterMs < U64_MAX && CompleteTry(p.maxRetries, streaming, replies)
    ensures Slept(p, name, |replies| - 1) <= p.maxRetries * (Cap(p) + p.jitterMs)
  {
    SleptBound(p, name, |replies| - 1, Cap(p) + p.jitterMs);
    ScaleGrows(|replies| - 1, p.maxRetries, Cap(p) + p.jitterMs);
  }
}
