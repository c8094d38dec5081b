/** Circuit breakers (`src/routing/resilience.rs`). Instants are natural numbers of nanoseconds. */
module Resilience {
  import opened Base

  datatype CircuitState = Closed | Open | HalfOpen

  datatype RetryPolicy = RetryPolicy(maxRetries: u32, initialBackoffMs: u64, maxBackoffMs: u64, jitterMs: u64)

  datatype BreakerPolicy = BreakerPolicy(failureThreshold: u32, openDurationMs: u64, halfOpenMaxProbes: u32)

  datatype ProviderPolicy = ProviderPolicy(retry: RetryPolicy, breaker: BreakerPolicy)

  datatype Circuit = Circuit(state: CircuitState, failures: u32, openedAt: Option<nat>, probesUsed: u32)

  const INITIAL := Circuit(Closed, 0, None, 0)

  const NANOS_PER_MS: nat := 1_000_000

  function Threshold(p: BreakerPolicy): (t: u32)
  {
    if p.failureThreshold < 1 then 1 else p.failureThreshold
  }

  function MaxProbes(p: BreakerPolicy): u32 {
    if p.halfOpenMaxProbes < 1 then 1 else p.halfOpenMaxProbes
  }

  function OpenNanos(p: BreakerPolicy): nat {
    p.openDurationMs * NANOS_PER_MS
  }

  /** `Instant::duration_since`, which is zero when the clock reading is older. */
  function Elapsed(now: nat, since: nat): nat {
    if since <= now then now - since else 0
  }

  /** What the rest of the gateway does to one provider's circuit, in lock order. */
  datatype Event = Allow(at: nat) | Success | Failure(at: nat)

  /** Does the breaker let this call through? Only `Allow` events ask. */
  predicate Permits(p: BreakerPolicy, c: Circuit, e: Event) {
    e.Allow? &&
    match c.state
    case Closed => true
    case Open => c.openedAt.None? || Elapsed(e.at, c.openedAt.value) >= OpenNanos(p)
    case HalfOpen => c.probesUsed < MaxProbes(p)
  }

  function Step(p: BreakerPolicy, c: Circuit, e: Event): Circuit {
    match e
    case Allow(_) =>
      if !Permits(p, c, e) then c
      else (match c.state
            case Closed => c
            case Open => c.(state := HalfOpen, probesUsed := 1)
            case HalfOpen => c.(probesUsed := c.probesUsed + 1))
    case Success => INITIAL
    case Failure(at) =>
      match c.state
      case Closed =>
        var n := SatAdd32(c.failures, 1);
        if n >= Threshold(p) then Circuit(Open, n, Some(at), 0) else c.(failures := n)
      case HalfOpen => c.(state := Open, openedAt := Some(at), probesUsed := 0)
      case Open => c
  }

  function Run(p: BreakerPolicy, c: Circuit, es: seq<Event>): Circuit
    decreases es
  {
    if es == [] then c else Run(p, Step(p, c, es[0]), es[1..])
  }

  /** How many of the events are calls that the breaker let through. */
  function Permitted(p: BreakerPolicy, c: Circuit, es: seq<Event>): nat
    decreases es
  {
    if es == [] then 0
    else (if Permits(p, c, es[0]) then 1 else 0) + Permitted(p, Step(p, c, es[0]), es[1..])
  }

  lemma {:induction false} RunConcat(p: BreakerPolicy, c: Circuit, es: seq<Event>, fs: seq<Event>)
    ensures Run(p, c, es + fs) == Run(p, Run(p, c, es), fs)
    decreases es
  {
    if es == [] {
      assert es + fs == fs;
    } else {
      assert (es + fs)[1..] == es[1..] + fs;
      RunConcat(p, Step(p, c, es[0]), es[1..], fs);
    }
  }

  // ---------------------------------------------------------------- state as a function of history

  /** Failures recorded after the last success. */
  function FailuresSinceSuccess(h: seq<Event>): nat {
    if h == [] then 0
    else
      var last := h[|h| - 1];
      match last
      case Success => 0
      case Failure(_) => FailuresSinceSuccess(h[..|h| - 1]) + 1
      case Allow(_) => FailuresSinceSuccess(h[..|h| - 1])
  }

  /** What one circuit's fields say about its history. */
  ghost predicate Agrees(p: BreakerPolicy, c: Circuit, h: seq<Event>) {
    && (c.state == Closed <==> FailuresSinceSuccess(h) < Max(1, p.failureThreshold))
    && (c.state == Closed ==> c.failures == FailuresSinceSuccess(h) && c.openedAt == None && c.probesUsed == 0)
    && (c.state != Closed ==>
          c.failures == Max(1, p.failureThreshold) && c.openedAt.Some? && Failure(c.openedAt.value) in h)
    && (c.state == Open ==> c.probesUsed == 0)
    && (c.state == HalfOpen ==> 1 <= c.probesUsed <= Max(1, p.halfOpenMaxProbes))
  }

  /** Over every history: closed exactly while fewer than the threshold of failures have been
      recorded since the last success; the counter is exact until then and never saturates. */
  lemma {:induction false} StateAgreesWithHistory(p: BreakerPolicy, h: seq<Event>)
    ensures Agrees(p, Run(p, INITIAL, h), h)
  {
    if h != [] {
      var prefix, last := h[..|h| - 1], h[|h| - 1];
      StateAgreesWithHistory(p, prefix);
      assert h == prefix + [last];
      RunConcat(p, INITIAL, prefix, [last]);
      var c := Run(p, INITIAL, prefix);
      assert Run(p, INITIAL, h) == Step(p, c, last);
      assert c.openedAt.Some? ==> Failure(c.openedAt.value) in h;
    }
  }

  /** Failures that arrive while the circuit is open never extend its window. */
  lemma {:induction false} FailuresWhileOpenIgnored(p: BreakerPolicy, c: Circuit, es: seq<Event>)
    requires c.state == Open && (forall e :: e in es ==> e.Failure?)
    ensures Run(p, c, es) == c
    decreases es
  {
    if es != [] {
      assert es[0] in es;
      assert forall e :: e in es[1..] ==> e in es;
      FailuresWhileOpenIgnored(p, c, es[1..]);
    }
  }

  /** A half-open circuit whose probes are used up refuses every call, whenever it comes, until
      some success or failure is recorded. */
  lemma {:induction false} ExhaustedStaysPut(p: BreakerPolicy, c: Circuit, es: seq<Event>)
    requires c.state == HalfOpen && c.probesUsed >= MaxProbes(p)
    requires forall e :: e in es ==> e.Allow?
    ensures Run(p, c, es) == c && Permitted(p, c, es) == 0
    decreases es
  {
    if es != [] {
      assert es[0] in es;
      assert forall e :: e in es[1..] ==> e in es;
      ExhaustedStaysPut(p, c, es[1..]);
    }
  }

  // ---------------------------------------------------------------- how much an open circuit lets through

  function Time(e: Event, before: nat): nat {
    if e.Success? then before else e.at
  }

  /** The clock never goes back along the history and stays within [from, to]. */
  predicate Timed(es: seq<Event>, from: nat, to: nat)
    decreases es
  {
    if es == [] then from <= to
    else from <= Time(es[0], from) && Timed(es[1..], Time(es[0], from), to)
  }

  /** Calls that may still be let through before `to`, given `m` probes per window of length `d`. */
  function Allowance(m: nat, d: nat, c: Circuit, now: nat, to: nat): int
    requires d > 0 && now <= to && c.openedAt.Some? && c.openedAt.value <= now
  {
    match c.state
    case Closed => 0
    case Open => m * ((to - c.openedAt.value) / d)
    case HalfOpen => m - c.probesUsed + m * ((to - now) / d)
  }

  lemma MulMonotone(m: nat, a: int, b: int)
    requires a <= b
    ensures m * a <= m * b
  {
  }

  lemma QuotientBound(b: nat, d: nat, q: nat)
    requires d > 0 && d * q <= b
    ensures q <= b / d
  {
    if b / d < q {
      MulMonotone(d, b / d + 1, q);
      assert false;
    }
  }

  /** Windows that still fit: fewer from a later start, at least one fewer after a whole window. */
  lemma WindowsLeft(a: nat, b: nat, d: nat)
    requires d > 0 && a <= b
    ensures 0 <= a / d <= b / d
    ensures a + d <= b ==> a / d + 1 <= b / d
  {
    var q := a / d;
    assert a == d * q + a % d;
    QuotientBound(b, d, q);
    if a + d <= b {
      assert d * (q + 1) == d * q + d;
      QuotientBound(b, d, q + 1);
    }
  }

  lemma TimedReaches(es: seq<Event>, from: nat, to: nat)
    requires Timed(es, from, to)
    ensures from <= to
    decreases es
  {
    if es != [] { TimedReaches(es[1..], Time(es[0], from), to); }
  }

  /** One event spends what it lets through. */
  lemma AllowanceStep(p: BreakerPolicy, m: nat, d: nat, c: Circuit, e: Event, now: nat, to: nat)
    requires d == OpenNanos(p) > 0 && m == MaxProbes(p) && !e.Success?
    requires now <= e.at <= to
    requires c.state != Closed && c.openedAt.Some? && c.openedAt.value <= now
    requires c.state == HalfOpen ==> c.probesUsed <= m
    ensures var c' := Step(p, c, e);
            && c'.state != Closed && c'.openedAt.Some? && c'.openedAt.value <= e.at
            && (c'.state == HalfOpen ==> c'.probesUsed <= m)
            && (if Permits(p, c, e) then 1 else 0) + Allowance(m, d, c', e.at, to) <= Allowance(m, d, c, now, to)
  {
    var later, sooner := (to - e.at) / d, (to - now) / d;
    WindowsLeft(to - e.at, to - now, d);
    MulMonotone(m, later, sooner);
    if c.state == Open && Permits(p, c, e) {
      var whole := (to - c.openedAt.value) / d;
      WindowsLeft(to - e.at, to - c.openedAt.value, d);
      MulMonotone(m, later + 1, whole);
      assert m * (later + 1) == m * later + m;
    }
  }

  lemma {:induction false} PermittedWithinAllowance(p: BreakerPolicy, m: nat, d: nat, c: Circuit, es: seq<Event>,
                                                    now: nat, to: nat)
    requires d == OpenNanos(p) > 0 && m == MaxProbes(p) && Timed(es, now, to)
    requires forall e :: e in es ==> !e.Success?
    requires now <= to && c.state != Closed && c.openedAt.Some? && c.openedAt.value <= now
    requires c.state == HalfOpen ==> c.probesUsed <= m
    ensures Permitted(p, c, es) <= Allowance(m, d, c, now, to)
    decreases es
  {
    if es != [] {
      var e := es[0];
      assert e in es;
      assert forall x :: x in es[1..] ==> x in es;
      TimedReaches(es[1..], e.at, to);
      AllowanceStep(p, m, d, c, e, now, to);
      PermittedWithinAllowance(p, m, d, Step(p, c, e), es[1..], e.at, to);
    } else {
      WindowsLeft(to - now, to - c.openedAt.value, d);
      MulMonotone(m, 0, (to - now) / d);
      MulMonotone(m, 0, (to - c.openedAt.value) / d);
    }
  }

  /** Split any history where the circuit opened at `t0`; with no success from there to `t1`, the
      breaker lets at most `max(1, probes) * floor((t1 - t0) / open_duration)` calls through. */
  lemma OpenCircuitBound(p: BreakerPolicy, before: seq<Event>, after: seq<Event>, t0: nat, t1: nat)
    requires p.openDurationMs > 0
    requires Run(p, INITIAL, before).state == Open && Run(p, INITIAL, before).openedAt == Some(t0)
    requires Timed(after, t0, t1) && (forall e :: e in after ==> !e.Success?)
    ensures t0 <= t1
    ensures Permitted(p, Run(p, INITIAL, before), after) <=
            Max(1, p.halfOpenMaxProbes) * ((t1 - t0) / (p.openDurationMs * 1_000_000))
  {
    TimedReaches(after, t0, t1);
    PermittedWithinAllowance(p, MaxProbes(p), OpenNanos(p), Run(p, INITIAL, before), after, t0, t1);
  }

  // ---------------------------------------------------------------- and exactly how much

  /** `n` calls at one instant. */
  function Calls(n: nat, at: nat): (es: seq<Event>)
    ensures |es| == n && forall e :: e in es ==> e == Allow(at)
  {
    seq(n, _ => Allow(at))
  }

  lemma CallsCons(n: nat, at: nat)
    requires n > 0
    ensures Calls(n, at)[0] == Allow(at) && Calls(n, at)[1..] == Calls(n - 1, at)
  {
  }

  lemma {:induction false} HalfOpenCalls(p: BreakerPolicy, c: Circuit, n: nat, at: nat)
    requires c.state == HalfOpen && c.probesUsed <= Max(1, p.halfOpenMaxProbes)
    ensures var m := Min(n, Max(1, p.halfOpenMaxProbes) - c.probesUsed);
            && Permitted(p, c, Calls(n, at)) == m
            && Run(p, c, Calls(n, at)) == c.(probesUsed := c.probesUsed + m)
    decreases n
  {
    if n > 0 {
      CallsCons(n, at);
      HalfOpenCalls(p, Step(p, c, Allow(at)), n - 1, at);
    }
  }

  lemma {:induction false} ClosedCalls(p: BreakerPolicy, c: Circuit, n: nat, at: nat)
    requires c.state == Closed
    ensures Permitted(p, c, Calls(n, at)) == n && Run(p, c, Calls(n, at)) == c
    decreases n
  {
    if n > 0 {
      CallsCons(n, at);
      ClosedCalls(p, c, n - 1, at);
    }
  }

  lemma {:induction false} TooEarly(p: BreakerPolicy, c: Circuit, n: nat, at: nat, t0: nat)
    requires c.state == Open && c.openedAt == Some(t0) && t0 <= at < t0 + p.openDurationMs * 1_000_000
    ensures Permitted(p, c, Calls(n, at)) == 0 && Run(p, c, Calls(n, at)) == c
    decreases n
  {
    if n > 0 {
      CallsCons(n, at);
      TooEarly(p, c, n - 1, at, t0);
    }
  }

  lemma LateEnough(p: BreakerPolicy, c: Circuit, n: nat, at: nat, t0: nat)
    requires c.state == Open && c.openedAt == Some(t0) && at >= t0 + p.openDurationMs * 1_000_000
    ensures Permitted(p, c, Calls(n, at)) == Min(n, Max(1, p.halfOpenMaxProbes))
    ensures n > 0 ==>
              Run(p, c, Calls(n, at)) ==
              c.(state := HalfOpen, probesUsed := Min(n, Max(1, p.halfOpenMaxProbes)))
  {
    if n > 0 {
      CallsCons(n, at);
      HalfOpenCalls(p, Step(p, c, Allow(at)), n - 1, at);
    }
  }

  /** How many of `n` calls at one instant get through after any history: all of them while fewer than
      the threshold of failures have been recorded since the last success; none before the open
      duration is over, and from then on as many as there are probes; and what is left of the probes of
      a half-open circuit. */
  lemma PermittedExactly(p: BreakerPolicy, before: seq<Event>, n: nat, at: nat)
    ensures var c := Run(p, INITIAL, before);
            && (FailuresSinceSuccess(before) < Max(1, p.failureThreshold) ==> Permitted(p, c, Calls(n, at)) == n)
            && (FailuresSinceSuccess(before) >= Max(1, p.failureThreshold) ==>
                  && c.openedAt.Some?
                  && (c.state == Open && at >= c.openedAt.value ==>
                        Permitted(p, c, Calls(n, at)) ==
                        if at - c.openedAt.value >= p.openDurationMs * 1_000_000
                        then Min(n, Max(1, p.halfOpenMaxProbes)) else 0)
                  && (c.state == HalfOpen ==>
                        Permitted(p, c, Calls(n, at)) == Min(n, Max(1, p.halfOpenMaxProbes) - c.probesUsed)))
  {
    var c := Run(p, INITIAL, before);
    StateAgreesWithHistory(p, before);
    match c.state {
      case Closed => ClosedCalls(p, c, n, at);
      case HalfOpen => HalfOpenCalls(p, c, n, at);
      case Open =>
        if at >= c.openedAt.value + p.openDurationMs * 1_000_000 {
          LateEnough(p, c, n, at, c.openedAt.value);
        } else if at >= c.openedAt.value {
          TooEarly(p, c, n, at, c.openedAt.value);
        }
    }
  }

  /** One open window used to the full: every probe at its end, and a failure. */
  function Burst(m: nat, at: nat): seq<Event> {
    Calls(m, at) + [Failure(at)]
  }

  function Bursts(m: nat, d: nat, t0: nat, windows: nat): seq<Event>
    decreases windows
  {
    if windows == 0 then [] else Burst(m, t0 + d) + Bursts(m, d, t0 + d, windows - 1)
  }

  lemma {:induction false} PermittedConcat(p: BreakerPolicy, c: Circuit, es: seq<Event>, fs: seq<Event>)
    ensures Permitted(p, c, es + fs) == Permitted(p, c, es) + Permitted(p, Run(p, c, es), fs)
    decreases es
  {
    if es == [] {
      assert es + fs == fs;
    } else {
      assert (es + fs)[1..] == es[1..] + fs;
      PermittedConcat(p, Step(p, c, es[0]), es[1..], fs);
    }
  }

  lemma BurstPermits(p: BreakerPolicy, c: Circuit, m: nat, at: nat, t0: nat)
    requires c.state == Open && c.openedAt == Some(t0) && at == t0 + p.openDurationMs * 1_000_000
    requires m == Max(1, p.halfOpenMaxProbes)
    ensures Permitted(p, c, Burst(m, at)) == m
    ensures Run(p, c, Burst(m, at)).state == Open && Run(p, c, Burst(m, at)).openedAt == Some(at)
  {
    LateEnough(p, c, m, at, t0);
    PermittedConcat(p, c, Calls(m, at), [Failure(at)]);
    RunConcat(p, c, Calls(m, at), [Failure(at)]);
  }

  lemma {:induction false} TimedCalls(n: nat, at: nat, from: nat, rest: seq<Event>, to: nat)
    requires from <= at && Timed(rest, at, to) && (n == 0 ==> from == at)
    ensures Timed(Calls(n, at) + rest, from, to)
    decreases n
  {
    if n == 0 {
      assert Calls(n, at) + rest == rest;
    } else {
      CallsCons(n, at);
      assert (Calls(n, at) + rest)[1..] == Calls(n - 1, at) + rest;
      TimedCalls(n - 1, at, at, rest, to);
    }
  }

  lemma OneMoreWindow(m: nat, w: nat, d: nat, t0: nat)
    requires w > 0
    ensures m + m * (w - 1) == m * w && t0 + d + (w - 1) * d == t0 + w * d
  {
  }

  lemma {:induction false} BurstsTimed(m: nat, d: nat, t0: nat, windows: nat)
    requires m > 0
    ensures Timed(Bursts(m, d, t0, windows), t0, t0 + windows * d)
    ensures forall e :: e in Bursts(m, d, t0, windows) ==> !e.Success?
    decreases windows
  {
    if windows > 0 {
      var at, rest := t0 + d, Bursts(m, d, t0 + d, windows - 1);
      BurstsTimed(m, d, at, windows - 1);
      OneMoreWindow(m, windows, d, t0);
      assert ([Failure(at)] + rest)[1..] == rest;
      TimedCalls(m, at, t0, [Failure(at)] + rest, t0 + windows * d);
      assert Burst(m, at) + rest == Calls(m, at) + ([Failure(at)] + rest);
    }
  }

  lemma {:induction false} BurstsPermit(p: BreakerPolicy, c: Circuit, m: nat, d: nat, t0: nat, windows: nat)
    requires c.state == Open && c.openedAt == Some(t0)
    requires m == Max(1, p.halfOpenMaxProbes) && d == p.openDurationMs * 1_000_000
    ensures Permitted(p, c, Bursts(m, d, t0, windows)) == m * windows
    decreases windows
  {
    if windows > 0 {
      BurstPermits(p, c, m, t0 + d, t0);
      BurstsPermit(p, Run(p, c, Burst(m, t0 + d)), m, d, t0 + d, windows - 1);
      PermittedConcat(p, c, Burst(m, t0 + d), Bursts(m, d, t0 + d, windows - 1));
      OneMoreWindow(m, windows, d, t0);
    }
  }

  /** The bound is attained: for every number of windows there is a run without success in which the
      breaker lets every probe of each of them through. */
  lemma OpenCircuitBoundAttained(p: BreakerPolicy, before: seq<Event>, t0: nat, windows: nat)
    returns (after: seq<Event>)
    requires Run(p, INITIAL, before).state == Open && Run(p, INITIAL, before).openedAt == Some(t0)
    ensures Timed(after, t0, t0 + windows * (p.openDurationMs * 1_000_000)) && forall e :: e in after ==> !e.Success?
    ensures Permitted(p, Run(p, INITIAL, before), after) == Max(1, p.halfOpenMaxProbes) * windows
  {
    var m, d := Max(1, p.halfOpenMaxProbes), p.openDurationMs * 1_000_000;
    after := Bursts(m, d, t0, windows);
    BurstsTimed(m, d, t0, windows);
    BurstsPermit(p, Run(p, INITIAL, before), m, d, t0, windows);
  }

  // ---------------------------------------------------------------- the registry

  datatype Entry = Entry(provider: string, event: Event)

  /** One provider's part of the registry's history. */
  function Project(h: seq<Entry>, provider: string): seq<Event> {
    if h == [] then []
    else
      var rest := Project(h[..|h| - 1], provider);
      if h[|h| - 1].provider == provider then rest + [h[|h| - 1].event] else rest
  }

  lemma ProjectSnoc(h: seq<Entry>, x: Entry, provider: string)
    ensures Project(h + [x], provider) ==
            if x.provider == provider then Project(h, provider) + [x.event] else Project(h, provider)
  {
    assert (h + [x])[..|h|] == h;
  }

  function CircuitOf(circuits: map<string, Circuit>, provider: string): Circuit {
    if provider in circuits then circuits[provider] else INITIAL
  }

  /** Every circuit is what its own history makes of it; providers do not affect each other. */
  ghost predicate Folds(policy: string -> BreakerPolicy, circuits: map<string, Circuit>, h: seq<Entry>) {
    forall p :: CircuitOf(circuits, p) == Run(policy(p), INITIAL, Project(h, p))
  }

  lemma FoldsStep(policy: string -> BreakerPolicy, circuits: map<string, Circuit>, h: seq<Entry>, x: Entry)
    requires Folds(policy, circuits, h)
    ensures Folds(policy, circuits[x.provider := Step(policy(x.provider), CircuitOf(circuits, x.provider), x.event)],
        h + [x])
  {
    var after := circuits[x.provider := Step(policy(x.provider), CircuitOf(circuits, x.provider), x.event)];
    forall p ensures CircuitOf(after, p) == Run(policy(p), INITIAL, Project(h + [x], p)) {
      ProjectSnoc(h, x, p);
      assert CircuitOf(circuits, p) == Run(policy(p), INITIAL, Project(h, p));
      RunConcat(policy(p), INITIAL, Project(h, p), [x.event]);
    }
  }

  class ResilienceRegistry {
    const defaultPolicy: ProviderPolicy
    const providerPolicies: map<string, ProviderPolicy>
    var circuits: map<string, Circuit>
    ghost var history: seq<Entry>

    function PolicyFor(provider: string): ProviderPolicy {
      if provider in providerPolicies then providerPolicies[provider] else defaultPolicy
    }

    ghost predicate Valid()
      reads this
    {
      Folds(p => PolicyFor(p).breaker, circuits, history)
    }

    constructor (defaultPolicy: ProviderPolicy, providerPolicies: map<string, ProviderPolicy>, names: seq<string>)
      ensures Valid() && history == []
      ensures this.defaultPolicy == defaultPolicy && this.providerPolicies == providerPolicies
    {
      this.defaultPolicy, this.providerPolicies := defaultPolicy, providerPolicies;
      circuits := map n | n in names :: INITIAL;
      history := [];
    }

    method AllowProviderCall(provider: string, now: nat) returns (allowed: bool)
      requires Valid()
      modifies this
      ensures Valid() && history == old(history) + [Entry(provider, Allow(now))]
      ensures allowed == Permits(PolicyFor(provider).breaker, old(CircuitOf(circuits, provider)), Allow(now))
    {
      var policy := PolicyFor(provider).breaker;
      var c := CircuitOf(circuits, provider);
      match c.state {
        case Closed =>
          allowed := true;
        case Open =>
          allowed := c.openedAt.None? || Elapsed(now, c.openedAt.value) >= OpenNanos(policy);
          if allowed {
            c := c.(state := HalfOpen, probesUsed := 1);
          }
        case HalfOpen =>
          allowed := c.probesUsed < MaxProbes(policy);
          if allowed {
            c := c.(probesUsed := c.probesUsed + 1);
          }
      }
      FoldsStep(p => PolicyFor(p).breaker, circuits, history, Entry(provider, Allow(now)));
      circuits := circuits[provider := c];
      history := history + [Entry(provider, Allow(now))];
    }

    method RecordSuccess(provider: string)
      requires Valid()
      modifies this
      ensures Valid() && history == old(history) + [Entry(provider, Success)]
    {
      FoldsStep(p => PolicyFor(p).breaker, circuits, history, Entry(provider, Success));
      circuits := circuits[provider := CircuitOf(circuits, provider).(state := Closed, failures := 0, openedAt := None,
          probesUsed := 0)];
      history := history + [Entry(provider, Success)];
    }

    method RecordFailure(provider: string, now: nat)
      requires Valid()
      modifies this
      ensures Valid() && history == old(history) + [Entry(provider, Failure(now))]
    {
      var threshold := Threshold(PolicyFor(provider).breaker);
      var c := CircuitOf(circuits, provider);
      match c.state {
        case Closed =>
          c := c.(failures := SatAdd32(c.failures, 1));
          if c.failures >= threshold {
            c := c.(state := Open, openedAt := Some(now), probesUsed := 0);
          }
        case HalfOpen =>
          c := c.(state := Open, openedAt := Some(now), probesUsed := 0);
        case Open =>
      }
      FoldsStep(p => PolicyFor(p).breaker, circuits, history, Entry(provider, Failure(now)));
      circuits := circuits[provider := c];
      history := history + [Entry(provider, Failure(now))];
    }

    /** Reading the state says where the recorded history stands. */
    method StateOf(provider: string) returns (s: CircuitState)
      requires Valid()
      ensures s == Closed <==>
              FailuresSinceSuccess(Project(history, provider)) < Max(1, PolicyFor(provider).breaker.failureThreshold)
      ensures s == Run(PolicyFor(provider).breaker, INITIAL, Project(history, provider)).state
    {
      s := CircuitOf(circuits, provider).state;
      StateAgreesWithHistory(PolicyFor(provider).breaker, Project(history, provider));
      var policy := (p: string) => PolicyFor(p).breaker;
      assert policy(provider) == PolicyFor(provider).breaker;
      assert CircuitOf(circuits, provider) == Run(policy(provider), INITIAL, Project(history, provider));
    }
  }
}
