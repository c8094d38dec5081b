/** The routing decision in terms of configuration, metrics and circuits: which order each policy gives,
    and when each reason is reported. */
module Decisions {
  import opened Base
  import opened Ordering
  import opened Resilience
  import opened Selection
  import opened Routing
  import PrefixAffinity

  // ---------------------------------------------------------------- orders

  /** First by a number, then by the configured priority, then by name. */
  ghost predicate Before(x: real, y: real, a: Provider, b: Provider) {
    || x < y
    || (x == y && a.priority < b.priority)
    || (x == y && a.priority == b.priority && StrLess(a.name, b.name))
  }

  lemma OrderedPair(ps: seq<Provider>, pool: Option<Pool>, model: string, policy: Policy, v: View, i: nat, j: nat)
    requires DistinctNames(ps) && i < j < |Candidates(ps, pool, model, policy, v)|
    ensures var cs := Candidates(ps, pool, model, policy, v);
            KeyLess(RankKey(ByPolicy(policy, v), cs[i]), RankKey(ByPolicy(policy, v), cs[j]))
  {
    CandidatesFacts(ps, pool, model, policy, v);
  }

  /** The cost policy: what a thousand tokens in and a thousand tokens out cost together. */
  lemma CostOrder(ps: seq<Provider>, pool: Option<Pool>, model: string, v: View, i: nat, j: nat)
    requires DistinctNames(ps) && i < j < |Candidates(ps, pool, model, Cost, v)|
    ensures var a, b := Candidates(ps, pool, model, Cost, v)[i], Candidates(ps, pool, model, Cost, v)[j];
            Before(a.inputCost + a.outputCost, b.inputCost + b.outputCost, a, b)
  {
    OrderedPair(ps, pool, model, Cost, v, i, j);
  }

  /** The priority policy, and the affinity policy where it has no say: the smaller number first. */
  lemma PriorityOrder(ps: seq<Provider>, pool: Option<Pool>, model: string, policy: Policy, v: View, i: nat, j: nat)
    requires DistinctNames(ps) && i < j < |Candidates(ps, pool, model, policy, v)|
    requires policy == Priority || policy == Affinity
    ensures var a, b := Candidates(ps, pool, model, policy, v)[i], Candidates(ps, pool, model, policy, v)[j];
            Before(0.0, 0.0, a, b)
  {
    OrderedPair(ps, pool, model, policy, v, i, j);
  }

  /** The latency a provider is known for: its recent 95th percentile, else its average. */
  ghost predicate Known(v: View, name: string, ms: real) {
    && v.snapshot.Some? && ms > 0.0
    && var s := v.snapshot.value;
       || (name in s.p95 && s.p95[name] == ms)
       || (!(name in s.p95 && s.p95[name] > 0.0) && name in s.average && s.average[name] == ms)
  }

  /** What is added for load, errors and the circuit. */
  ghost function Penalty(v: View, name: string): real {
    (if v.snapshot.Some? && name in v.snapshot.value.inFlight then 25.0 * v.snapshot.value.inFlight[name] as real
     else 0.0) +
    (if v.snapshot.Some? && name in v.snapshot.value.pressure then 10.0 * v.snapshot.value.pressure[name] else 0.0) +
    (if v.snapshot.Some? && name in v.snapshot.value.recentErrors then
       250.0 * |v.snapshot.value.recentErrors[name]| as real
     else 0.0) +
    (if v.circuits.Some? && v.circuits.value(name) == Open then 1_000_000.0
     else if v.circuits.Some? && v.circuits.value(name) == HalfOpen then 10_000.0
     else 0.0)
  }

  lemma LatencyScoreExact(v: View, name: string)
    ensures match LatencyScore(v, name)
            case Fin(x) => Known(v, name, x - Penalty(v, name))
            case Inf => forall ms :: !Known(v, name, ms)
  {
  }

  lemma KnownOnce(v: View, name: string, x: real, y: real)
    requires Known(v, name, x) && Known(v, name, y)
    ensures x == y
  {
  }

  /** The latency policy: known latency plus 25 for each call in flight, 10 for each unit of pressure, 250
      for each recent error, and 10 000 or 1 000 000 for a half-open or open circuit. Providers without a
      known latency come last, whatever their load. */
  lemma LatencyOrder(ps: seq<Provider>, pool: Option<Pool>, model: string, v: View, i: nat, j: nat)
    requires DistinctNames(ps) && i < j < |Candidates(ps, pool, model, Latency, v)|
    ensures var a, b := Candidates(ps, pool, model, Latency, v)[i], Candidates(ps, pool, model, Latency, v)[j];
            || (exists x, y ::
                  && Known(v, a.name, x) && Known(v, b.name, y)
                  && Before(x + Penalty(v, a.name), y + Penalty(v, b.name), a, b))
            || ((exists x :: Known(v, a.name, x)) && forall y :: !Known(v, b.name, y))
            || ((forall x :: !Known(v, a.name, x)) && (forall y :: !Known(v, b.name, y)) && Before(0.0, 0.0, a, b))
  {
    var a, b := Candidates(ps, pool, model, Latency, v)[i], Candidates(ps, pool, model, Latency, v)[j];
    OrderedPair(ps, pool, model, Latency, v, i, j);
    LatencyScoreExact(v, a.name);
    LatencyScoreExact(v, b.name);
    var x, y := LatencyScore(v, a.name), LatencyScore(v, b.name);
    if x.Fin? && y.Fin? {
      var p, q := x.value - Penalty(v, a.name), y.value - Penalty(v, b.name);
      assert Known(v, a.name, p) && Known(v, b.name, q)
          && Before(p + Penalty(v, a.name), q + Penalty(v, b.name), a, b);
    }
  }

  /** `f64::ceil` and the cast: the least 64-bit number that is not smaller, or the largest of all. */
  lemma CeilExact(x: real)
    ensures x <= 0.0 ==> CeilU64(x) == 0
    ensures 0.0 < x <= 18_446_744_073_709_551_615.0 ==> CeilU64(x) as real - 1.0 < x <= CeilU64(x) as real
    ensures x > 18_446_744_073_709_551_615.0 ==> CeilU64(x) == 18_446_744_073_709_551_615
  {
    var c := -((-x).Floor);
    assert c as real - 1.0 < x <= c as real;
  }

  /** Calls in flight, or units of pressure if they are more, rounded up. */
  ghost function Busy(v: View, name: string): nat {
    if v.snapshot.None? then 0
    else
      var s := v.snapshot.value;
      var calls := if name in s.inFlight then s.inFlight[name] else 0;
      var units := if name in s.pressure then CeilU64(s.pressure[name]) else 0;
      if calls < units then units else calls
  }

  ghost function Faults(v: View, name: string): nat {
    if v.snapshot.Some? && name in v.snapshot.value.recentErrors then |v.snapshot.value.recentErrors[name]| else 0
  }

  /** Load in unbounded integers; 64-bit sums that would overflow stop at the largest number. */
  ghost function LoadOf(v: View, name: string): nat {
    Busy(v, name) + 1_000 * Faults(v, name) +
    (if v.circuits.Some? && v.circuits.value(name) == Open then 1_000_000 else 0)
  }

  lemma LoadScoreExact(v: View, name: string)
    ensures LoadScore(v, name) == Min(LoadOf(v, name), 18_446_744_073_709_551_615)
  {
  }

  /** When load decides: the lighter provider first, and equal loads in the order of the baseline. */
  lemma LoadOrder(baseline: seq<Provider>, v: View, a: AffinityInput, f: string, i: nat, j: nat)
    requires DistinctNames(baseline) && Affine(baseline, v, a, f).1 == LoadImbalanced
    requires i < j < |Affine(baseline, v, a, f).0|
    ensures var p, q := Affine(baseline, v, a, f).0[i], Affine(baseline, v, a, f).0[j];
            var x, y := Min(LoadOf(v, p.name), 18_446_744_073_709_551_615),
                        Min(LoadOf(v, q.name), 18_446_744_073_709_551_615);
            || x < y
            || (x == y && exists k, m :: 0 <= k < m < |baseline| && baseline[k] == p && baseline[m] == q)
  {
    LoadImbalancedOrder(baseline, v, a, f, i, j);
    LoadScoreExact(v, Affine(baseline, v, a, f).0[i].name);
    LoadScoreExact(v, Affine(baseline, v, a, f).0[j].name);
  }

  // ---------------------------------------------------------------- reasons

  predicate Broken(v: View, p: Provider) {
    v.circuits.Some? && v.circuits.value(p.name) == Open
  }

  /** The index has answered with this provider's name. */
  predicate Recalled(a: AffinityInput, f: string, p: Provider) {
    Previous(a, f) == Some(p.name)
  }

  /** One provider is busier than another by more than the threshold. */
  ghost predicate Busier(v: View, p: Provider, q: Provider, threshold: nat) {
    && v.snapshot.Some?
    && var s := v.snapshot.value;
       || CountAt(s.inFlight, p.name) > CountAt(s.inFlight, q.name) + threshold
       || CeilU64(Lookup0(s.pressure, p.name)) > CeilU64(Lookup0(s.pressure, q.name)) + threshold
  }

  lemma HealthyIs(baseline: seq<Provider>, v: View, p: Provider)
    requires DistinctNames(baseline)
    ensures p in Healthy(v, baseline) <==> p in baseline && !Broken(v, p)
    ensures Healthy(v, baseline) == [] <==> forall q :: q in baseline ==> Broken(v, q)
  {
    FilterDistinct(baseline, (q: Provider) => !OpenCircuit(v, q.name));
    if Healthy(v, baseline) != [] { assert Healthy(v, baseline)[0] in Healthy(v, baseline); }
  }

  lemma OneByName(baseline: seq<Provider>, p: Provider, q: Provider)
    requires DistinctNames(baseline) && p in baseline && q in baseline && p.name == q.name
    ensures p == q
  {
  }

  lemma {:induction false} LeastIsReached(s: Snapshot, ps: seq<Provider>)
    requires ps != []
    ensures exists q :: q in ps && CountAt(s.inFlight, q.name) == MinInFlight(s, ps)
    ensures exists q :: q in ps && QueuePressure(s, q.name) == MinPressure(s, ps)
  {
    if |ps| == 1 {
      assert ps[0] in ps;
    } else {
      LeastIsReached(s, ps[1..]);
      var x :| x in ps[1..] && CountAt(s.inFlight, x.name) == MinInFlight(s, ps[1..]);
      var y :| y in ps[1..] && QueuePressure(s, y.name) == MinPressure(s, ps[1..]);
      assert ps[0] in ps && x in ps && y in ps;
    }
  }

  /** The load test compares with the least loaded healthy provider, so with each of them. */
  lemma OverloadedIff(baseline: seq<Provider>, v: View, p: Provider, threshold: u64)
    requires DistinctNames(baseline) && Healthy(v, baseline) != []
    ensures !LoadWithin(v, p.name, Healthy(v, baseline), threshold) <==>
            exists q :: q in baseline && !Broken(v, q) && Busier(v, p, q, threshold)
  {
    var healthy := Healthy(v, baseline);
    forall q ensures q in healthy <==> q in baseline && !Broken(v, q) { HealthyIs(baseline, v, q); }
    if v.snapshot.Some? {
      var s := v.snapshot.value;
      LeastIsReached(s, healthy);
      var x :| x in healthy && CountAt(s.inFlight, x.name) == MinInFlight(s, healthy);
      var y :| y in healthy && QueuePressure(s, y.name) == MinPressure(s, healthy);
      if CountAt(s.inFlight, p.name) > SatAdd64(MinInFlight(s, healthy), threshold) {
        assert Busier(v, p, x, threshold);
      }
      if QueuePressure(s, p.name) > SatAdd64(MinPressure(s, healthy), threshold) {
        assert Busier(v, p, y, threshold);
      }
      forall q | q in baseline && !Broken(v, q) && Busier(v, p, q, threshold)
        ensures !LoadWithin(v, p.name, healthy, threshold)
      {
        MinIsLeast(s, healthy, q);
      }
    }
  }

  /** When each reason is given. The recalled provider is the one that the index answers with, if it is
      a candidate at all. */
  lemma ReasonExact(baseline: seq<Provider>, v: View, a: AffinityInput, f: string)
    requires DistinctNames(baseline)
    ensures var reason := Affine(baseline, v, a, f).1;
            && (reason == NoProvider <==> baseline == [])
            && (reason == CircuitOpen <==>
                  && baseline != []
                  && ((forall p :: p in baseline ==> Broken(v, p))
                      || (exists p :: p in baseline && Recalled(a, f, p) && Broken(v, p))))
            && (reason == PrefixMiss <==>
                  && (exists p :: p in baseline && !Broken(v, p))
                  && (forall p :: p in baseline ==> !Recalled(a, f, p)))
            && (reason == FallbackPolicy <==>
                  exists p :: p in baseline && Recalled(a, f, p) && !Broken(v, p) && Faults(v, p.name) > 0)
            && (reason == LoadImbalanced <==>
                  exists p, q ::
                    && p in baseline && Recalled(a, f, p) && !Broken(v, p) && Faults(v, p.name) == 0
                    && q in baseline && !Broken(v, q) && Busier(v, p, q, a.threshold))
            && (reason == PrefixHit <==>
                  exists p ::
                    && p in baseline && Recalled(a, f, p) && !Broken(v, p) && Faults(v, p.name) == 0
                    && forall q :: q in baseline && !Broken(v, q) ==> !Busier(v, p, q, a.threshold))
  {
    var healthy := Healthy(v, baseline);
    forall q ensures q in healthy <==> q in baseline && !Broken(v, q) { HealthyIs(baseline, v, q); }
    if baseline != [] {
      HealthyIs(baseline, v, baseline[0]);
      if healthy != [] {
        assert healthy[0] in healthy;
        RendezvousSome(v, f, healthy);
        if p :| p in baseline && Recalled(a, f, p) {
          RecalledReason(baseline, v, a, f, p);
        } else {
          assert forall p :: p in baseline ==> !Recalled(a, f, p);
        }
      }
    }
  }

  lemma RendezvousSome(v: View, f: string, ps: seq<Provider>)
    requires ps != []
    ensures Rendezvous(v, f, ps).Some?
  {
  }

  lemma RecalledReason(baseline: seq<Provider>, v: View, a: AffinityInput, f: string, p: Provider)
    requires DistinctNames(baseline) && Healthy(v, baseline) != [] && p in baseline && Recalled(a, f, p)
    ensures Affine(baseline, v, a, f).1 ==
            if Broken(v, p) then CircuitOpen
            else if Faults(v, p.name) > 0 then FallbackPolicy
            else if exists q :: q in baseline && !Broken(v, q) && Busier(v, p, q, a.threshold) then LoadImbalanced
            else PrefixHit
    ensures forall q :: q in baseline && Recalled(a, f, q) ==> q == p
  {
    forall q | q in baseline && Recalled(a, f, q) ensures q == p { OneByName(baseline, p, q); }
    forall q ensures q in Healthy(v, baseline) <==> q in baseline && !Broken(v, q) { HealthyIs(baseline, v, q); }
    OverloadedIff(baseline, v, p, a.threshold);
  }

  // ---------------------------------------------------------------- lists

  /** When circuits decide: those that are not open first, each part by priority and name. */
  lemma CircuitOrder(baseline: seq<Provider>, v: View, a: AffinityInput, f: string, i: nat, j: nat)
    requires DistinctNames(baseline) && Affine(baseline, v, a, f).1 == CircuitOpen
    requires i < j < |Affine(baseline, v, a, f).0|
    ensures var p, q := Affine(baseline, v, a, f).0[i], Affine(baseline, v, a, f).0[j];
            Before(if Broken(v, p) then 1.0 else 0.0, if Broken(v, q) then 1.0 else 0.0, p, q)
  {
    var cs := SortBy(OpenLast(v), baseline);
    SortByCorrect(OpenLast(v), baseline);
    assert KeyLess(RankKey(OpenLast(v), cs[i]), RankKey(OpenLast(v), cs[j]));
  }

  /** Which list goes with which reason. Whatever the reason, it is led by a provider whose circuit is
      not open if there is one and the order is not the configured one. */
  lemma ListExact(baseline: seq<Provider>, v: View, a: AffinityInput, f: string)
    requires DistinctNames(baseline)
    ensures var (cs, reason) := Affine(baseline, v, a, f);
            && multiset(cs) == multiset(baseline)
            && (reason == NoProvider || reason == FallbackPolicy ==> cs == baseline)
            && (reason == PrefixHit ==>
                  cs != [] && Recalled(a, f, cs[0]) && cs == [cs[0]] + Others(baseline, cs[0].name))
            && (reason == PrefixMiss ==>
                  && cs != [] && cs == [cs[0]] + Others(baseline, cs[0].name)
                  && cs[0] in baseline && !Broken(v, cs[0])
                  && forall q :: q in baseline && !Broken(v, q) && q.name != cs[0].name ==>
                       || v.hash(f, cs[0].name) > v.hash(f, q.name)
                       || (v.hash(f, cs[0].name) == v.hash(f, q.name) && StrLess(cs[0].name, q.name)))
            && (reason == CircuitOpen && (exists q :: q in baseline && !Broken(v, q)) ==>
                  cs != [] && !Broken(v, cs[0]))
  {
    var (cs, reason) := Affine(baseline, v, a, f);
    AffinePermutes(baseline, v, a, f);
    match reason {
      case PrefixHit => HitList(baseline, v, a, f);
      case PrefixMiss =>
        PrefixMissHead(baseline, v, a, f);
        forall q ensures q in Healthy(v, baseline) <==> q in baseline && !Broken(v, q) { HealthyIs(baseline, v, q); }
      case CircuitOpen =>
        if q :| q in baseline && !Broken(v, q) {
          assert q in multiset(cs);
          var j :| 0 <= j < |cs| && cs[j] == q;
          if j > 0 { CircuitOrder(baseline, v, a, f, 0, j); }
        }
      case _ =>
    }
  }

  lemma HitList(baseline: seq<Provider>, v: View, a: AffinityInput, f: string)
    requires DistinctNames(baseline) && Affine(baseline, v, a, f).1 == PrefixHit
    ensures var cs := Affine(baseline, v, a, f).0;
            cs != [] && Recalled(a, f, cs[0]) && cs == [cs[0]] + Others(baseline, cs[0].name)
  {
    var name := Previous(a, f).value;
    var p :| p in baseline && p.name == name;
    MoveToFrontShape(baseline, p);
  }

  /** If the index recalls a provider whose circuit is open while another's is not, the list is led by one
      whose circuit is not open, and the reason says so. */
  lemma OpenRecallAvoided(baseline: seq<Provider>, v: View, a: AffinityInput, f: string, p: Provider, q: Provider)
    requires DistinctNames(baseline) && p in baseline && q in baseline
    requires Recalled(a, f, p) && Broken(v, p) && !Broken(v, q)
    ensures var (cs, reason) := Affine(baseline, v, a, f);
            reason == CircuitOpen && cs != [] && !Broken(v, cs[0])
  {
    ReasonExact(baseline, v, a, f);
    ListExact(baseline, v, a, f);
  }

  // ---------------------------------------------------------------- the whole decision

  /** Members of the pool if there is one, else the providers of the model; each once. */
  lemma EligibleExact(ps: seq<Provider>, model: string, pool: Option<Pool>, policy: Policy, v: View,
                      a: Option<AffinityInput>, p: Provider)
    requires DistinctNames(ps)
    ensures p in Select(ps, Some(model), pool, policy, v, a).candidates <==>
            p in ps && (if pool.Some? then p.name in pool.value.members else p.model == model)
    ensures DistinctNames(Select(ps, Some(model), pool, policy, v, a).candidates)
  {
    var cs := Select(ps, Some(model), pool, policy, v, a).candidates;
    SelectPermutesEligible(ps, model, pool, policy, v, a);
    FilterDistinct(ps, (q: Provider) => Serves(pool, model, q));
    DistinctPermuted(Eligible(ps, pool, model), cs);
    assert p in cs <==> p in multiset(cs);
    assert p in Eligible(ps, pool, model) <==> p in multiset(Eligible(ps, pool, model));
  }

  /** A pool's own policy comes before the gateway's. Other policies than affinity decide alone. Affinity
      consults the index exactly for requests to a pool of several members with a fingerprint of high
      confidence; its baseline is the configured fallback order, which is used as it is otherwise. */
  lemma SelectExact(ps: seq<Provider>, model: string, pool: Option<Pool>, policy: Policy, v: View,
                    a: Option<AffinityInput>)
    ensures var choice := Select(ps, Some(model), pool, policy, v, a);
            var own := if pool.Some? then pool.value.policy else None;
            && choice.policy == own.UnwrapOr(policy)
            && (choice.policy != Affinity ==>
                  && choice.candidates == Candidates(ps, pool, model, choice.policy, v)
                  && (choice.policy == Priority ==> choice.reason == ByPriority)
                  && (choice.policy == Cost ==> choice.reason == LowestCost))
            && (choice.policy == Affinity ==>
                  var order := if a.Some? then a.value.fallback else Priority;
                  var baseline := Candidates(ps, pool, model, order, v);
                  if a.Some? && pool.Some? && |pool.value.members| >= 2 && a.value.fingerprint.highConfidence
                     && a.value.fingerprint.value.Some?
                  then (choice.candidates, choice.reason) ==
                       Affine(baseline, v, a.value, a.value.fingerprint.value.value)
                  else choice.candidates == baseline && choice.reason == FallbackPolicy)
  {
  }

  /** The latency policy says what it knew about the provider it prefers. */
  lemma LatencyReason(ps: seq<Provider>, model: string, pool: Option<Pool>, policy: Policy, v: View,
                      a: Option<AffinityInput>)
    requires Select(ps, Some(model), pool, policy, v, a).policy == Latency
    ensures var choice := Select(ps, Some(model), pool, policy, v, a);
            if choice.candidates == [] then choice.reason == NoProvider
            else
              var name := choice.candidates[0].name;
              var recent := v.snapshot.Some? && name in v.snapshot.value.p95 && v.snapshot.value.p95[name] > 0.0;
              var known := v.snapshot.Some? && name in v.snapshot.value.average
                  && v.snapshot.value.average[name] > 0.0;
              && (choice.reason == RecentLatencyP95 <==> recent)
              && (choice.reason == AverageLatency <==> !recent && known)
              && (choice.reason == NoLatencyData <==> !recent && !known)
  {
  }

  /** Without a model there is nothing to choose. */
  lemma NoModel(ps: seq<Provider>, pool: Option<Pool>, policy: Policy, v: View, a: Option<AffinityInput>)
    ensures Select(ps, None, pool, policy, v, a) == Choice([], policy, NoProvider)
  {
  }
}
