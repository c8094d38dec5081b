/** The routing decision with prefix affinity (`src/routing/strategy.rs`). */
module Routing {
  import opened Base
  import opened Ordering
  import opened Resilience
  import opened Selection
  import Fallback
  import FallbackLoops
  import PrefixAffinity

  datatype Reason =
    | NoProvider
    | ByPriority
    | LowestCost
    | RecentLatencyP95
    | AverageLatency
    | NoLatencyData
    | FallbackPolicy
    | CircuitOpen
    | PrefixHit
    | LoadImbalanced
    | PrefixMiss

  datatype Choice = Choice(candidates: seq<Provider>, policy: Policy, reason: Reason)

  datatype Fingerprint = Fingerprint(value: Option<string>, highConfidence: bool)

  /** The affinity configuration, the request's fingerprint and the index at the time of the call. */
  datatype AffinityInput = AffinityInput(
    limits: PrefixAffinity.Limits,
    cache: PrefixAffinity.Cache,
    now: nat,
    threshold: u64,
    fallback: Policy,
    fingerprint: Fingerprint)

  // ---------------------------------------------------------------- filters

  function Filter(ps: seq<Provider>, keep: Provider -> bool): seq<Provider> {
    if ps == [] then [] else (if keep(ps[0]) then [ps[0]] else []) + Filter(ps[1..], keep)
  }

  lemma {:induction false} FilterCount(ps: seq<Provider>, keep: Provider -> bool, x: Provider)
    ensures multiset(Filter(ps, keep))[x] == if keep(x) then multiset(ps)[x] else 0
  {
    if ps != [] {
      assert ps == [ps[0]] + ps[1..];
      FilterCount(ps[1..], keep, x);
    }
  }

  lemma {:induction false} FilterDistinct(ps: seq<Provider>, keep: Provider -> bool)
    requires DistinctNames(ps)
    ensures DistinctNames(Filter(ps, keep))
    ensures forall x :: x in Filter(ps, keep) <==> x in ps && keep(x)
  {
    if ps != [] {
      FilterDistinct(ps[1..], keep);
      forall x | x in Filter(ps[1..], keep) ensures x.name != ps[0].name {
        var k :| 0 <= k < |ps[1..]| && ps[1..][k] == x;
        assert ps[k + 1] == x;
      }
      assert forall x :: x in ps <==> x == ps[0] || x in ps[1..];
    }
  }

  predicate Serves(pool: Option<Pool>, model: string, p: Provider) {
    if pool.Some? then p.name in pool.value.members else p.model == model
  }

  /** Pool members, else the providers of the model. */
  function Eligible(ps: seq<Provider>, pool: Option<Pool>, model: string): seq<Provider> {
    Filter(ps, (p: Provider) => Serves(pool, model, p))
  }

  function Healthy(v: View, ps: seq<Provider>): seq<Provider> {
    Filter(ps, (p: Provider) => !OpenCircuit(v, p.name))
  }

  predicate HasName(ps: seq<Provider>, name: string) {
    exists p :: p in ps && p.name == name
  }

  function Named(ps: seq<Provider>, name: string): seq<Provider> {
    Filter(ps, (p: Provider) => p.name == name)
  }

  function Others(ps: seq<Provider>, name: string): seq<Provider> {
    Filter(ps, (p: Provider) => p.name != name)
  }

  function MoveToFront(ps: seq<Provider>, name: string): seq<Provider> {
    Named(ps, name) + Others(ps, name)
  }

  lemma {:induction false} FilterSnoc(ps: seq<Provider>, x: Provider, keep: Provider -> bool)
    ensures Filter(ps + [x], keep) == Filter(ps, keep) + (if keep(x) then [x] else [])
  {
    var tail := if keep(x) then [x] else [];
    if ps == [] {
      assert ps + [x] == [x] && [x][1..] == [];
    } else {
      var head := if keep(ps[0]) then [ps[0]] else [];
      assert (ps + [x])[1..] == ps[1..] + [x];
      FilterSnoc(ps[1..], x, keep);
      assert head + (Filter(ps[1..], keep) + tail) == (head + Filter(ps[1..], keep)) + tail;
    }
  }

  /** `move_provider_to_front` */
  method MoveProviderToFront(candidates: seq<Provider>, name: string) returns (r: seq<Provider>)
    ensures r == MoveToFront(candidates, name)
    ensures multiset(r) == multiset(candidates)
  {
    var preferred: seq<Provider>, rest: seq<Provider> := [], [];
    for i := 0 to |candidates|
      invariant preferred == Named(candidates[..i], name)
      invariant rest == Others(candidates[..i], name)
    {
      assert candidates[..i + 1] == candidates[..i] + [candidates[i]];
      FilterSnoc(candidates[..i], candidates[i], (p: Provider) => p.name == name);
      FilterSnoc(candidates[..i], candidates[i], (p: Provider) => p.name != name);
      if candidates[i].name == name {
        preferred := preferred + [candidates[i]];
      } else {
        rest := rest + [candidates[i]];
      }
    }
    assert candidates[..|candidates|] == candidates;
    MoveToFrontPermutes(candidates, name);
    r := preferred + rest;
  }

  lemma MoveToFrontPermutes(ps: seq<Provider>, name: string)
    ensures multiset(MoveToFront(ps, name)) == multiset(ps)
  {
    forall x ensures multiset(MoveToFront(ps, name))[x] == multiset(ps)[x] {
      FilterCount(ps, (p: Provider) => p.name == name, x);
      FilterCount(ps, (p: Provider) => p.name != name, x);
    }
  }

  /** The named provider leads and the others keep their order. */
  lemma MoveToFrontShape(ps: seq<Provider>, w: Provider)
    requires DistinctNames(ps) && w in ps
    ensures MoveToFront(ps, w.name) == [w] + Others(ps, w.name)
  {
    OnlyOne(ps, w);
  }

  lemma {:induction false} OnlyOne(ps: seq<Provider>, w: Provider)
    requires DistinctNames(ps) && w in ps
    ensures Named(ps, w.name) == [w]
  {
    if ps[0] == w {
      NoneNamed(ps[1..], w.name);
    } else {
      assert w in ps[1..];
      var k :| 0 <= k < |ps[1..]| && ps[1..][k] == w;
      assert ps[k + 1] == w;
      OnlyOne(ps[1..], w);
    }
  }

  lemma {:induction false} NoneNamed(ps: seq<Provider>, name: string)
    requires forall p :: p in ps ==> p.name != name
    ensures Named(ps, name) == []
  {
    if ps != [] {
      assert ps[0] in ps;
      assert forall p :: p in ps[1..] ==> p in ps;
      NoneNamed(ps[1..], name);
    }
  }

  // ---------------------------------------------------------------- rendezvous hashing

  /** Larger digest wins; on a tie the smaller name does. */
  predicate Beats(v: View, f: string, a: Provider, b: Provider) {
    || v.hash(f, a.name) > v.hash(f, b.name)
    || (v.hash(f, a.name) == v.hash(f, b.name) && StrLess(a.name, b.name))
  }

  function Best(v: View, f: string, acc: Provider, rest: seq<Provider>): Provider
    decreases rest
  {
    if rest == [] then acc else Best(v, f, if Beats(v, f, acc, rest[0]) then acc else rest[0], rest[1..])
  }

  /** `max_by` over the candidates */
  function Rendezvous(v: View, f: string, ps: seq<Provider>): Option<Provider> {
    if ps == [] then None else Some(Best(v, f, ps[0], ps[1..]))
  }

  ghost predicate Wins(v: View, f: string, w: Provider, ps: seq<Provider>) {
    w in ps && forall x :: x in ps && x.name != w.name ==> Beats(v, f, w, x)
  }

  lemma BeatsOrder(v: View, f: string, a: Provider, b: Provider, c: Provider)
    ensures a.name != b.name ==> Beats(v, f, a, b) || Beats(v, f, b, a)
    ensures !(Beats(v, f, a, b) && Beats(v, f, b, a))
    ensures Beats(v, f, a, b) && Beats(v, f, b, c) ==> Beats(v, f, a, c)
  {
    StrTotal(a.name, b.name);
    if StrLess(a.name, b.name) && StrLess(b.name, c.name) { StrTrans(a.name, b.name, c.name); }
  }

  lemma {:induction false} BestWins(v: View, f: string, acc: Provider, rest: seq<Provider>)
    requires DistinctNames([acc] + rest)
    ensures Wins(v, f, Best(v, f, acc, rest), [acc] + rest)
    decreases rest
  {
    if rest != [] {
      var keep := if Beats(v, f, acc, rest[0]) then acc else rest[0];
      var lost := if Beats(v, f, acc, rest[0]) then rest[0] else acc;
      assert ([acc] + rest)[0] == acc && ([acc] + rest)[1] == rest[0];
      BeatsOrder(v, f, acc, rest[0], acc);
      var short := [keep] + rest[1..];
      forall i, j | 0 <= i < j < |short| ensures short[i].name != short[j].name {
        assert short[j] == ([acc] + rest)[j + 1];
        if i > 0 { assert short[i] == ([acc] + rest)[i + 1]; }
      }
      BestWins(v, f, keep, rest[1..]);
      var w := Best(v, f, keep, rest[1..]);
      forall x | x in [acc] + rest && x.name != w.name ensures Beats(v, f, w, x) {
        if x != lost { assert x in short; }
        else if w != keep {
          assert keep in short;
          BeatsOrder(v, f, w, keep, lost);
        }
      }
    }
  }

  lemma WinsUnique(v: View, f: string, a: Provider, b: Provider, ps: seq<Provider>)
    requires DistinctNames(ps) && Wins(v, f, a, ps) && Wins(v, f, b, ps)
    ensures a == b
  {
    if a.name != b.name {
      BeatsOrder(v, f, a, b, a);
    }
  }

  lemma RendezvousWins(v: View, f: string, ps: seq<Provider>)
    requires DistinctNames(ps) && ps != []
    ensures Rendezvous(v, f, ps).Some? && Wins(v, f, Rendezvous(v, f, ps).value, ps)
  {
    assert ps == [ps[0]] + ps[1..];
    BestWins(v, f, ps[0], ps[1..]);
  }

  /** Placement depends only on which providers there are, whatever the hash. */
  lemma PlacementOrderFree(v: View, f: string, ps: seq<Provider>, qs: seq<Provider>)
    requires DistinctNames(ps) && DistinctNames(qs) && (forall x :: x in ps <==> x in qs)
    ensures Rendezvous(v, f, ps) == Rendezvous(v, f, qs)
  {
    if ps != [] {
      assert ps[0] in qs;
      RendezvousWins(v, f, ps);
      RendezvousWins(v, f, qs);
      WinsUnique(v, f, Rendezvous(v, f, ps).value, Rendezvous(v, f, qs).value, ps);
    } else {
      assert forall k :: 0 <= k < |qs| ==> qs[k] in ps;
    }
  }

  /** Losing any provider but the winner moves nothing. */
  lemma PlacementSurvivesRemoval(v: View, f: string, ps: seq<Provider>, qs: seq<Provider>)
    requires DistinctNames(ps) && DistinctNames(qs) && ps != []
    requires (forall x :: x in qs ==> x in ps) && Rendezvous(v, f, ps).value in qs
    ensures Rendezvous(v, f, qs) == Rendezvous(v, f, ps)
  {
    RendezvousWins(v, f, ps);
    RendezvousWins(v, f, qs);
    WinsUnique(v, f, Rendezvous(v, f, ps).value, Rendezvous(v, f, qs).value, qs);
  }

  /** A newcomer either takes the fingerprint or leaves it where it was. */
  lemma PlacementOnArrival(v: View, f: string, ps: seq<Provider>, qs: seq<Provider>, x: Provider)
    requires DistinctNames(ps) && DistinctNames(qs) && ps != []
    requires forall y :: y in qs <==> y in ps || y == x
    ensures Rendezvous(v, f, qs) == Some(x) || Rendezvous(v, f, qs) == Rendezvous(v, f, ps)
  {
    RendezvousWins(v, f, ps);
    assert ps[0] in qs;
    RendezvousWins(v, f, qs);
    var w := Rendezvous(v, f, qs).value;
    if w != x {
      assert Wins(v, f, w, ps);
      WinsUnique(v, f, w, Rendezvous(v, f, ps).value, ps);
    }
  }

  // ---------------------------------------------------------------- load

  function MinInFlight(s: Snapshot, ps: seq<Provider>): u64 {
    if ps == [] then 0
    else if |ps| == 1 then CountAt(s.inFlight, ps[0].name)
    else Min(CountAt(s.inFlight, ps[0].name), MinInFlight(s, ps[1..]))
  }

  function MinPressure(s: Snapshot, ps: seq<Provider>): u64 {
    if ps == [] then 0
    else if |ps| == 1 then QueuePressure(s, ps[0].name)
    else Min(QueuePressure(s, ps[0].name), MinPressure(s, ps[1..]))
  }

  predicate LoadWithin(v: View, name: string, healthy: seq<Provider>, threshold: u64) {
    v.snapshot.Some? ==>
      var s := v.snapshot.value;
      && CountAt(s.inFlight, name) <= SatAdd64(MinInFlight(s, healthy), threshold)
      && QueuePressure(s, name) <= SatAdd64(MinPressure(s, healthy), threshold)
  }

  lemma {:induction false} MinIsLeast(s: Snapshot, ps: seq<Provider>, p: Provider)
    requires p in ps
    ensures MinInFlight(s, ps) <= CountAt(s.inFlight, p.name)
    ensures MinPressure(s, ps) <= QueuePressure(s, p.name)
  {
    if |ps| > 1 && p != ps[0] { MinIsLeast(s, ps[1..], p); }
  }

  predicate RecentErrors(v: View, name: string) {
    v.snapshot.Some? && ErrorCount(v.snapshot.value, name) > 0
  }

  // ---------------------------------------------------------------- the decision

  function Candidates(ps: seq<Provider>, pool: Option<Pool>, model: string, policy: Policy, v: View): seq<Provider> {
    SortBy(ByPolicy(policy, v), Eligible(ps, pool, model))
  }

  function EffectivePolicy(pool: Option<Pool>, policy: Policy): Policy {
    if pool.Some? && pool.value.policy.Some? then pool.value.policy.value else policy
  }

  function PolicyReason(policy: Policy, cs: seq<Provider>, v: View): Reason {
    match policy
    case Priority => ByPriority
    case Cost => LowestCost
    case Affinity => FallbackPolicy
    case Latency =>
      if cs == [] then NoProvider
      else if v.snapshot.Some? && Lookup0(v.snapshot.value.p95, cs[0].name) > 0.0 then RecentLatencyP95
      else if v.snapshot.Some? && Lookup0(v.snapshot.value.average, cs[0].name) > 0.0 then AverageLatency
      else NoLatencyData
  }

  function Previous(a: AffinityInput, f: string): Option<string> {
    PrefixAffinity.Lookup(a.limits, a.cache, f, a.now).provider
  }

  predicate Applies(pool: Option<Pool>, a: Option<AffinityInput>) {
    && a.Some? && pool.Some? && |pool.value.members| > 1
    && a.value.fingerprint.highConfidence && a.value.fingerprint.value.Some?
  }

  function Select(ps: seq<Provider>, model: Option<string>, pool: Option<Pool>, policy: Policy, v: View,
                  a: Option<AffinityInput>): Choice
  {
    if model.None? then Choice([], policy, NoProvider)
    else
      var effective := EffectivePolicy(pool, policy);
      if effective != Affinity then
        var cs := Candidates(ps, pool, model.value, effective, v);
        Choice(cs, effective, PolicyReason(effective, cs, v))
      else
        var baseline := Candidates(ps, pool, model.value, if a.None? then Priority else a.value.fallback, v);
        if !Applies(pool, a) then Choice(baseline, effective, FallbackPolicy)
        else
          var (cs, reason) := Affine(baseline, v, a.value, a.value.fingerprint.value.value);
          Choice(cs, effective, reason)
  }

  /** The affinity decision tree over the baseline order. */
  function Affine(baseline: seq<Provider>, v: View, a: AffinityInput, f: string): (seq<Provider>, Reason) {
    var healthy := Healthy(v, baseline);
    if baseline == [] then (baseline, NoProvider)
    else if healthy == [] then (SortBy(OpenLast(v), baseline), CircuitOpen)
    else
      var previous := Previous(a, f);
      if previous.Some? && HasName(baseline, previous.value) then
        if !HasName(healthy, previous.value) then (SortBy(OpenLast(v), baseline), CircuitOpen)
        else if RecentErrors(v, previous.value) then (baseline, FallbackPolicy)
        else if LoadWithin(v, previous.value, healthy, a.threshold)
            then (MoveToFront(baseline, previous.value), PrefixHit)
        else (SortBy(ByLoad(v, baseline), baseline), LoadImbalanced)
      else
        match Rendezvous(v, f, healthy)
        case Some(w) => (MoveToFront(baseline, w.name), PrefixMiss)
        case None => (baseline, FallbackPolicy)
  }

  lemma CandidatesFacts(ps: seq<Provider>, pool: Option<Pool>, model: string, policy: Policy, v: View)
    requires DistinctNames(ps)
    ensures multiset(Candidates(ps, pool, model, policy, v)) == multiset(Eligible(ps, pool, model))
    ensures SortedBy(ByPolicy(policy, v), Candidates(ps, pool, model, policy, v))
    ensures DistinctNames(Candidates(ps, pool, model, policy, v))
  {
    FilterDistinct(ps, (p: Provider) => Serves(pool, model, p));
    SortByCorrect(ByPolicy(policy, v), Eligible(ps, pool, model));
    DistinctPermuted(Eligible(ps, pool, model), Candidates(ps, pool, model, policy, v));
  }

  /** The policy order is the only arrangement of the eligible providers that is strictly ordered by
      (score, priority, name). */
  lemma CandidatesUnique(ps: seq<Provider>, pool: Option<Pool>, model: string, policy: Policy, v: View,
                         qs: seq<Provider>)
    requires DistinctNames(ps) && multiset(qs) == multiset(Eligible(ps, pool, model))
    ensures SortedBy(ByPolicy(policy, v), qs) <==> qs == Candidates(ps, pool, model, policy, v)
  {
    CandidatesFacts(ps, pool, model, policy, v);
    if SortedBy(ByPolicy(policy, v), qs) {
      SortedUnique(ByPolicy(policy, v), qs, Candidates(ps, pool, model, policy, v));
    }
  }

  /** In every branch the candidates are exactly the eligible providers, each once. */
  lemma SelectPermutesEligible(ps: seq<Provider>, model: string, pool: Option<Pool>, policy: Policy, v: View,
                               a: Option<AffinityInput>)
    requires DistinctNames(ps)
    ensures multiset(Select(ps, Some(model), pool, policy, v, a).candidates) == multiset(Eligible(ps, pool, model))
    ensures forall x :: multiset(Eligible(ps, pool, model))[x] == if Serves(pool, model, x) then multiset(ps)[x] else 0
  {
    forall x ensures multiset(Eligible(ps, pool, model))[x] == if Serves(pool, model, x) then multiset(ps)[x] else 0 {
      FilterCount(ps, (p: Provider) => Serves(pool, model, p), x);
    }
    var effective := EffectivePolicy(pool, policy);
    CandidatesFacts(ps, pool, model, effective, v);
    var fallback := if a.None? then Priority else a.value.fallback;
    CandidatesFacts(ps, pool, model, fallback, v);
    if effective == Affinity && Applies(pool, a) {
      AffinePermutes(Candidates(ps, pool, model, fallback, v), v, a.value, a.value.fingerprint.value.value);
    }
  }

  lemma AffinePermutes(baseline: seq<Provider>, v: View, a: AffinityInput, f: string)
    ensures multiset(Affine(baseline, v, a, f).0) == multiset(baseline)
  {
    match Affine(baseline, v, a, f).1
    case CircuitOpen => SortPermutes(OpenLast(v), baseline);
    case LoadImbalanced => SortPermutes(ByLoad(v, baseline), baseline);
    case PrefixHit => MoveToFrontPermutes(baseline, Previous(a, f).value);
    case PrefixMiss => MoveToFrontPermutes(baseline, Rendezvous(v, f, Healthy(v, baseline)).value.name);
    case _ =>
  }

  lemma EligibleOrderFree(ps: seq<Provider>, qs: seq<Provider>, pool: Option<Pool>, model: string)
    requires multiset(ps) == multiset(qs)
    ensures multiset(Eligible(ps, pool, model)) == multiset(Eligible(qs, pool, model))
  {
    forall x ensures multiset(Eligible(ps, pool, model))[x] == multiset(Eligible(qs, pool, model))[x] {
      FilterCount(ps, (p: Provider) => Serves(pool, model, p), x);
      FilterCount(qs, (p: Provider) => Serves(pool, model, p), x);
    }
  }

  /** The whole decision, candidates and reason, ignores the order of the configuration. */
  lemma SelectOrderFree(ps: seq<Provider>, qs: seq<Provider>, model: Option<string>, pool: Option<Pool>, policy: Policy,
                        v: View, a: Option<AffinityInput>)
    requires DistinctNames(ps) && multiset(ps) == multiset(qs)
    ensures Select(ps, model, pool, policy, v, a) == Select(qs, model, pool, policy, v, a)
  {
    if model.Some? {
      EligibleOrderFree(ps, qs, pool, model.value);
      FilterDistinct(ps, (p: Provider) => Serves(pool, model.value, p));
      forall p: Policy ensures Candidates(ps, pool, model.value, p, v) == Candidates(qs, pool, model.value, p, v) {
        SortByOrderFree(ByPolicy(p, v), Eligible(ps, pool, model.value), Eligible(qs, pool, model.value));
      }
    }
  }

  // ---------------------------------------------------------------- what the reasons promise

  /** A prefix hit is led by the provider last recorded for the fingerprint, within its time to live,
      whose circuit is not open, that has no recent errors, and whose in-flight count and queue
      pressure are each within the threshold of every healthy provider's; the rest keep their order. */
  lemma PrefixHitHead(baseline: seq<Provider>, v: View, a: AffinityInput, f: string,
                      history: seq<PrefixAffinity.Event>, clock: nat)
    requires DistinctNames(baseline) && Affine(baseline, v, a, f).1 == PrefixHit
    requires PrefixAffinity.Refines(a.limits, a.cache, history, clock) && clock <= a.now
    ensures var cs := Affine(baseline, v, a, f).0;
            && cs != [] && cs[0] in baseline
            && var head := cs[0];
               var latest := PrefixAffinity.Latest(history, f);
               && latest.Some? && latest.value.provider == head.name
               && PrefixAffinity.Age(a.now, latest.value.updatedAt) <= a.limits.ttl
               && !OpenCircuit(v, head.name) && !RecentErrors(v, head.name)
               && (v.snapshot.Some? ==>
                     var s := v.snapshot.value;
                     forall p :: p in baseline && !OpenCircuit(v, p.name) ==>
                       && CountAt(s.inFlight, head.name) <= CountAt(s.inFlight, p.name) + a.threshold
                       && QueuePressure(s, head.name) <= QueuePressure(s, p.name) + a.threshold)
               && cs == [head] + Others(baseline, head.name)
  {
    var healthy := Healthy(v, baseline);
    FilterDistinct(baseline, (p: Provider) => !OpenCircuit(v, p.name));
    PrefixAffinity.LookupIsLatest(a.limits, a.cache, history, clock, f, a.now);
    var name := Previous(a, f).value;
    var head :| head in healthy && head.name == name;
    MoveToFrontShape(baseline, head);
    if v.snapshot.Some? {
      forall p | p in healthy
        ensures MinInFlight(v.snapshot.value, healthy) <= CountAt(v.snapshot.value.inFlight, p.name)
        ensures MinPressure(v.snapshot.value, healthy) <= QueuePressure(v.snapshot.value, p.name)
      {
        MinIsLeast(v.snapshot.value, healthy, p);
      }
    }
  }

  /** A prefix miss is led by the rendezvous winner among the healthy providers; the rest keep their
      order. */
  lemma PrefixMissHead(baseline: seq<Provider>, v: View, a: AffinityInput, f: string)
    requires DistinctNames(baseline) && Affine(baseline, v, a, f).1 == PrefixMiss
    ensures var cs := Affine(baseline, v, a, f).0;
            && cs != [] && !OpenCircuit(v, cs[0].name)
            && Wins(v, f, cs[0], Healthy(v, baseline))
            && cs == [cs[0]] + Others(baseline, cs[0].name)
  {
    var healthy := Healthy(v, baseline);
    FilterDistinct(baseline, (p: Provider) => !OpenCircuit(v, p.name));
    RendezvousWins(v, f, healthy);
    MoveToFrontShape(baseline, Rendezvous(v, f, healthy).value);
  }

  /** When circuits decide, no open circuit comes before one that is not open. */
  lemma CircuitOpenLast(baseline: seq<Provider>, v: View, a: AffinityInput, f: string, i: nat, j: nat)
    requires DistinctNames(baseline) && Affine(baseline, v, a, f).1 == CircuitOpen
    requires i < j < |Affine(baseline, v, a, f).0|
    ensures OpenCircuit(v, Affine(baseline, v, a, f).0[i].name) ==> OpenCircuit(v, Affine(baseline, v, a, f).0[j].name)
  {
    SortByCorrect(OpenLast(v), baseline);
    var cs := SortBy(OpenLast(v), baseline);
    assert KeyLess(RankKey(OpenLast(v), cs[i]), RankKey(OpenLast(v), cs[j]));
  }

  lemma {:induction false} PositionIs(ps: seq<Provider>, k: nat)
    requires DistinctNames(ps) && k < |ps|
    ensures Position(ps, ps[k].name) == k
  {
    if k > 0 {
      assert ps[0].name != ps[k].name && ps[1..][k - 1] == ps[k];
      PositionIs(ps[1..], k - 1);
    }
  }

  lemma MemberIndex(ps: seq<Provider>, qs: seq<Provider>, i: nat) returns (k: nat)
    requires multiset(ps) == multiset(qs) && i < |qs|
    ensures k < |ps| && ps[k] == qs[i]
  {
    assert qs[i] in multiset(ps);
    k :| 0 <= k < |ps| && ps[k] == qs[i];
  }

  /** When load decides, the lighter provider comes first and equal loads keep the baseline order. */
  lemma LoadImbalancedOrder(baseline: seq<Provider>, v: View, a: AffinityInput, f: string, i: nat, j: nat)
    requires DistinctNames(baseline) && Affine(baseline, v, a, f).1 == LoadImbalanced
    requires i < j < |Affine(baseline, v, a, f).0|
    ensures var cs := Affine(baseline, v, a, f).0;
            || LoadScore(v, cs[i].name) < LoadScore(v, cs[j].name)
            || (LoadScore(v, cs[i].name) == LoadScore(v, cs[j].name)
                && exists k, m :: 0 <= k < m < |baseline| && baseline[k] == cs[i] && baseline[m] == cs[j])
  {
    var r := ByLoad(v, baseline);
    var cs := SortBy(r, baseline);
    SortByCorrect(r, baseline);
    DistinctPermuted(baseline, cs);
    assert KeyLess(RankKey(r, cs[i]), RankKey(r, cs[j]));
    var k := MemberIndex(baseline, cs, i);
    var m := MemberIndex(baseline, cs, j);
    PositionIs(baseline, k);
    PositionIs(baseline, m);
  }

  /** The converse: a live record of an eligible provider that is healthy, free of recent errors and
      within the load threshold makes a prefix hit on that provider. */
  lemma LatestRecordHits(baseline: seq<Provider>, v: View, a: AffinityInput, f: string,
                         history: seq<PrefixAffinity.Event>, clock: nat, p: Provider)
    requires DistinctNames(baseline) && p in baseline
    requires !OpenCircuit(v, p.name) && !RecentErrors(v, p.name)
    requires LoadWithin(v, p.name, Healthy(v, baseline), a.threshold)
    requires PrefixAffinity.Refines(a.limits, a.cache, history, clock) && clock <= a.now
    requires Live(a, history, f, p.name)
    ensures Affine(baseline, v, a, f) == ([p] + Others(baseline, p.name), PrefixHit)
  {
    FilterDistinct(baseline, (q: Provider) => !OpenCircuit(v, q.name));
    PrefixAffinity.LookupIsLatest(a.limits, a.cache, history, clock, f, a.now);
    assert p in Healthy(v, baseline);
    MoveToFrontShape(baseline, p);
  }

  /** The latest record for the fingerprint names the provider, is within its time to live, and
      fewer than `max_entries` other fingerprints were used since. */
  ghost predicate Live(a: AffinityInput, history: seq<PrefixAffinity.Event>, f: string, name: string) {
    var latest := PrefixAffinity.Latest(history, f);
    && latest.Some? && latest.value.provider == name
    && !PrefixAffinity.Expired(a.limits, latest.value, a.now)
    && |PrefixAffinity.TouchedSince(history, f)| < PrefixAffinity.Capacity(a.limits)
  }

  // ---------------------------------------------------------------- from the decision to the first attempt

  /** The list the fallback driver works through. */
  function Plan(cs: seq<Provider>, retries: string -> u32): (plan: seq<Fallback.Candidate>)
    ensures |plan| == |cs|
  {
    seq(|cs|, i requires 0 <= i < |cs| => Fallback.Candidate(cs[i].name, retries(cs[i].name)))
  }

  /** On a prefix hit, with a closed circuit and a free slot, the first attempt goes to the provider
      that was last recorded for the fingerprint. */
  lemma PrefixHitServedFirst(baseline: seq<Provider>, v: View, a: AffinityInput, f: string,
                             history: seq<PrefixAffinity.Event>, clock: nat, retries: string -> u32, streaming: bool,
                             env: Fallback.Env, visits: seq<Fallback.Visit>, result: Fallback.FallbackResult,
                             records: seq<Fallback.Record>, policy: BreakerPolicy, circuit: Circuit, at: nat)
    requires DistinctNames(baseline) && Affine(baseline, v, a, f).1 == PrefixHit
    requires PrefixAffinity.Refines(a.limits, a.cache, history, clock) && clock <= a.now
    requires FallbackLoops.Reports(Plan(Affine(baseline, v, a, f).0, retries), streaming, env, visits, result, records)
    requires circuit.state == Closed && env.allow(0) == Permits(policy, circuit, Allow(at)) && env.admit(0) == None
    ensures var plan := Plan(Affine(baseline, v, a, f).0, retries);
            var log := Fallback.AttemptsOf(plan, visits);
            && log != [] && PrefixAffinity.Latest(history, f).Some?
            && log[0].provider == PrefixAffinity.Latest(history, f).value.provider
            && !log[0].isFallback
  {
    PrefixHitHead(baseline, v, a, f, history, clock);
    var plan := Plan(Affine(baseline, v, a, f).0, retries);
    FallbackLoops.FirstAttemptOnHead(plan, streaming, env, visits, result, records);
  }
}
