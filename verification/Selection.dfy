/** Candidate selection (`src/routing/strategy.rs`). */
module Selection {
  import opened Base
  import opened Ordering
  import opened Resilience

  datatype Provider = Provider(name: string, model: string, priority: u32, inputCost: real, outputCost: real)

  datatype Policy = Priority | Cost | Latency | Affinity

  datatype Pool = Pool(members: set<string>, policy: Option<Policy>)

  /** The metrics that routing reads. Recent errors are a bag of error categories. */
  datatype Snapshot = Snapshot(
    p95: map<string, real>,
    average: map<string, real>,
    inFlight: map<string, u64>,
    pressure: map<string, real>,
    recentErrors: map<string, multiset<string>>)

  /** Everything outside the provider list that a decision depends on; `hash` stands for SHA-256. */
  datatype View = View(
    snapshot: Option<Snapshot>,
    circuits: Option<string -> CircuitState>,
    hash: (string, string) -> nat)

  predicate OpenCircuit(v: View, name: string) {
    v.circuits.Some? && v.circuits.value(name) == Open
  }

  // ---------------------------------------------------------------- scores

  function Lookup0(m: map<string, real>, name: string): real {
    if name in m then m[name] else 0.0
  }

  function ErrorCount(s: Snapshot, name: string): nat {
    if name in s.recentErrors then |s.recentErrors[name]| else 0
  }

  function LatencyMs(v: View, name: string): Score {
    if v.snapshot.None? then Inf
    else
      var s := v.snapshot.value;
      if Lookup0(s.p95, name) > 0.0 then Fin(s.p95[name])
      else if Lookup0(s.average, name) > 0.0 then Fin(s.average[name])
      else Inf
  }

  function Plus(a: Score, b: real): Score {
    if a.Inf? then Inf else Fin(a.value + b)
  }

  function LatencyScore(v: View, name: string): Score {
    var base := LatencyMs(v, name);
    var loaded :=
      if v.snapshot.None? then base
      else
        var s := v.snapshot.value;
        Plus(Plus(Plus(base, CountAt(s.inFlight, name) as real * 25.0), Lookup0(s.pressure, name) * 10.0),
             ErrorCount(s, name) as real * 250.0);
    if v.circuits.None? then loaded
    else
      match v.circuits.value(name)
      case Closed => Plus(loaded, 0.0)
      case HalfOpen => Plus(loaded, 10_000.0)
      case Open => Plus(loaded, 1_000_000.0)
  }

  /** `f64::ceil` followed by a saturating cast to `u64`. */
  function CeilU64(x: real): u64 {
    if x <= 0.0 then 0
    else
      var c := -((-x).Floor);
      if c <= U64_MAX then c else U64_MAX
  }

  function QueuePressure(s: Snapshot, name: string): u64 {
    CeilU64(Lookup0(s.pressure, name))
  }

  function LoadScore(v: View, name: string): u64 {
    var penalty: u64 := if OpenCircuit(v, name) then 1_000_000 else 0;
    if v.snapshot.None? then penalty
    else
      var s := v.snapshot.value;
      var load: u64 := Max(CountAt(s.inFlight, name), QueuePressure(s, name));
      SatAdd64(SatAdd64(load, SatMul64(ErrorCount(s, name), 1_000)), penalty)
  }

  // ---------------------------------------------------------------- the three sorts

  /** What a sort compares. */
  datatype Ranker =
    | ByPolicy(policy: Policy, view: View)
    | OpenLast(openView: View)
    | ByLoad(loadView: View, baseline: seq<Provider>)

  function Position(ps: seq<Provider>, name: string): nat {
    if ps == [] || ps[0].name == name then 0 else 1 + Position(ps[1..], name)
  }

  function RankKey(r: Ranker, p: Provider): (k: Key)
    ensures k.name == p.name
  {
    match r
    case ByPolicy(policy, v) =>
      (match policy
       case Cost => Key(Fin(p.inputCost + p.outputCost), p.priority, p.name)
       case Latency => Key(LatencyScore(v, p.name), p.priority, p.name)
       case _ => Key(Fin(0.0), p.priority, p.name))
    case OpenLast(v) => Key(Fin(if OpenCircuit(v, p.name) then 1.0 else 0.0), p.priority, p.name)
    case ByLoad(v, baseline) => Key(Fin(LoadScore(v, p.name) as real), Position(baseline, p.name), p.name)
  }

  /** The provider goes before the first one that is not smaller, so equal keys keep their order. */
  function Insert(r: Ranker, x: Provider, ps: seq<Provider>): seq<Provider> {
    if ps == [] then [x]
    else if KeyLess(RankKey(r, ps[0]), RankKey(r, x)) then [ps[0]] + Insert(r, x, ps[1..])
    else [x] + ps
  }

  /** `sort_by`: stable. */
  function SortBy(r: Ranker, ps: seq<Provider>): seq<Provider> {
    if ps == [] then [] else Insert(r, ps[0], SortBy(r, ps[1..]))
  }

  ghost predicate DistinctNames(ps: seq<Provider>) {
    forall i, j :: 0 <= i < j < |ps| ==> ps[i].name != ps[j].name
  }

  ghost predicate SortedBy(r: Ranker, ps: seq<Provider>) {
    forall i, j :: 0 <= i < j < |ps| ==> KeyLess(RankKey(r, ps[i]), RankKey(r, ps[j]))
  }

  lemma {:induction false} InsertPermutes(r: Ranker, x: Provider, ps: seq<Provider>)
    ensures multiset(Insert(r, x, ps)) == multiset(ps) + multiset{x}
  {
    if ps != [] {
      assert ps == [ps[0]] + ps[1..];
      if KeyLess(RankKey(r, ps[0]), RankKey(r, x)) { InsertPermutes(r, x, ps[1..]); }
    }
  }

  lemma {:induction false} SortPermutes(r: Ranker, ps: seq<Provider>)
    ensures multiset(SortBy(r, ps)) == multiset(ps)
  {
    if ps != [] {
      SortPermutes(r, ps[1..]);
      InsertPermutes(r, ps[0], SortBy(r, ps[1..]));
      assert ps == [ps[0]] + ps[1..];
    }
  }

  lemma InsertedAreLarger(r: Ranker, x: Provider, ps: seq<Provider>)
    requires ps != [] && SortedBy(r, ps) && KeyLess(RankKey(r, ps[0]), RankKey(r, x))
    ensures forall y :: y in Insert(r, x, ps[1..]) ==> KeyLess(RankKey(r, ps[0]), RankKey(r, y))
  {
    InsertPermutes(r, x, ps[1..]);
    forall y | y in Insert(r, x, ps[1..]) ensures KeyLess(RankKey(r, ps[0]), RankKey(r, y)) {
      assert y in multiset(Insert(r, x, ps[1..]));
      if y != x {
        assert y in multiset(ps[1..]);
        var k :| 0 <= k < |ps[1..]| && ps[1..][k] == y;
        assert ps[k + 1] == y;
      }
    }
  }

  lemma {:induction false} InsertSorted(r: Ranker, x: Provider, ps: seq<Provider>)
    requires SortedBy(r, ps) && (forall y :: y in ps ==> y.name != x.name)
    ensures SortedBy(r, Insert(r, x, ps))
    decreases |ps|
  {
    if ps != [] {
      KeyTotal(RankKey(r, ps[0]), RankKey(r, x));
      assert ps[0] in ps;
      if KeyLess(RankKey(r, ps[0]), RankKey(r, x)) {
        assert forall y :: y in ps[1..] ==> y in ps;
        InsertSorted(r, x, ps[1..]);
        InsertedAreLarger(r, x, ps);
      } else {
        forall j | 0 <= j < |ps| ensures KeyLess(RankKey(r, x), RankKey(r, ps[j])) {
          if j > 0 { KeyTrans(RankKey(r, x), RankKey(r, ps[0]), RankKey(r, ps[j])); }
        }
      }
    }
  }

  /** A sort rearranges its candidates into the strict order of (score, rank, name). */
  lemma {:induction false} SortByCorrect(r: Ranker, ps: seq<Provider>)
    requires DistinctNames(ps)
    ensures multiset(SortBy(r, ps)) == multiset(ps) && SortedBy(r, SortBy(r, ps))
  {
    SortPermutes(r, ps);
    if ps != [] {
      SortByCorrect(r, ps[1..]);
      forall y | y in SortBy(r, ps[1..]) ensures y.name != ps[0].name {
        assert y in multiset(SortBy(r, ps[1..]));
        var k :| 0 <= k < |ps[1..]| && ps[1..][k] == y;
        assert ps[k + 1] == y;
      }
      InsertSorted(r, ps[0], SortBy(r, ps[1..]));
    }
  }

  lemma FirstIsLeast(r: Ranker, ps: seq<Provider>, qs: seq<Provider>)
    requires SortedBy(r, ps) && SortedBy(r, qs) && multiset(ps) == multiset(qs) && ps != [] && qs != []
    ensures ps[0] == qs[0]
  {
    assert ps[0] in multiset(qs) && qs[0] in multiset(ps);
    var i :| 0 <= i < |qs| && qs[i] == ps[0];
    var j :| 0 <= j < |ps| && ps[j] == qs[0];
    KeyTotal(RankKey(r, ps[0]), RankKey(r, qs[0]));
  }

  /** There is only one strictly sorted arrangement of given providers. */
  lemma {:induction false} SortedUnique(r: Ranker, ps: seq<Provider>, qs: seq<Provider>)
    requires SortedBy(r, ps) && SortedBy(r, qs) && multiset(ps) == multiset(qs)
    ensures ps == qs
    decreases |ps|
  {
    assert |ps| == |multiset(ps)| && |qs| == |multiset(qs)|;
    if ps != [] {
      FirstIsLeast(r, ps, qs);
      assert ps == [ps[0]] + ps[1..] && qs == [qs[0]] + qs[1..];
      assert multiset(ps[1..]) == multiset(ps) - multiset{ps[0]};
      assert multiset(qs[1..]) == multiset(qs) - multiset{qs[0]};
      SortedUnique(r, ps[1..], qs[1..]);
    }
  }

  lemma {:induction false} DistinctOnce(ps: seq<Provider>, x: Provider)
    requires DistinctNames(ps)
    ensures multiset(ps)[x] <= 1
  {
    if ps != [] {
      assert ps == [ps[0]] + ps[1..];
      DistinctOnce(ps[1..], x);
      if x == ps[0] { assert x !in ps[1..]; }
    }
  }

  lemma RepeatedTwice(qs: seq<Provider>, i: nat, j: nat)
    requires i < j < |qs| && qs[i] == qs[j]
    ensures multiset(qs)[qs[i]] >= 2
  {
    assert qs == qs[..j] + qs[j..];
    assert qs[..j][i] == qs[i] && qs[j..][0] == qs[j];
    assert qs[i] in multiset(qs[..j]) && qs[i] in multiset(qs[j..]);
  }

  lemma DistinctPermuted(ps: seq<Provider>, qs: seq<Provider>)
    requires DistinctNames(ps) && multiset(ps) == multiset(qs)
    ensures DistinctNames(qs)
  {
    forall i, j | 0 <= i < j < |qs| ensures qs[i].name != qs[j].name {
      assert qs[i] in multiset(ps) && qs[j] in multiset(ps);
      var k :| 0 <= k < |ps| && ps[k] == qs[i];
      var m :| 0 <= m < |ps| && ps[m] == qs[j];
      if qs[i] == qs[j] {
        RepeatedTwice(qs, i, j);
        DistinctOnce(ps, qs[i]);
      }
    }
  }

  /** So sorting does not depend on the order in which the providers were configured. */
  lemma SortByOrderFree(r: Ranker, ps: seq<Provider>, qs: seq<Provider>)
    requires DistinctNames(ps) && multiset(ps) == multiset(qs)
    ensures SortBy(r, ps) == SortBy(r, qs)
  {
    DistinctPermuted(ps, qs);
    SortByCorrect(r, ps);
    SortByCorrect(r, qs);
    SortedUnique(r, SortBy(r, ps), SortBy(r, qs));
  }
}
