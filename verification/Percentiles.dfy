/** The 95th percentile of latencies, as the metrics registry computes it from its recent samples and
    as `stats_snapshot` computes it from all rows. */
module Percentiles {
  import opened Base
  import opened Fallback
  import opened Metrics

  function CeilDiv(a: nat, b: nat): nat
    requires b > 0
  {
    (a + b - 1) / b
  }

  /** The sample that the registry reports as 95th percentile of `n` sorted ones. */
  function RegistryRank(n: nat): int {
    CeilDiv(19 * n, 20) - 1
  }

  /** The sample that `stats_snapshot` reports. */
  function RowRank(n: nat): int
    requires n > 0
  {
    CeilDiv(19 * (n - 1), 20)
  }

  lemma RankByRemainder(n: nat, q: nat, r: nat)
    requires n == 20 * q + r && r < 20
    ensures RegistryRank(n) == 19 * q + (if r == 0 then -1 else r - 1)
    ensures n > 0 ==> RowRank(n) == 19 * q + (if r == 0 then 0 else r - 1)
  {
  }

  /** The two ranks are the same unless the number of samples is a multiple of twenty; then the rows
      give the next larger sample. */
  lemma RanksOf(n: nat)
    requires n > 0
    ensures 0 <= RegistryRank(n) <= RowRank(n) < n
    ensures RowRank(n) == RegistryRank(n) + (if n % 20 == 0 then 1 else 0)
  {
    RankByRemainder(n, n / 20, n % 20);
  }

  /** The registry reports the first sample that at least 95 of 100 do not exceed; the rows report the
      first one behind which at most 5 of 100 of the others lie. */
  lemma RanksExact(n: nat)
    requires n > 0
    ensures 20 * (RegistryRank(n) + 1) >= 19 * n > 20 * RegistryRank(n)
    ensures 20 * RowRank(n) >= 19 * (n - 1) && (RowRank(n) > 0 ==> 19 * (n - 1) > 20 * (RowRank(n) - 1))
  {
  }

  /** Samples in ascending order. */
  function Ascending(samples: seq<u64>): (sorted: seq<u64>)
    ensures |sorted| == |samples|
  {
    if samples == [] then [] else InsertSample(samples[0], Ascending(samples[1..]))
  }

  function InsertSample(x: u64, sorted: seq<u64>): (r: seq<u64>)
    ensures |r| == |sorted| + 1
  {
    if sorted == [] || x <= sorted[0] then [x] + sorted else [sorted[0]] + InsertSample(x, sorted[1..])
  }

  lemma {:induction false} InsertSamplePermutes(x: u64, sorted: seq<u64>)
    ensures multiset(InsertSample(x, sorted)) == multiset(sorted) + multiset{x}
  {
    if sorted != [] && x > sorted[0] {
      assert sorted == [sorted[0]] + sorted[1..];
      InsertSamplePermutes(x, sorted[1..]);
    }
  }

  predicate Rising(s: seq<u64>) {
    forall i, j :: 0 <= i < j < |s| ==> s[i] <= s[j]
  }

  lemma RisingCons(x: u64, s: seq<u64>)
    requires Rising(s) && forall i :: 0 <= i < |s| ==> x <= s[i]
    ensures Rising([x] + s)
  {
  }

  lemma {:induction false} InsertedAbove(low: u64, x: u64, sorted: seq<u64>)
    requires low <= x && forall i :: 0 <= i < |sorted| ==> low <= sorted[i]
    ensures forall i :: 0 <= i < |InsertSample(x, sorted)| ==> low <= InsertSample(x, sorted)[i]
  {
    if sorted != [] && x > sorted[0] { InsertedAbove(low, x, sorted[1..]); }
  }

  lemma {:induction false} InsertSampleRises(x: u64, sorted: seq<u64>)
    requires Rising(sorted)
    ensures Rising(InsertSample(x, sorted))
  {
    if sorted != [] && x > sorted[0] {
      InsertSampleRises(x, sorted[1..]);
      InsertedAbove(sorted[0], x, sorted[1..]);
      RisingCons(sorted[0], InsertSample(x, sorted[1..]));
    } else {
      RisingCons(x, sorted);
    }
  }

  /** The order of the samples does not change which they are. */
  lemma {:induction false} AscendingFacts(samples: seq<u64>)
    ensures multiset(Ascending(samples)) == multiset(samples) && Rising(Ascending(samples))
  {
    if samples != [] {
      assert samples == [samples[0]] + samples[1..];
      AscendingFacts(samples[1..]);
      InsertSamplePermutes(samples[0], Ascending(samples[1..]));
      InsertSampleRises(samples[0], Ascending(samples[1..]));
    }
  }

  lemma HeadIsLeast(a: seq<u64>, x: u64)
    requires Rising(a) && x in a
    ensures a[0] <= x
  {
    var i :| 0 <= i < |a| && a[i] == x;
    assert i > 0 ==> a[0] <= a[i];
  }

  lemma TailRises(a: seq<u64>)
    requires Rising(a) && a != []
    ensures Rising(a[1..]) && multiset(a[1..]) == multiset(a) - multiset{a[0]}
  {
    assert a == [a[0]] + a[1..];
  }

  lemma SameHead(a: seq<u64>, b: seq<u64>)
    requires Rising(a) && Rising(b) && multiset(a) == multiset(b) && a != [] && b != []
    ensures a[0] == b[0]
  {
    assert a[0] in multiset(b) && b[0] in multiset(a);
    HeadIsLeast(a, b[0]);
    HeadIsLeast(b, a[0]);
  }

  lemma FromHeadAndTail(a: seq<u64>, b: seq<u64>)
    requires a != [] && b != [] && a[0] == b[0] && a[1..] == b[1..]
    ensures a == b
  {
    assert a == [a[0]] + a[1..] && b == [b[0]] + b[1..];
  }

  lemma SameSize(a: seq<u64>, b: seq<u64>)
    requires multiset(a) == multiset(b)
    ensures |a| == |b|
  {
    assert |multiset(a)| == |a| && |multiset(b)| == |b|;
  }

  /** There is only one ascending order, so a percentile does not depend on the order of the samples. */
  lemma {:induction false} RisingUnique(a: seq<u64>, b: seq<u64>)
    requires Rising(a) && Rising(b) && multiset(a) == multiset(b)
    ensures a == b
    decreases |a|
  {
    SameSize(a, b);
    if |a| > 0 {
      SameHead(a, b);
      TailRises(a);
      TailRises(b);
      RisingUnique(a[1..], b[1..]);
      FromHeadAndTail(a, b);
    }
  }

  lemma AscendingIs(samples: seq<u64>, sorted: seq<u64>)
    requires multiset(samples) == multiset(sorted) && Rising(sorted)
    ensures Ascending(samples) == sorted
  {
    AscendingFacts(samples);
    RisingUnique(Ascending(samples), sorted);
  }

  /** The registry's `percentile_latency` at 0.95 */
  function P95(samples: seq<u64>): real {
    if samples == [] then 0.0 else RanksOf(|samples|); Ascending(samples)[RegistryRank(|samples|)] as real
  }

  /** The one of `stats_snapshot`. */
  function RowP95(samples: seq<u64>): real {
    if samples == [] then 0.0 else RanksOf(|samples|); Ascending(samples)[RowRank(|samples|)] as real
  }

  /** Rows may come in any order. */
  lemma RowP95OrderFree(a: seq<u64>, b: seq<u64>)
    requires multiset(a) == multiset(b)
    ensures RowP95(a) == RowP95(b)
  {
    AscendingFacts(b);
    AscendingIs(a, Ascending(b));
    SameSize(a, b);
  }

  // ---------------------------------------------------------------- when the two agree

  /** The registry keeps its last 1024 samples, the database all of them. */
  predicate Comparable(n: nat) {
    n == 0 || (n <= MAX_SAMPLES && n % 20 != 0)
  }

  /** All histories of `n` samples give the same 95th percentile in both places. */
  ghost predicate AlwaysAgree(n: nat) {
    forall xs: seq<u64> :: |xs| == n ==> P95(Window(xs)) == RowP95(xs)
  }

  /** Samples that stand in order and differ. */
  function Counting(n: nat): (xs: seq<u64>)
    requires n <= MAX_SAMPLES
    ensures |xs| == n && Rising(xs) && forall i :: 0 <= i < n ==> xs[i] == i
  {
    seq(n, i requires 0 <= i < n => i)
  }

  /** A multiple of twenty: the rows report the next sample. */
  lemma FullTwentiesDiffer(n: nat)
    requires 0 < n <= MAX_SAMPLES && n % 20 == 0
    ensures P95(Window(Counting(n))) == RegistryRank(n) as real
    ensures RowP95(Counting(n)) == (RegistryRank(n) + 1) as real
  {
    AscendingIs(Counting(n), Counting(n));
    RanksOf(n);
  }

  /** Slow requests first, as many as have left the window. */
  function Faded(n: nat): (xs: seq<u64>)
    requires n > MAX_SAMPLES
    ensures |xs| == n
  {
    Slow(n - MAX_SAMPLES) + Counting(MAX_SAMPLES)
  }

  function Slow(n: nat): (xs: seq<u64>)
    ensures |xs| == n && forall i :: 0 <= i < n ==> xs[i] == MAX_SAMPLES
  {
    seq(n, _ => MAX_SAMPLES)
  }

  lemma RowRankGrows(n: nat)
    requires n > MAX_SAMPLES
    ensures RowRank(n) >= 973
  {
  }

  lemma FadedSorted(n: nat)
    requires n > MAX_SAMPLES
    ensures Ascending(Faded(n)) == Counting(MAX_SAMPLES) + Slow(n - MAX_SAMPLES)
  {
    AscendingIs(Faded(n), Counting(MAX_SAMPLES) + Slow(n - MAX_SAMPLES));
  }

  /** More samples than the window holds: the registry has forgotten the slow ones. */
  lemma FullWindowDiffers(n: nat)
    requires n > MAX_SAMPLES
    ensures P95(Window(Faded(n))) == 972.0 && RowP95(Faded(n)) >= 973.0
  {
    var slow, fast := Slow(n - MAX_SAMPLES), Counting(MAX_SAMPLES);
    assert Window(slow + fast) == fast;
    AscendingIs(fast, fast);
    RanksOf(MAX_SAMPLES);
    assert RegistryRank(MAX_SAMPLES) == 972;
    FadedSorted(n);
    RanksOf(n);
    RowRankGrows(n);
  }

  /** The registry and the rows report the same 95th percentile of `n` samples, whatever they are,
      exactly when all of them are still in the window and `n` is no multiple of twenty. */
  lemma PercentilesAgreeIff(n: nat)
    ensures AlwaysAgree(n) <==> Comparable(n)
  {
    if Comparable(n) {
      if n > 0 { RanksOf(n); }
      forall xs: seq<u64> | |xs| == n ensures P95(Window(xs)) == RowP95(xs) {
        assert Window(xs) == xs;
      }
    } else if n > MAX_SAMPLES {
      FullWindowDiffers(n);
      assert |Faded(n)| == n;
    } else {
      FullTwentiesDiffer(n);
      assert |Counting(n)| == n;
    }
  }

  // ---------------------------------------------------------------- the samples of a log

  /** The latencies of requests, or of the calls to one provider. */
  function SamplesOf(fs: seq<Fact>, who: Option<string>): seq<u64> {
    match who
    case None => RequestLatencies(fs)
    case Some(provider) => CallLatencies(fs, provider)
  }

  lemma {:induction false} SamplesConcat(fs: seq<Fact>, gs: seq<Fact>, who: Option<string>)
    ensures SamplesOf(fs + gs, who) == SamplesOf(fs, who) + SamplesOf(gs, who)
    decreases gs
  {
    if gs == [] {
      assert fs + gs == fs;
    } else {
      assert (fs + gs)[..|fs + gs| - 1] == fs + gs[..|gs| - 1];
      SamplesConcat(fs, gs[..|gs| - 1], who);
    }
  }

  lemma SamplesRemove(fs: seq<Fact>, i: nat, who: Option<string>)
    requires i < |fs|
    ensures multiset(SamplesOf(fs, who)) == multiset(SamplesOf(Removed(fs, i), who)) + multiset(SamplesOf([fs[i]], who))
  {
    assert fs == (fs[..i] + [fs[i]]) + fs[i + 1..];
    SamplesConcat(fs[..i] + [fs[i]], fs[i + 1..], who);
    SamplesConcat(fs[..i], [fs[i]], who);
    SamplesConcat(fs[..i], fs[i + 1..], who);
  }

  lemma {:induction false} SamplesOrderFree(fs: seq<Fact>, gs: seq<Fact>, who: Option<string>)
    requires multiset(fs) == multiset(gs)
    ensures multiset(SamplesOf(fs, who)) == multiset(SamplesOf(gs, who))
    decreases |fs|
  {
    var i := Match(fs, gs);
    if fs != [] {
      SamplesRemove(fs, 0, who);
      SamplesRemove(gs, i, who);
      SamplesOrderFree(Removed(fs, 0), Removed(gs, i), who);
    }
  }

  lemma {:induction false} NoCallSamples(rows: seq<Entry>, provider: string)
    ensures CallLatencies(RequestFacts(rows), provider) == []
  {
    if rows != [] {
      assert RequestFacts(rows)[..|rows| - 1] == RequestFacts(rows[..|rows| - 1]);
      NoCallSamples(rows[..|rows| - 1], provider);
    }
  }

  lemma {:induction false} NoRequestSamples(rows: seq<Attempt>)
    ensures RequestLatencies(Calls(rows)) == []
  {
    if rows != [] {
      assert Calls(rows)[..|rows| - 1] == Calls(rows[..|rows| - 1]);
      NoRequestSamples(rows[..|rows| - 1]);
    }
  }

  /** A log and its rows, in any order, have the same samples; so the window of the log and the rows
      report the same percentile if they are comparable. */
  lemma RowsComparable(fs: seq<Fact>, rows: seq<Fact>, who: Option<string>)
    requires multiset(fs) == multiset(rows) && Comparable(|SamplesOf(fs, who)|)
    ensures P95(Window(SamplesOf(fs, who))) == RowP95(SamplesOf(rows, who))
  {
    PercentilesAgreeIff(|SamplesOf(fs, who)|);
    SamplesOrderFree(fs, rows, who);
    RowP95OrderFree(SamplesOf(fs, who), SamplesOf(rows, who));
  }

  /** What `stats_snapshot` reports. */
  datatype Readings = Readings(requests: real, byProvider: map<string, real>)

  ghost predicate Reported(p: Readings, rows: seq<Fact>) {
    && p.requests == RowP95(SamplesOf(rows, None))
    && (forall name ::
          (if name in p.byProvider then p.byProvider[name] else 0.0) == RowP95(SamplesOf(rows, Some(name))))
  }

  method SampleRequests(rows: seq<Entry>) returns (samples: seq<u64>)
    ensures samples == SamplesOf(RequestFacts(rows), None)
  {
    samples := [];
    for i := 0 to |rows|
      invariant samples == RequestLatencies(RequestFacts(rows[..i]))
    {
      SamplesSnoc(RequestFacts(rows[..i]), RequestFact(rows[i]), "");
      samples := samples + [rows[i].latencyMs];
      assert RequestFacts(rows[..i + 1]) == RequestFacts(rows[..i]) + [RequestFact(rows[i])];
    }
    assert rows[..|rows|] == rows;
  }

  method SampleCalls(rows: seq<Attempt>) returns (samples: map<string, seq<u64>>)
    ensures forall p :: Samples(samples, p) == SamplesOf(Calls(rows), Some(p))
  {
    samples := map[];
    for i := 0 to |rows|
      invariant forall p :: Samples(samples, p) == CallLatencies(Calls(rows[..i]), p)
    {
      ghost var before := Calls(rows[..i]);
      assert Calls(rows[..i + 1]) == before + [CallFact(rows[i])];
      forall p ensures CallLatencies(before + [CallFact(rows[i])], p) ==
                       CallLatencies(before, p) + (if rows[i].provider == p then [rows[i].latencyMs] else [])
      {
        SamplesSnoc(before, CallFact(rows[i]), p);
      }
      samples := samples[rows[i].provider := Samples(samples, rows[i].provider) + [rows[i].latencyMs]];
    }
    assert rows[..|rows|] == rows;
  }

  /** Request rows give the request samples, attempt rows those of the providers. */
  lemma RowSamples(requestRows: seq<Entry>, attemptRows: seq<Attempt>, who: Option<string>)
    ensures SamplesOf(RequestFacts(requestRows) + Calls(attemptRows), who) ==
            if who.None? then SamplesOf(RequestFacts(requestRows), None) else SamplesOf(Calls(attemptRows), who)
  {
    SamplesConcat(RequestFacts(requestRows), Calls(attemptRows), who);
    if who.None? { NoRequestSamples(attemptRows); } else { NoCallSamples(requestRows, who.value); }
  }

  /** The percentiles of `stats_snapshot`: every row counts, however many there are. */
  method RowPercentiles(requestRows: seq<Entry>, attemptRows: seq<Attempt>) returns (r: Readings)
    ensures Reported(r, RequestFacts(requestRows) + Calls(attemptRows))
  {
    var requests := SampleRequests(requestRows);
    var calls := SampleCalls(attemptRows);
    r := Readings(RowP95(requests), map p | p in calls :: RowP95(calls[p]));
    RowSamples(requestRows, attemptRows, None);
    forall name
      ensures (if name in r.byProvider then r.byProvider[name] else 0.0) ==
              RowP95(SamplesOf(RequestFacts(requestRows) + Calls(attemptRows), Some(name)))
    {
      RowSamples(requestRows, attemptRows, Some(name));
      assert Samples(calls, name) == SamplesOf(Calls(attemptRows), Some(name));
    }
  }
}
