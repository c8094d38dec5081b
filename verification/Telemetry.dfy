/** The metrics registry as the gateway updates it, the recomputation from rows, and what routing
    reads from the registry. */
module Telemetry {
  import opened Base
  import opened Fallback
  import opened Metrics
  import opened Percentiles
  import opened Routing
  import opened Selection
  import PrefixAffinity

  /** The registry's fields. */
  datatype Registry = Registry(
    counters: Counters,
    cost: Cost,
    windows: Windows,
    inFlight: map<string, nat>,
    pressure: map<string, nat>,
    openRequests: nat)

  const EMPTY := Registry(ZERO, FREE, Windows([], map[], map[]), map[], map[], 0)

  /** Everything that is derived from the log. */
  ghost predicate Kept(r: Registry, log: seq<Fact>) {
    Agrees(r.counters, log) && CostAgrees(r.cost, log) && WindowsAgree(r.windows, log)
  }

  /** The registry against its log, the calls in flight and the requests in flight. */
  ghost predicate RegistryOk(r: Registry, log: seq<Fact>, live: seq<Load>, requests: nat) {
    Kept(r, log) && Gauges(r.inFlight, r.pressure, live) && r.openRequests == requests
  }

  function AddCall(r: Registry, a: Attempt): Registry {
    r.(counters := RecordCall(r.counters, a), windows := SampleCall(r.windows, a))
  }

  function AddRequest(r: Registry, e: Entry): Registry
    requires Paired(e)
  {
    r.(counters := RecordRequest(r.counters, e),
       cost := if e.success then AddCost(r.cost, e.cost.value) else r.cost,
       windows := r.windows.(requests := PushSample(r.windows.requests, e.latencyMs)))
  }

  lemma CallKept(r: Registry, log: seq<Fact>, a: Attempt)
    requires Kept(r, log)
    ensures Kept(AddCall(r, a), log + [CallFact(a)])
  {
    RecordCallAgrees(r.counters, log, a);
    SampleCallAgrees(r.windows, log, a);
    CostStep(r.cost, log, CallFact(a));
  }

  lemma RequestKept(r: Registry, log: seq<Fact>, e: Entry)
    requires Kept(r, log) && Paired(e)
    ensures Kept(AddRequest(r, e), log + [RequestFact(e)])
  {
    RecordIsFold(r.counters, e);
    FoldRequestAgrees(r.counters, log, e);
    SampleRequestAgrees(r.windows, log, e);
    CostStep(r.cost, log, RequestFact(e));
    assert AddCost(r.cost, FREE) == r.cost;
  }

  lemma LogSnoc(log: seq<Fact>, more: seq<Fact>, i: nat)
    requires i < |more|
    ensures log + more[..i + 1] == (log + more[..i]) + [more[i]]
  {
  }

  /** `saturating_sub(1)` */
  function OneLess(n: nat): nat {
    if n == 0 then 0 else n - 1
  }

  class MetricsRegistry {
    var value: Registry
    ghost var log: seq<Fact>
    ghost var live: seq<Load>
    ghost var requests: nat

    ghost predicate Valid()
      reads this
    {
      RegistryOk(value, log, live, requests)
    }

    constructor ()
      ensures Valid() && log == [] && live == [] && requests == 0
    {
      value, log, live, requests := EMPTY, [], [], 0;
    }

    method BeginRequest()
      requires Valid()
      modifies `value, `requests
      ensures Valid() && requests == old(requests) + 1
    {
      value := value.(openRequests := value.openRequests + 1);
      requests := requests + 1;
    }

    /** Never cut off at zero. */
    method EndRequest()
      requires Valid() && requests > 0
      modifies `value, `requests
      ensures Valid() && requests == old(requests) - 1
    {
      value := value.(openRequests := OneLess(value.openRequests));
      requests := requests - 1;
    }

    method RecordAttempt(a: Attempt)
      requires Valid()
      modifies `value, `log
      ensures Valid() && log == old(log) + [CallFact(a)]
    {
      CallKept(value, log, a);
      value := AddCall(value, a);
      log := log + [CallFact(a)];
    }

    method RecordProviderAttempts(attempts: seq<Attempt>)
      requires Valid()
      modifies `value, `log
      ensures Valid() && log == old(log) + Calls(attempts)
    {
      ghost var start := log;
      for i := 0 to |attempts|
        invariant Valid() && log == start + Calls(attempts)[..i]
      {
        RecordAttempt(attempts[i]);
        LogSnoc(start, Calls(attempts), i);
      }
    }

    /** `record_chat_success` and `record_chat_failure_with_category`: the entry's facts are added to
        everything that is kept. */
    method RecordChat(e: Entry)
      requires Valid() && Paired(e)
      modifies `value, `log
      ensures Valid() && log == old(log) + FactsOf(e)
    {
      RequestKept(value, log, e);
      value := AddRequest(value, e);
      log := log + [RequestFact(e)];
      RecordProviderAttempts(e.attempts);
      assert log == old(log) + FactsOf(e);
    }

    method BeginProviderRequest(provider: string, units: nat)
      requires Valid() && units >= 1
      modifies `value, `live
      ensures Valid() && live == old(live) + [Load(provider, units)]
    {
      BeginKeepsGauges(value.inFlight, value.pressure, live, Load(provider, units));
      value := value.(inFlight := value.inFlight[provider := Gauge(value.inFlight, provider) + 1],
                      pressure := value.pressure[provider := Gauge(value.pressure, provider) + units]);
      live := live + [Load(provider, units)];
    }

    method EndProviderRequest(provider: string, units: nat, ghost i: nat)
      requires Valid() && i < |live| && live[i] == Load(provider, units)
      modifies `value, `live
      ensures Valid() && live == old(live[..i] + live[i + 1..])
    {
      EndKeepsGauges(value.inFlight, value.pressure, live, i);
      value := value.(inFlight := DecrementOrRemove(value.inFlight, provider, 1),
                      pressure := DecrementOrRemove(value.pressure, provider, units));
      live := live[..i] + live[i + 1..];
    }
  }

  /** `MetricsRequestGuard`: one request, counted until its guard goes. */
  class MetricsRequestGuard {
    const metrics: MetricsRegistry
    var active: bool

    constructor (metrics: MetricsRegistry)
      requires metrics.Valid()
      modifies metrics`value, metrics`requests
      ensures metrics.Valid() && active && this.metrics == metrics && metrics.requests == old(metrics.requests) + 1
    {
      this.metrics, active := metrics, true;
      new;
      metrics.BeginRequest();
    }

    method Drop()
      requires metrics.Valid() && (active ==> metrics.requests > 0)
      modifies this, metrics`value, metrics`requests
      ensures metrics.Valid() && !active
      ensures metrics.requests == old(metrics.requests) - (if old(active) then 1 else 0)
    {
      if active {
        metrics.EndRequest();
        active := false;
      }
    }
  }

  /** `ProviderInFlightGuard`: one call, given back once. */
  class ProviderInFlightGuard {
    const metrics: MetricsRegistry
    const provider: string
    const units: nat
    var active: bool

    constructor (metrics: MetricsRegistry, provider: string, promptTokens: u32, maxCompletionTokens: Option<u32>)
      requires metrics.Valid()
      modifies metrics`value, metrics`live
      ensures metrics.Valid() && active && this.metrics == metrics
      ensures metrics.live == old(metrics.live) + [Load(provider, QueueUnits(promptTokens, maxCompletionTokens))]
      ensures this.provider == provider && units == QueueUnits(promptTokens, maxCompletionTokens)
    {
      this.metrics, this.provider := metrics, provider;
      this.units, active := QueueUnits(promptTokens, maxCompletionTokens), true;
      new;
      metrics.BeginProviderRequest(provider, units);
    }

    /** Called by hand or on drop; only the first call counts. */
    method Finish(ghost i: nat)
      requires metrics.Valid()
      requires active ==> i < |metrics.live| && metrics.live[i] == Load(provider, units)
      modifies this, metrics`value, metrics`live
      ensures metrics.Valid() && !active
      ensures metrics.live == if old(active) then old(metrics.live[..i] + metrics.live[i + 1..]) else old(metrics.live)
    {
      if active {
        metrics.EndProviderRequest(provider, units, i);
        active := false;
      }
    }
  }

  // ---------------------------------------------------------------- averages

  datatype Averages = Averages(latencyMs: real, errorRate: real, byProvider: map<Label, real>)

  /** The registry's averages, each guarded against an empty denominator. */
  function AveragesOf(c: Counters): Averages {
    Averages(if c.totalRequests == 0 then 0.0 else c.totalLatencyMs as real / c.totalRequests as real,
             if c.totalRequests == 0 then 0.0 else c.failedRequests as real / c.totalRequests as real,
             map l | l in c.requests ::
               if c.requests[l] == 0 then 0.0 else Read(c.latency, l) as real / c.requests[l] as real)
  }

  lemma {:induction false} OccursPositive(fs: seq<Fact>, l: Label)
    requires Occurs(Requests, fs, l)
    ensures Sum(Requests, fs, l) >= 1
  {
    var before, last := fs[..|fs| - 1], Last(fs);
    assert fs == before + [last];
    OccursSnoc(Requests, before, last, l);
    if !Counts(Requests, last, l) { OccursPositive(before, l); }
  }

  lemma ListedIsPositive(c: Counters, fs: seq<Fact>, l: Label)
    requires Agrees(c, fs) && l in c.requests
    ensures c.requests[l] >= 1
  {
    assert AgreesAt(c, fs, Requests, l);
    OccursPositive(fs, l);
  }

  /** Averages are what they are called: over all requests of a log, the latency of each and the share of
      the failed ones, which is between none and all. */
  lemma AveragesExact(c: Counters, fs: seq<Fact>)
    requires Agrees(c, fs)
    ensures AveragesOf(c).latencyMs * c.totalRequests as real == c.totalLatencyMs as real
    ensures AveragesOf(c).errorRate * c.totalRequests as real == c.failedRequests as real
    ensures 0.0 <= AveragesOf(c).errorRate <= 1.0
    ensures c.totalRequests == 0 ==> AveragesOf(c).latencyMs == AveragesOf(c).errorRate == 0.0
  {
    NumbersWithin(c, fs);
  }

  lemma NumbersWithin(c: Counters, fs: seq<Fact>)
    requires Agrees(c, fs)
    ensures c.failedRequests <= c.totalRequests && (c.totalRequests == 0 ==> c.totalLatencyMs == 0)
  {
    FailedAmongAll(fs);
    LatencyOfRequests(fs);
    NumbersMean(c, fs);
  }

  lemma {:induction false} FailedAmongAll(fs: seq<Fact>)
    ensures Sum(FailedRequests, fs, All) <= Sum(TotalRequests, fs, All)
  {
    if fs != [] { FailedAmongAll(fs[..|fs| - 1]); }
  }

  // ---------------------------------------------------------------- recomputation from rows

  /** The request rows of `stats_snapshot`; latencies are added up as a real number. */
  method FoldRequestRows(rows: seq<Entry>) returns (c: Counters, cost: Cost, latencyMs: real)
    ensures Agrees(c, RequestFacts(rows)) && CostAgrees(cost, RequestFacts(rows))
    ensures latencyMs == c.totalLatencyMs as real
  {
    c, cost, latencyMs := ZERO, FREE, 0.0;
    for i := 0 to |rows|
      invariant Agrees(c, RequestFacts(rows[..i])) && CostAgrees(cost, RequestFacts(rows[..i]))
      invariant latencyMs == c.totalLatencyMs as real
    {
      ghost var before := RequestFacts(rows[..i]);
      FoldRequestAgrees(c, before, rows[i]);
      CostStep(cost, before, RequestFact(rows[i]));
      c := FoldRequest(c, rows[i]);
      cost := AddCost(cost, rows[i].cost.UnwrapOr(FREE));
      latencyMs := latencyMs + rows[i].latencyMs as real;
      assert RequestFacts(rows[..i + 1]) == before + [RequestFact(rows[i])];
    }
    assert rows[..|rows|] == rows;
  }

  /** The attempt rows. */
  method FoldAttemptRows(rows: seq<Attempt>, ghost requests: seq<Fact>, start: Counters, ghost cost: Cost)
    returns (c: Counters)
    requires Agrees(start, requests) && CostAgrees(cost, requests)
    ensures Agrees(c, requests + Calls(rows)) && CostAgrees(cost, requests + Calls(rows))
    ensures c.totalRequests == start.totalRequests && c.totalLatencyMs == start.totalLatencyMs
    ensures c.failedRequests == start.failedRequests
  {
    c := start;
    assert requests + Calls(rows[..0]) == requests;
    for i := 0 to |rows|
      invariant Agrees(c, requests + Calls(rows[..i])) && CostAgrees(cost, requests + Calls(rows[..i]))
      invariant c.totalRequests == start.totalRequests && c.totalLatencyMs == start.totalLatencyMs
      invariant c.failedRequests == start.failedRequests
    {
      ghost var before := requests + Calls(rows[..i]);
      RecordCallAgrees(c, before, rows[i]);
      CostStep(cost, before, CallFact(rows[i]));
      c := RecordCall(c, rows[i]);
      assert requests + Calls(rows[..i + 1]) == before + [CallFact(rows[i])];
    }
    assert rows[..|rows|] == rows;
  }

  /** The averages per provider, which divide without a guard. */
  method ProviderAverages(c: Counters, ghost fs: seq<Fact>) returns (averages: map<Label, real>)
    requires Agrees(c, fs)
    ensures averages == AveragesOf(c).byProvider
  {
    averages := map[];
    var left := c.requests.Keys;
    while left != {}
      invariant left <= c.requests.Keys && averages.Keys == c.requests.Keys - left
      invariant forall l :: l in averages ==> averages[l] == AveragesOf(c).byProvider[l]
    {
      var l :| l in left;
      ListedIsPositive(c, fs, l);
      averages := averages[l := Read(c.latency, l) as real / c.requests[l] as real];
      left := left - {l};
    }
  }

  /** `stats_snapshot` */
  method StatsSnapshot(requestRows: seq<Entry>, attemptRows: seq<Attempt>)
    returns (c: Counters, cost: Cost, averages: Averages, percentiles: Readings)
    ensures Agrees(c, RequestFacts(requestRows) + Calls(attemptRows))
    ensures CostAgrees(cost, RequestFacts(requestRows) + Calls(attemptRows))
    ensures averages == AveragesOf(c)
    ensures Reported(percentiles, RequestFacts(requestRows) + Calls(attemptRows))
  {
    var start, latencyMs;
    start, cost, latencyMs := FoldRequestRows(requestRows);
    var errorRate := 0.0;
    if start.totalRequests > 0 {
      latencyMs := latencyMs / start.totalRequests as real;
      errorRate := start.failedRequests as real / start.totalRequests as real;
    } else {
      NoRequestsNoLatency(start, RequestFacts(requestRows));
    }
    c := FoldAttemptRows(attemptRows, RequestFacts(requestRows), start, cost);
    var byProvider := ProviderAverages(c, RequestFacts(requestRows) + Calls(attemptRows));
    averages := Averages(latencyMs, errorRate, byProvider);
    percentiles := RowPercentiles(requestRows, attemptRows);
  }

  lemma NoRequestsNoLatency(c: Counters, fs: seq<Fact>)
    requires Agrees(c, fs) && c.totalRequests == 0
    ensures c.totalLatencyMs == 0
  {
    assert AgreesAt(c, fs, TotalRequests, All) && AgreesAt(c, fs, TotalLatency, All);
    LatencyOfRequests(fs);
  }

  lemma {:induction false} LatencyOfRequests(fs: seq<Fact>)
    ensures Sum(TotalRequests, fs, All) == 0 ==> Sum(TotalLatency, fs, All) == 0
  {
    if fs != [] { LatencyOfRequests(fs[..|fs| - 1]); }
  }

  /** The calls of all requests, in the order they were made. */
  function AllAttempts(entries: seq<Entry>): seq<Attempt> {
    if entries == [] then [] else AllAttempts(entries[..|entries| - 1]) + Last(entries).attempts
  }

  lemma CallsConcat(a: seq<Attempt>, b: seq<Attempt>)
    ensures Calls(a + b) == Calls(a) + Calls(b)
  {
  }

  /** One more request with its calls, sorted into two lists. */
  lemma SortedIn(facts: seq<Fact>, requests: seq<Fact>, calls: seq<Fact>, f: Fact, more: seq<Fact>)
    requires multiset(facts) == multiset(requests) + multiset(calls)
    ensures multiset(facts + ([f] + more)) == multiset(requests + [f]) + multiset(calls + more)
  {
  }

  lemma RowsSnoc(before: seq<Entry>, e: Entry)
    ensures Facts(before + [e]) == Facts(before) + ([RequestFact(e)] + Calls(e.attempts))
    ensures RequestFacts(before + [e]) == RequestFacts(before) + [RequestFact(e)]
    ensures Calls(AllAttempts(before + [e])) == Calls(AllAttempts(before)) + Calls(e.attempts)
  {
    assert (before + [e])[..|before|] == before;
    CallsConcat(AllAttempts(before), e.attempts);
  }

  lemma {:induction false} FactsAreRows(entries: seq<Entry>)
    ensures multiset(Facts(entries)) == multiset(RequestFacts(entries)) + multiset(Calls(AllAttempts(entries)))
  {
    if entries != [] {
      var before, e := entries[..|entries| - 1], Last(entries);
      FactsAreRows(before);
      RowsSnoc(before, e);
      SortedIn(Facts(before), RequestFacts(before), Calls(AllAttempts(before)), RequestFact(e), Calls(e.attempts));
      assert entries == before + [e];
    }
  }

  lemma {:induction false} RequestCount(rows: seq<Entry>, f: Fact)
    ensures multiset(RequestFacts(rows))[f] == if f.RequestFact? then multiset(rows)[f.entry] else 0
  {
    if rows != [] {
      var before, e := rows[..|rows| - 1], Last(rows);
      RequestCount(before, f);
      assert rows == before + [e] && RequestFacts(rows) == RequestFacts(before) + [RequestFact(e)];
    }
  }

  lemma {:induction false} CallCount(rows: seq<Attempt>, f: Fact)
    ensures multiset(Calls(rows))[f] == if f.CallFact? then multiset(rows)[f.attempt] else 0
  {
    if rows != [] {
      var before, a := rows[..|rows| - 1], Last(rows);
      CallCount(before, f);
      assert rows == before + [a] && Calls(rows) == Calls(before) + [CallFact(a)];
    }
  }

  lemma RegistryMatchesRows(entries: seq<Entry>, c: Counters, cost: Cost,
                            requestRows: seq<Entry>, attemptRows: seq<Attempt>, d: Counters, rowCost: Cost)
    requires Agrees(c, Facts(entries)) && CostAgrees(cost, Facts(entries))
    requires multiset(requestRows) == multiset(entries) && multiset(attemptRows) == multiset(AllAttempts(entries))
    requires Agrees(d, RequestFacts(requestRows) + Calls(attemptRows))
    requires CostAgrees(rowCost, RequestFacts(requestRows) + Calls(attemptRows))
    ensures c == d && cost == rowCost
  {
    var fs, gs := Facts(entries), RequestFacts(requestRows) + Calls(attemptRows);
    RowsAreFacts(entries, requestRows, attemptRows);
    CountersDetermined(c, d, fs, gs);
    CostsEqual(cost, rowCost, fs, gs);
  }

  /** What the registry keeps of these samples. */
  function SamplesIn(r: Registry, who: Option<string>): seq<u64> {
    match who
    case None => r.windows.requests
    case Some(provider) => Samples(r.windows.calls, provider)
  }

  /** What the rows report of them. */
  function Reading(p: Readings, who: Option<string>): real {
    match who
    case None => p.requests
    case Some(provider) => if provider in p.byProvider then p.byProvider[provider] else 0.0
  }

  method RecordAll(entries: seq<Entry>) returns (registry: Registry)
    requires forall i :: 0 <= i < |entries| ==> Paired(entries[i])
    ensures Kept(registry, Facts(entries))
  {
    var metrics := new MetricsRegistry();
    for i := 0 to |entries|
      invariant metrics.Valid() && metrics.log == Facts(entries[..i])
    {
      metrics.RecordChat(entries[i]);
      assert entries[..i + 1][..i] == entries[..i];
    }
    assert entries[..|entries|] == entries;
    registry := metrics.value;
  }

  /** Record any paired requests in a new registry and log them; then the registry's counters, costs
      and averages are those recomputed from the rows, in whatever order the database returns them, and
      so is each 95th percentile whose number of samples allows it. */
  method RecordAndRecompute(entries: seq<Entry>, requestRows: seq<Entry>, attemptRows: seq<Attempt>)
    returns (registry: Registry, c: Counters, cost: Cost, averages: Averages, percentiles: Readings)
    requires forall i :: 0 <= i < |entries| ==> Paired(entries[i])
    requires multiset(requestRows) == multiset(entries) && multiset(attemptRows) == multiset(AllAttempts(entries))
    ensures Kept(registry, Facts(entries))
    ensures registry.counters == c && registry.cost == cost && AveragesOf(registry.counters) == averages
    ensures forall who :: Comparable(|SamplesOf(Facts(entries), who)|) ==>
              P95(SamplesIn(registry, who)) == Reading(percentiles, who)
  {
    registry := RecordAll(entries);
    c, cost, averages, percentiles := StatsSnapshot(requestRows, attemptRows);
    RegistryMatchesRows(entries, registry.counters, registry.cost, requestRows, attemptRows, c, cost);
    ReadingsMatch(entries, registry, requestRows, attemptRows, percentiles);
  }

  lemma ReadingsMatch(entries: seq<Entry>, registry: Registry, requestRows: seq<Entry>, attemptRows: seq<Attempt>,
                      percentiles: Readings)
    requires Kept(registry, Facts(entries)) && Reported(percentiles, RequestFacts(requestRows) + Calls(attemptRows))
    requires multiset(requestRows) == multiset(entries) && multiset(attemptRows) == multiset(AllAttempts(entries))
    ensures forall who :: Comparable(|SamplesOf(Facts(entries), who)|) ==>
              P95(SamplesIn(registry, who)) == Reading(percentiles, who)
  {
    var rows := RequestFacts(requestRows) + Calls(attemptRows);
    RowsAreFacts(entries, requestRows, attemptRows);
    forall who | Comparable(|SamplesOf(Facts(entries), who)|)
      ensures P95(SamplesIn(registry, who)) == Reading(percentiles, who)
    {
      RowsComparable(Facts(entries), rows, who);
      ReadingIs(percentiles, rows, who);
      KeptSamples(registry, Facts(entries), who);
    }
  }

  lemma ReadingIs(p: Readings, rows: seq<Fact>, who: Option<string>)
    requires Reported(p, rows)
    ensures Reading(p, who) == RowP95(SamplesOf(rows, who))
  {
  }

  lemma KeptSamples(r: Registry, log: seq<Fact>, who: Option<string>)
    requires Kept(r, log)
    ensures SamplesIn(r, who) == Window(SamplesOf(log, who))
  {
    if who.Some? { assert Samples(r.windows.calls, who.value) == Window(CallLatencies(log, who.value)); }
  }

  lemma RowsAreFacts(entries: seq<Entry>, requestRows: seq<Entry>, attemptRows: seq<Attempt>)
    requires multiset(requestRows) == multiset(entries) && multiset(attemptRows) == multiset(AllAttempts(entries))
    ensures multiset(Facts(entries)) == multiset(RequestFacts(requestRows) + Calls(attemptRows))
  {
    FactsAreRows(entries);
    forall f ensures multiset(RequestFacts(requestRows))[f] == multiset(RequestFacts(entries))[f] {
      RequestCount(requestRows, f);
      RequestCount(entries, f);
    }
    forall f ensures multiset(Calls(attemptRows))[f] == multiset(Calls(AllAttempts(entries)))[f] {
      CallCount(attemptRows, f);
      CallCount(AllAttempts(entries), f);
    }
  }

  lemma CostsEqual(c: Cost, d: Cost, fs: seq<Fact>, gs: seq<Fact>)
    requires CostAgrees(c, fs) && CostAgrees(d, gs) && multiset(fs) == multiset(gs)
    ensures c == d
  {
    CostOrderFree(fs, gs, Input);
    CostOrderFree(fs, gs, Output);
    CostOrderFree(fs, gs, Total);
    assert PartOf(c, Input) == PartOf(d, Input) && PartOf(c, Output) == PartOf(d, Output)
        && PartOf(c, Total) == PartOf(d, Total);
  }

  // ---------------------------------------------------------------- what routing sees

  function Clamp(n: nat): u64 {
    if n <= U64_MAX then n else U64_MAX
  }

  function CategoryName(c: ErrorCategory): string {
    match c
    case TimeoutCategory => "timeout"
    case RateLimitedCategory => "rate_limited"
    case AuthenticationFailedCategory => "authentication_failed"
    case ProviderUnavailableCategory => "provider_unavailable"
    case ProviderBadResponseCategory => "provider_bad_response"
  }

  function CategoryNames(cs: seq<ErrorCategory>): (names: seq<string>)
    ensures |names| == |cs|
  {
    seq(|cs|, i requires 0 <= i < |cs| => CategoryName(cs[i]))
  }

  /** `snapshot`, the part that routing reads. */
  function SnapshotOf(r: Registry): Snapshot {
    Snapshot(
      map p | p in r.windows.calls :: P95(r.windows.calls[p]),
      map l | l in AveragesOf(r.counters).byProvider && l.Named? :: l.provider := AveragesOf(r.counters).byProvider[l],
      map p | p in r.inFlight :: Clamp(r.inFlight[p]),
      map p | p in r.pressure :: r.pressure[p] as real,
      map p | p in r.windows.errors :: multiset(CategoryNames(r.windows.errors[p])))
  }

  lemma {:induction false} CallsWithin(live: seq<Load>, p: string)
    ensures CallsOf(live, p) <= |live|
  {
    if live != [] { CallsWithin(live[..|live| - 1], p); }
  }

  /** All samples together. */
  function Together(samples: seq<u64>): nat {
    if samples == [] then 0 else Together(samples[..|samples| - 1]) + Last(samples)
  }

  /** A provider's sums are those of its latency samples. */
  lemma {:induction false} SumsOfSamples(fs: seq<Fact>, p: string)
    ensures Sum(Requests, fs, Named(p)) == |CallLatencies(fs, p)|
    ensures Sum(ProviderLatency, fs, Named(p)) == Together(CallLatencies(fs, p))
  {
    if fs != [] {
      var before, f := fs[..|fs| - 1], Last(fs);
      SumsOfSamples(before, p);
      if f.CallFact? && f.attempt.provider == p {
        var samples := CallLatencies(before, p);
        assert (samples + [f.attempt.latencyMs])[..|samples|] == samples;
      }
    }
  }

  /** What a snapshot of the registry says about one provider: the 95th percentile of its recent calls
      and the average of all of them, if there are any, its remembered errors, and its calls and units
      in flight. */
  lemma SnapshotReflects(r: Registry, log: seq<Fact>, live: seq<Load>, requests: nat, p: string)
    requires RegistryOk(r, log, live, requests) && |live| <= U64_MAX
    ensures ErrorCount(SnapshotOf(r), p) == |Window(CallErrors(log, p))|
    ensures CountAt(SnapshotOf(r).inFlight, p) == CallsOf(live, p)
    ensures Lookup0(SnapshotOf(r).pressure, p) == UnitsOf(live, p) as real
    ensures Lookup0(SnapshotOf(r).p95, p) == P95(Window(CallLatencies(log, p)))
    ensures p in SnapshotOf(r).average <==> CallLatencies(log, p) != []
    ensures CallLatencies(log, p) != [] ==>
              SnapshotOf(r).average[p] == Together(CallLatencies(log, p)) as real / |CallLatencies(log, p)| as real
  {
    CallsWithin(live, p);
    assert Gauge(r.inFlight, p) == CallsOf(live, p);
    assert Gauge(r.pressure, p) == UnitsOf(live, p);
    assert Samples(r.windows.errors, p) == Window(CallErrors(log, p));
    assert Samples(r.windows.calls, p) == Window(CallLatencies(log, p));
    AverageReflects(r, log, p);
  }

  lemma AverageReflects(r: Registry, log: seq<Fact>, p: string)
    requires Agrees(r.counters, log)
    ensures p in SnapshotOf(r).average <==> CallLatencies(log, p) != []
    ensures CallLatencies(log, p) != [] ==>
              SnapshotOf(r).average[p] == Together(CallLatencies(log, p)) as real / |CallLatencies(log, p)| as real
  {
    ListedIffCalled(r.counters, log, p);
    AverageIs(r, p);
  }

  lemma ListedIffCalled(c: Counters, log: seq<Fact>, p: string)
    requires Agrees(c, log)
    ensures Named(p) in c.requests <==> CallLatencies(log, p) != []
    ensures Read(c.requests, Named(p)) == |CallLatencies(log, p)|
    ensures Read(c.latency, Named(p)) == Together(CallLatencies(log, p))
  {
    SumsOfSamples(log, p);
    TablesMean(c, log, Named(p));
    if Named(p) in c.requests { ListedIsPositive(c, log, Named(p)); }
  }

  lemma AverageIs(r: Registry, p: string)
    ensures p in SnapshotOf(r).average <==> Named(p) in r.counters.requests
    ensures p in SnapshotOf(r).average && r.counters.requests[Named(p)] > 0 ==>
              SnapshotOf(r).average[p] ==
              Read(r.counters.latency, Named(p)) as real / r.counters.requests[Named(p)] as real
  {
    var averages := AveragesOf(r.counters).byProvider;
    assert p in SnapshotOf(r).average <==> Named(p) in averages;
  }

  lemma {:induction false} ErrorsKept(log: seq<Fact>, provider: string)
    ensures CallErrors(log, provider) != [] <==> exists f :: f in log && Failed(f, provider)
  {
    if log != [] {
      var before := log[..|log| - 1];
      ErrorsKept(before, provider);
      assert log == before + [Last(log)];
    }
  }

  /** "Recent" errors are the last 1024 of a provider however old they are: a snapshot shows some
      exactly when any of its calls ever failed. */
  lemma RecentMeansEver(v: View, r: Registry, log: seq<Fact>, live: seq<Load>, requests: nat, provider: string)
    requires RegistryOk(r, log, live, requests) && |live| <= U64_MAX && v.snapshot == Some(SnapshotOf(r))
    ensures RecentErrors(v, provider) <==> exists f :: f in log && Failed(f, provider)
  {
    SnapshotReflects(r, log, live, requests, provider);
    ErrorsKept(log, provider);
  }

  /** So the affinity index never again leads to a provider that has failed once. */
  lemma HitNeverFailed(baseline: seq<Provider>, v: View, a: AffinityInput, f: string,
                       history: seq<PrefixAffinity.Event>, clock: nat,
                       r: Registry, log: seq<Fact>, live: seq<Load>, requests: nat)
    requires DistinctNames(baseline) && Affine(baseline, v, a, f).1 == PrefixHit
    requires PrefixAffinity.Refines(a.limits, a.cache, history, clock) && clock <= a.now
    requires RegistryOk(r, log, live, requests) && |live| <= U64_MAX && v.snapshot == Some(SnapshotOf(r))
    ensures var cs := Affine(baseline, v, a, f).0;
            && cs != []
            && (forall g :: g in log ==> !Failed(g, cs[0].name))
            && (forall p :: p in baseline && !OpenCircuit(v, p.name) ==>
                  CallsOf(live, cs[0].name) <= CallsOf(live, p.name) + a.threshold)
  {
    PrefixHitHead(baseline, v, a, f, history, clock);
    var head := Affine(baseline, v, a, f).0[0].name;
    RecentMeansEver(v, r, log, live, requests, head);
    SnapshotReflects(r, log, live, requests, head);
    forall p | p in baseline && !OpenCircuit(v, p.name)
        ensures CallsOf(live, head) <= CallsOf(live, p.name) + a.threshold {
      SnapshotReflects(r, log, live, requests, p.name);
    }
  }

  /** One failed call to a provider, and then `k` successful ones. */
  function OneFailure(provider: string, category: ErrorCategory, k: nat): (attempts: seq<Attempt>)
    ensures |attempts| == k + 1 && !attempts[0].success && attempts[0].category == Some(category)
    ensures forall i :: 0 <= i < |attempts| ==> attempts[i].provider == provider
    ensures forall i :: 1 <= i < |attempts| ==> attempts[i].success
  {
    [Attempt(provider, 1, 1, false, false, Some(category))] + seq(k, _ => Attempt(provider, 1, 1, true, false, None))
  }

  /** A registry after these calls. */
  function AfterCalls(attempts: seq<Attempt>): Registry {
    if attempts == [] then EMPTY else AddCall(AfterCalls(attempts[..|attempts| - 1]), Last(attempts))
  }

  lemma {:induction false} AfterCallsOk(attempts: seq<Attempt>)
    ensures RegistryOk(AfterCalls(attempts), Calls(attempts), [], 0)
  {
    if attempts != [] {
      var before := attempts[..|attempts| - 1];
      AfterCallsOk(before);
      CallKept(AfterCalls(before), Calls(before), Last(attempts));
      assert Calls(attempts) == Calls(before) + [CallFact(Last(attempts))];
    }
  }

  /** However many calls have succeeded since, one failure still shows, and a healthy provider that
      served the prefix before is passed over for it: the baseline order is used instead. */
  lemma FailureNeverFades(provider: string, category: ErrorCategory, k: nat, v: View,
                          baseline: seq<Provider>, a: AffinityInput, f: string)
    requires v.snapshot == Some(SnapshotOf(AfterCalls(OneFailure(provider, category, k))))
    ensures RecentErrors(v, provider)
    ensures Previous(a, f) == Some(provider)
            && HasName(baseline, provider) && HasName(Healthy(v, baseline), provider) ==>
              Affine(baseline, v, a, f) == (baseline, FallbackPolicy)
  {
    var attempts := OneFailure(provider, category, k);
    AfterCallsOk(attempts);
    assert Failed(Calls(attempts)[0], provider);
    RecentMeansEver(v, AfterCalls(attempts), Calls(attempts), [], 0, provider);
  }
}
