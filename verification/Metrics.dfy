/** In-memory metrics (`src/telemetry/metrics.rs`) against their recomputation from logged rows
    (`stats_snapshot` in `src/storage/sqlite.rs`). Costs and averages are real numbers, and counters
    are unbounded. */
module Metrics {
  import opened Base
  import opened Fallback
  import Streams

  datatype Cost = Cost(input: real, output: real, total: real)

  /** `RequestErrorCategory`: a provider's error, or a request that reached no provider. */
  datatype RequestCategory = FromProvider(category: ErrorCategory) | InvalidRequest | RejectedByAdmission
      | WithoutProvider

  /** One request as it is recorded and logged. */
  datatype Entry = Entry(
    success: bool,
    latencyMs: u64,
    category: Option<RequestCategory>,
    usage: Option<Streams.TokenUsage>,
    cost: Option<Cost>,
    attempts: seq<Attempt>)

  /** Successes come with usage and cost and without an error; failures carry no usage. */
  predicate Paired(e: Entry) {
    if e.success then e.usage.Some? && e.cost.Some? && e.category.None? else e.usage.None? && e.cost.None?
  }

  /** What a log holds: requests and the calls made for them. */
  datatype Fact = RequestFact(entry: Entry) | CallFact(attempt: Attempt)

  function Calls(attempts: seq<Attempt>): (fs: seq<Fact>)
    ensures |fs| == |attempts| && forall i :: 0 <= i < |fs| ==> fs[i] == CallFact(attempts[i])
  {
    seq(|attempts|, i requires 0 <= i < |attempts| => CallFact(attempts[i]))
  }

  function RequestFacts(entries: seq<Entry>): (fs: seq<Fact>)
    ensures |fs| == |entries| && forall i :: 0 <= i < |fs| ==> fs[i] == RequestFact(entries[i])
  {
    seq(|entries|, i requires 0 <= i < |entries| => RequestFact(entries[i]))
  }

  function FactsOf(e: Entry): seq<Fact> {
    [RequestFact(e)] + Calls(e.attempts)
  }

  function Facts(entries: seq<Entry>): seq<Fact> {
    if entries == [] then [] else Facts(entries[..|entries| - 1]) + FactsOf(Last(entries))
  }

  // ---------------------------------------------------------------- counting

  datatype Metric =
    | TotalRequests | SuccessfulRequests | FailedRequests
    | PromptTokens | CompletionTokens | TotalTokens | TotalLatency | RequestErrors
    | ProviderAttempts | FallbackAttempts
    | Requests | Successes | Errors | Fallbacks | ProviderLatency | ProviderErrors

  datatype Label =
    | All
    | Kind(kind: RequestCategory)
    | Named(provider: string)
    | NamedKind(provider: string, category: ErrorCategory)

  /** What one fact adds to a metric, and under which label. */
  function Weigh(m: Metric, f: Fact): Option<(Label, nat)> {
    match f
    case RequestFact(e) =>
      (match m
       case TotalRequests => Some((All, 1))
       case SuccessfulRequests => if e.success then Some((All, 1)) else None
       case FailedRequests => if e.success then None else Some((All, 1))
       case PromptTokens => if e.usage.Some? then Some((All, e.usage.value.promptTokens)) else None
       case CompletionTokens => if e.usage.Some? then Some((All, e.usage.value.completionTokens)) else None
       case TotalTokens => if e.usage.Some? then Some((All, e.usage.value.totalTokens)) else None
       case TotalLatency => Some((All, e.latencyMs))
       case RequestErrors => if e.category.Some? then Some((Kind(e.category.value), 1)) else None
       case _ => None)
    case CallFact(a) =>
      match m
      case ProviderAttempts => Some((All, 1))
      case FallbackAttempts => if a.isFallback then Some((All, 1)) else None
      case Requests => Some((Named(a.provider), 1))
      case Successes => if a.success then Some((Named(a.provider), 1)) else None
      case Errors => if a.success then None else Some((Named(a.provider), 1))
      case Fallbacks => if a.isFallback then Some((Named(a.provider), 1)) else None
      case ProviderLatency => Some((Named(a.provider), a.latencyMs))
      case ProviderErrors =>
        if !a.success && a.category.Some? then Some((NamedKind(a.provider, a.category.value), 1)) else None
      case _ => None
  }

  predicate Counts(m: Metric, f: Fact, l: Label) {
    Weigh(m, f).Some? && Weigh(m, f).value.0 == l
  }

  function Weight(m: Metric, f: Fact, l: Label): nat {
    if Counts(m, f, l) then Weigh(m, f).value.1 else 0
  }

  /** The sum under one label over a whole log. */
  function Sum(m: Metric, fs: seq<Fact>, l: Label): nat {
    if fs == [] then 0 else Sum(m, fs[..|fs| - 1], l) + Weight(m, Last(fs), l)
  }

  /** Does any fact count under the label? */
  ghost predicate Occurs(m: Metric, fs: seq<Fact>, l: Label) {
    exists f :: f in fs && Counts(m, f, l)
  }

  lemma {:induction false} SumConcat(m: Metric, fs: seq<Fact>, gs: seq<Fact>, l: Label)
    ensures Sum(m, fs + gs, l) == Sum(m, fs, l) + Sum(m, gs, l)
    decreases gs
  {
    if gs == [] {
      assert fs + gs == fs;
    } else {
      assert (fs + gs)[..|fs + gs| - 1] == fs + gs[..|gs| - 1];
      SumConcat(m, fs, gs[..|gs| - 1], l);
    }
  }

  function Removed(fs: seq<Fact>, i: nat): seq<Fact>
    requires i < |fs|
  {
    fs[..i] + fs[i + 1..]
  }

  lemma SumRemove(m: Metric, fs: seq<Fact>, i: nat, l: Label)
    requires i < |fs|
    ensures Sum(m, fs, l) == Sum(m, Removed(fs, i), l) + Weight(m, fs[i], l)
  {
    assert fs == (fs[..i] + [fs[i]]) + fs[i + 1..];
    SumConcat(m, fs[..i] + [fs[i]], fs[i + 1..], l);
    SumConcat(m, fs[..i], [fs[i]], l);
    SumConcat(m, fs[..i], fs[i + 1..], l);
    assert [fs[i]][..0] == [];
  }

  lemma RemovedMultiset(fs: seq<Fact>, i: nat)
    requires i < |fs|
    ensures multiset(Removed(fs, i)) == multiset(fs) - multiset{fs[i]} && |Removed(fs, i)| == |fs| - 1
  {
    assert fs == fs[..i] + [fs[i]] + fs[i + 1..];
  }

  /** Where the first of these facts is found among those. */
  lemma Match(fs: seq<Fact>, gs: seq<Fact>) returns (i: nat)
    requires multiset(fs) == multiset(gs)
    ensures |fs| == |gs|
    ensures fs != [] ==> i < |gs| && gs[i] == fs[0] && multiset(Removed(fs, 0)) == multiset(Removed(gs, i))
  {
    assert |fs| == |multiset(fs)| && |gs| == |multiset(gs)|;
    i := 0;
    if fs != [] {
      assert fs[0] in multiset(gs);
      i :| 0 <= i < |gs| && gs[i] == fs[0];
      RemovedMultiset(fs, 0);
      RemovedMultiset(gs, i);
    }
  }

  /** Sums do not depend on the order of the rows. */
  lemma {:induction false} SumOrderFree(m: Metric, fs: seq<Fact>, gs: seq<Fact>, l: Label)
    requires multiset(fs) == multiset(gs)
    ensures Sum(m, fs, l) == Sum(m, gs, l)
    decreases |fs|
  {
    var i := Match(fs, gs);
    if fs != [] {
      SumRemove(m, fs, 0, l);
      SumRemove(m, gs, i, l);
      SumOrderFree(m, Removed(fs, 0), Removed(gs, i), l);
    }
  }

  // ---------------------------------------------------------------- counters

  function Bump(t: map<Label, nat>, l: Label, w: nat): map<Label, nat> {
    t[l := (if l in t then t[l] else 0) + w]
  }

  /** The fields of the registry, and of a snapshot, that are counted. */
  datatype Counters = Counters(
    totalRequests: nat,
    successfulRequests: nat,
    failedRequests: nat,
    promptTokens: nat,
    completionTokens: nat,
    totalTokens: nat,
    totalLatencyMs: nat,
    requestErrors: map<Label, nat>,
    totalAttempts: nat,
    fallbackAttempts: nat,
    requests: map<Label, nat>,
    successes: map<Label, nat>,
    errors: map<Label, nat>,
    fallbacks: map<Label, nat>,
    latency: map<Label, nat>,
    providerErrors: map<Label, nat>)

  const ZERO := Counters(0, 0, 0, 0, 0, 0, 0, map[], 0, 0, map[], map[], map[], map[], map[], map[])

  function Read(t: map<Label, nat>, l: Label): nat {
    if l in t then t[l] else 0
  }

  /** The table that keeps a metric, or none if a single number does. */
  function Table(c: Counters, m: Metric): Option<map<Label, nat>> {
    match m
    case RequestErrors => Some(c.requestErrors)
    case Requests => Some(c.requests)
    case Successes => Some(c.successes)
    case Errors => Some(c.errors)
    case Fallbacks => Some(c.fallbacks)
    case ProviderLatency => Some(c.latency)
    case ProviderErrors => Some(c.providerErrors)
    case _ => None
  }

  function Number(c: Counters, m: Metric): nat {
    match m
    case TotalRequests => c.totalRequests
    case SuccessfulRequests => c.successfulRequests
    case FailedRequests => c.failedRequests
    case PromptTokens => c.promptTokens
    case CompletionTokens => c.completionTokens
    case TotalTokens => c.totalTokens
    case TotalLatency => c.totalLatencyMs
    case ProviderAttempts => c.totalAttempts
    case FallbackAttempts => c.fallbackAttempts
    case _ => 0
  }

  /** One counter against the log: it holds the sum, and a table has an entry exactly where
      something was counted. */
  ghost predicate AgreesAt(c: Counters, fs: seq<Fact>, m: Metric, l: Label) {
    match Table(c, m)
    case None => Number(c, m) == Sum(m, fs, All)
    case Some(t) => Read(t, l) == Sum(m, fs, l) && (l in t <==> Occurs(m, fs, l))
  }

  ghost predicate Agrees(c: Counters, fs: seq<Fact>) {
    forall m, l :: AgreesAt(c, fs, m, l)
  }

  /** How one counter must change when a fact is added. */
  ghost predicate StepAt(c: Counters, d: Counters, f: Fact, m: Metric, l: Label) {
    match Table(c, m)
    case None => Table(d, m).None? && Number(d, m) == Number(c, m) + Weight(m, f, All)
    case Some(t) =>
      && Table(d, m).Some?
      && Read(Table(d, m).value, l) == Read(t, l) + Weight(m, f, l)
      && (l in Table(d, m).value <==> l in t || Counts(m, f, l))
  }

  lemma SumSnoc(m: Metric, fs: seq<Fact>, f: Fact, l: Label)
    ensures Sum(m, fs + [f], l) == Sum(m, fs, l) + Weight(m, f, l)
  {
    assert (fs + [f])[..|fs|] == fs;
  }

  lemma OccursSnoc(m: Metric, fs: seq<Fact>, f: Fact, l: Label)
    ensures Occurs(m, fs + [f], l) <==> Occurs(m, fs, l) || Counts(m, f, l)
  {
    if Counts(m, f, l) {
      assert f in fs + [f];
    } else if Occurs(m, fs, l) {
      var g :| g in fs && Counts(m, g, l);
      assert g in fs + [f];
    }
  }

  lemma StepAgrees(c: Counters, d: Counters, fs: seq<Fact>, f: Fact, m: Metric, l: Label)
    requires AgreesAt(c, fs, m, l) && StepAt(c, d, f, m, l)
    ensures AgreesAt(d, fs + [f], m, l)
  {
    SumSnoc(m, fs, f, l);
    SumSnoc(m, fs, f, All);
    OccursSnoc(m, fs, f, l);
  }

  /** `record_chat_success` and `record_chat_failure_with_category`, up to the attempts. */
  function RecordRequest(c: Counters, e: Entry): Counters
    requires Paired(e)
  {
    if e.success then
      c.(totalRequests := c.totalRequests + 1, successfulRequests := c.successfulRequests + 1,
         promptTokens := c.promptTokens + e.usage.value.promptTokens,
         completionTokens := c.completionTokens + e.usage.value.completionTokens,
         totalTokens := c.totalTokens + e.usage.value.totalTokens,
         totalLatencyMs := c.totalLatencyMs + e.latencyMs)
    else
      c.(totalRequests := c.totalRequests + 1, failedRequests := c.failedRequests + 1,
         requestErrors := if e.category.Some? then Bump(c.requestErrors, Kind(e.category.value), 1)
             else c.requestErrors,
         totalLatencyMs := c.totalLatencyMs + e.latencyMs)
  }

  /** A request row of `stats_snapshot`: missing numbers are zero, and an error category counts
      whatever the status. */
  function FoldRequest(c: Counters, e: Entry): Counters {
    var usage := e.usage.UnwrapOr(Streams.TokenUsage(0, 0, 0));
    c.(totalRequests := c.totalRequests + 1,
       successfulRequests := c.successfulRequests + (if e.success then 1 else 0),
       failedRequests := c.failedRequests + (if e.success then 0 else 1),
       requestErrors := if e.category.Some? then Bump(c.requestErrors, Kind(e.category.value), 1) else c.requestErrors,
       totalLatencyMs := c.totalLatencyMs + e.latencyMs,
       promptTokens := c.promptTokens + usage.promptTokens,
       completionTokens := c.completionTokens + usage.completionTokens,
       totalTokens := c.totalTokens + usage.totalTokens)
  }

  /** One attempt, in `record_provider_attempts` as in the attempt rows of `stats_snapshot`. */
  function RecordCall(c: Counters, a: Attempt): Counters {
    var who := Named(a.provider);
    c.(totalAttempts := c.totalAttempts + 1,
       requests := Bump(c.requests, who, 1),
       latency := Bump(c.latency, who, a.latencyMs),
       successes := if a.success then Bump(c.successes, who, 1) else c.successes,
       errors := if a.success then c.errors else Bump(c.errors, who, 1),
       providerErrors := if !a.success && a.category.Some?
           then Bump(c.providerErrors, NamedKind(a.provider, a.category.value), 1)
                         else c.providerErrors,
       fallbackAttempts := c.fallbackAttempts + (if a.isFallback then 1 else 0),
       fallbacks := if a.isFallback then Bump(c.fallbacks, who, 1) else c.fallbacks)
  }

  function AddTo(t: map<Label, nat>, w: Option<(Label, nat)>): map<Label, nat> {
    if w.None? then t else Bump(t, w.value.0, w.value.1)
  }

  lemma AddToReads(t: map<Label, nat>, w: Option<(Label, nat)>, l: Label)
    ensures Read(AddTo(t, w), l) == Read(t, l) + (if w.Some? && w.value.0 == l then w.value.1 else 0)
    ensures l in AddTo(t, w) <==> l in t || (w.Some? && w.value.0 == l)
  {
  }

  lemma FoldRequestTable(c: Counters, e: Entry, m: Metric)
    requires Table(c, m).Some?
    ensures Table(FoldRequest(c, e), m) == Some(AddTo(Table(c, m).value, Weigh(m, RequestFact(e))))
  {
  }

  lemma RecordCallTable(c: Counters, a: Attempt, m: Metric)
    requires Table(c, m).Some?
    ensures Table(RecordCall(c, a), m) == Some(AddTo(Table(c, m).value, Weigh(m, CallFact(a))))
  {
  }

  lemma FoldRequestNumber(c: Counters, e: Entry, m: Metric)
    requires Table(c, m).None?
    ensures Table(FoldRequest(c, e), m).None?
    ensures Number(FoldRequest(c, e), m) == Number(c, m) + Weight(m, RequestFact(e), All)
  {
  }

  lemma RecordCallNumber(c: Counters, a: Attempt, m: Metric)
    requires Table(c, m).None?
    ensures Table(RecordCall(c, a), m).None?
    ensures Number(RecordCall(c, a), m) == Number(c, m) + Weight(m, CallFact(a), All)
  {
  }

  lemma FoldRequestStep(c: Counters, e: Entry, m: Metric, l: Label)
    ensures StepAt(c, FoldRequest(c, e), RequestFact(e), m, l)
  {
    if Table(c, m).Some? {
      FoldRequestTable(c, e, m);
      AddToReads(Table(c, m).value, Weigh(m, RequestFact(e)), l);
    } else {
      FoldRequestNumber(c, e, m);
    }
  }

  lemma RecordCallStep(c: Counters, a: Attempt, m: Metric, l: Label)
    ensures StepAt(c, RecordCall(c, a), CallFact(a), m, l)
  {
    if Table(c, m).Some? {
      RecordCallTable(c, a, m);
      AddToReads(Table(c, m).value, Weigh(m, CallFact(a)), l);
    } else {
      RecordCallNumber(c, a, m);
    }
  }

  lemma FoldRequestAgrees(c: Counters, fs: seq<Fact>, e: Entry)
    requires Agrees(c, fs)
    ensures Agrees(FoldRequest(c, e), fs + [RequestFact(e)])
  {
    var d, f := FoldRequest(c, e), RequestFact(e);
    forall m, l ensures AgreesAt(d, fs + [f], m, l) {
      assert AgreesAt(c, fs, m, l);
      FoldRequestStep(c, e, m, l);
      StepAgrees(c, d, fs, f, m, l);
    }
  }

  lemma RecordCallAgrees(c: Counters, fs: seq<Fact>, a: Attempt)
    requires Agrees(c, fs)
    ensures Agrees(RecordCall(c, a), fs + [CallFact(a)])
  {
    var d, f := RecordCall(c, a), CallFact(a);
    forall m, l ensures AgreesAt(d, fs + [f], m, l) {
      assert AgreesAt(c, fs, m, l);
      RecordCallStep(c, a, m, l);
      StepAgrees(c, d, fs, f, m, l);
    }
  }

  /** For paired recordings the two ways of counting a request are the same. */
  lemma RecordIsFold(c: Counters, e: Entry)
    requires Paired(e)
    ensures RecordRequest(c, e) == FoldRequest(c, e)
  {
  }

  lemma OccursOrderFree(m: Metric, fs: seq<Fact>, gs: seq<Fact>, l: Label)
    requires multiset(fs) == multiset(gs)
    ensures Occurs(m, fs, l) <==> Occurs(m, gs, l)
  {
    assert forall f :: f in fs <==> f in multiset(fs);
    assert forall f :: f in gs <==> f in multiset(gs);
  }

  lemma NumbersEqual(c: Counters, d: Counters, fs: seq<Fact>, gs: seq<Fact>, m: Metric)
    requires Agrees(c, fs) && Agrees(d, gs) && multiset(fs) == multiset(gs)
    ensures Number(c, m) == Number(d, m)
  {
    assert AgreesAt(c, fs, m, All) && AgreesAt(d, gs, m, All);
    SumOrderFree(m, fs, gs, All);
  }

  lemma TablesEqual(c: Counters, d: Counters, fs: seq<Fact>, gs: seq<Fact>, m: Metric)
    requires Agrees(c, fs) && Agrees(d, gs) && multiset(fs) == multiset(gs)
    ensures Table(c, m) == Table(d, m)
  {
    if Table(c, m).Some? {
      var t, u := Table(c, m).value, Table(d, m).value;
      forall l ensures l in t <==> l in u ensures Read(t, l) == Read(u, l) {
        assert AgreesAt(c, fs, m, l) && AgreesAt(d, gs, m, l);
        OccursOrderFree(m, fs, gs, l);
        SumOrderFree(m, fs, gs, l);
      }
      assert t == u;
    }
  }

  /** Counters that agree with the same facts, in whatever order, are the same counters. */
  lemma CountersDetermined(c: Counters, d: Counters, fs: seq<Fact>, gs: seq<Fact>)
    requires Agrees(c, fs) && Agrees(d, gs) && multiset(fs) == multiset(gs)
    ensures c == d
  {
    forall m ensures Number(c, m) == Number(d, m) && Table(c, m) == Table(d, m) {
      NumbersEqual(c, d, fs, gs, m);
      TablesEqual(c, d, fs, gs, m);
    }
    assert Number(c, TotalRequests) == Number(d, TotalRequests);
    assert Number(c, SuccessfulRequests) == Number(d, SuccessfulRequests);
    assert Number(c, FailedRequests) == Number(d, FailedRequests);
    assert Number(c, PromptTokens) == Number(d, PromptTokens);
    assert Number(c, CompletionTokens) == Number(d, CompletionTokens);
    assert Number(c, TotalTokens) == Number(d, TotalTokens);
    assert Number(c, TotalLatency) == Number(d, TotalLatency);
    assert Number(c, ProviderAttempts) == Number(d, ProviderAttempts);
    assert Number(c, FallbackAttempts) == Number(d, FallbackAttempts);
    assert Table(c, RequestErrors) == Table(d, RequestErrors);
    assert Table(c, Requests) == Table(d, Requests);
    assert Table(c, Successes) == Table(d, Successes);
    assert Table(c, Errors) == Table(d, Errors);
    assert Table(c, Fallbacks) == Table(d, Fallbacks);
    assert Table(c, ProviderLatency) == Table(d, ProviderLatency);
    assert Table(c, ProviderErrors) == Table(d, ProviderErrors);
  }

  /** Every provider's calls are its successes plus its errors; requests likewise. */
  lemma {:induction false} CallsSplit(fs: seq<Fact>, provider: string)
    ensures Sum(Requests, fs, Named(provider)) == Sum(Successes, fs, Named(provider)) + Sum(Errors, fs, Named(provider))
    ensures Sum(TotalRequests, fs, All) == Sum(SuccessfulRequests, fs, All) + Sum(FailedRequests, fs, All)
  {
    if fs != [] { CallsSplit(fs[..|fs| - 1], provider); }
  }

  // ---------------------------------------------------------------- costs

  const FREE := Cost(0.0, 0.0, 0.0)

  datatype CostPart = Input | Output | Total

  function PartOf(c: Cost, part: CostPart): real {
    match part
    case Input => c.input
    case Output => c.output
    case Total => c.total
  }

  function CostOf(f: Fact, part: CostPart): real {
    if f.RequestFact? then PartOf(f.entry.cost.UnwrapOr(FREE), part) else 0.0
  }

  function CostSum(fs: seq<Fact>, part: CostPart): real {
    if fs == [] then 0.0 else CostSum(fs[..|fs| - 1], part) + CostOf(Last(fs), part)
  }

  lemma {:induction false} CostConcat(fs: seq<Fact>, gs: seq<Fact>, part: CostPart)
    ensures CostSum(fs + gs, part) == CostSum(fs, part) + CostSum(gs, part)
    decreases gs
  {
    if gs == [] {
      assert fs + gs == fs;
    } else {
      assert (fs + gs)[..|fs + gs| - 1] == fs + gs[..|gs| - 1];
      CostConcat(fs, gs[..|gs| - 1], part);
    }
  }

  lemma CostRemove(fs: seq<Fact>, i: nat, part: CostPart)
    requires i < |fs|
    ensures CostSum(fs, part) == CostSum(Removed(fs, i), part) + CostOf(fs[i], part)
  {
    assert fs == (fs[..i] + [fs[i]]) + fs[i + 1..];
    CostConcat(fs[..i] + [fs[i]], fs[i + 1..], part);
    CostConcat(fs[..i], [fs[i]], part);
    CostConcat(fs[..i], fs[i + 1..], part);
    assert [fs[i]][..0] == [];
  }

  lemma {:induction false} CostOrderFree(fs: seq<Fact>, gs: seq<Fact>, part: CostPart)
    requires multiset(fs) == multiset(gs)
    ensures CostSum(fs, part) == CostSum(gs, part)
    decreases |fs|
  {
    var i := Match(fs, gs);
    if fs != [] {
      CostRemove(fs, 0, part);
      CostRemove(gs, i, part);
      CostOrderFree(Removed(fs, 0), Removed(gs, i), part);
    }
  }

  ghost predicate CostAgrees(c: Cost, fs: seq<Fact>) {
    forall part :: PartOf(c, part) == CostSum(fs, part)
  }

  function AddCost(c: Cost, d: Cost): Cost {
    Cost(c.input + d.input, c.output + d.output, c.total + d.total)
  }

  lemma CostStep(c: Cost, fs: seq<Fact>, f: Fact)
    requires CostAgrees(c, fs)
    ensures f.RequestFact? ==> CostAgrees(AddCost(c, f.entry.cost.UnwrapOr(FREE)), fs + [f])
    ensures f.CallFact? ==> CostAgrees(c, fs + [f])
  {
    assert (fs + [f])[..|fs|] == fs;
  }

  // ---------------------------------------------------------------- what the counters mean

  /** What a request adds: one to the totals, its latency, its usage and its error category. */
  lemma RequestWeights(e: Entry, kind: RequestCategory)
    ensures var f := RequestFact(e);
            && Weight(TotalRequests, f, All) == 1 && Weight(TotalLatency, f, All) == e.latencyMs
            && Weight(SuccessfulRequests, f, All) == (if e.success then 1 else 0)
            && Weight(FailedRequests, f, All) == (if e.success then 0 else 1)
            && Weight(PromptTokens, f, All) == (if e.usage.Some? then e.usage.value.promptTokens else 0)
            && Weight(CompletionTokens, f, All) == (if e.usage.Some? then e.usage.value.completionTokens else 0)
            && Weight(TotalTokens, f, All) == (if e.usage.Some? then e.usage.value.totalTokens else 0)
            && Weight(RequestErrors, f, Kind(kind)) == (if e.category == Some(kind) then 1 else 0)
  {
  }

  /** What a call adds: one to the attempts, and to its own provider's numbers. */
  lemma CallWeights(a: Attempt, provider: string, category: ErrorCategory)
    ensures var f, here := CallFact(a), a.provider == provider;
            && Weight(ProviderAttempts, f, All) == 1
            && Weight(FallbackAttempts, f, All) == (if a.isFallback then 1 else 0)
            && Weight(Requests, f, Named(provider)) == (if here then 1 else 0)
            && Weight(Successes, f, Named(provider)) == (if here && a.success then 1 else 0)
            && Weight(Errors, f, Named(provider)) == (if here && !a.success then 1 else 0)
            && Weight(Fallbacks, f, Named(provider)) == (if here && a.isFallback then 1 else 0)
            && Weight(ProviderLatency, f, Named(provider)) == (if here then a.latencyMs else 0)
            && Weight(ProviderErrors, f, NamedKind(provider, category)) ==
               (if here && !a.success && a.category == Some(category) then 1 else 0)
  {
  }

  /** Requests say nothing about providers, nor calls about requests. */
  predicate OfRequests(m: Metric) {
    m in {TotalRequests, SuccessfulRequests, FailedRequests, PromptTokens, CompletionTokens, TotalTokens, TotalLatency,
          RequestErrors}
  }

  lemma OtherWeights(m: Metric, f: Fact, l: Label)
    ensures f.RequestFact? && !OfRequests(m) ==> Weight(m, f, l) == 0
    ensures f.CallFact? && OfRequests(m) ==> Weight(m, f, l) == 0
  {
  }

  /** Which number holds which sum. */
  lemma NumbersMean(c: Counters, fs: seq<Fact>)
    requires forall m :: AgreesAt(c, fs, m, All)
    ensures c.totalRequests == Sum(TotalRequests, fs, All) && c.totalLatencyMs == Sum(TotalLatency, fs, All)
    ensures c.successfulRequests == Sum(SuccessfulRequests, fs, All)
    ensures c.failedRequests == Sum(FailedRequests, fs, All)
    ensures c.promptTokens == Sum(PromptTokens, fs, All) && c.completionTokens == Sum(CompletionTokens, fs, All)
    ensures c.totalTokens == Sum(TotalTokens, fs, All)
    ensures c.totalAttempts == Sum(ProviderAttempts, fs, All)
    ensures c.fallbackAttempts == Sum(FallbackAttempts, fs, All)
  {
    assert AgreesAt(c, fs, TotalRequests, All) && AgreesAt(c, fs, TotalLatency, All);
    assert AgreesAt(c, fs, SuccessfulRequests, All) && AgreesAt(c, fs, FailedRequests, All);
    assert AgreesAt(c, fs, PromptTokens, All) && AgreesAt(c, fs, CompletionTokens, All);
    assert AgreesAt(c, fs, TotalTokens, All);
    assert AgreesAt(c, fs, ProviderAttempts, All) && AgreesAt(c, fs, FallbackAttempts, All);
  }

  /** Which table holds which sums, with an entry where something was counted. */
  lemma TablesMean(c: Counters, fs: seq<Fact>, l: Label)
    requires forall m :: AgreesAt(c, fs, m, l)
    ensures Read(c.requests, l) == Sum(Requests, fs, l) && Read(c.latency, l) == Sum(ProviderLatency, fs, l)
    ensures Read(c.successes, l) == Sum(Successes, fs, l)
    ensures l in c.requests <==> Occurs(Requests, fs, l)
  {
    assert AgreesAt(c, fs, Requests, l) && AgreesAt(c, fs, ProviderLatency, l) && AgreesAt(c, fs, Successes, l);
  }

  lemma ErrorTablesMean(c: Counters, fs: seq<Fact>, l: Label)
    requires forall m :: AgreesAt(c, fs, m, l)
    ensures Read(c.requestErrors, l) == Sum(RequestErrors, fs, l) && Read(c.errors, l) == Sum(Errors, fs, l)
    ensures Read(c.fallbacks, l) == Sum(Fallbacks, fs, l)
    ensures Read(c.providerErrors, l) == Sum(ProviderErrors, fs, l)
  {
    assert AgreesAt(c, fs, RequestErrors, l) && AgreesAt(c, fs, Errors, l);
    assert AgreesAt(c, fs, Fallbacks, l) && AgreesAt(c, fs, ProviderErrors, l);
  }

  // ---------------------------------------------------------------- sample windows

  const MAX_SAMPLES: nat := 1024

  /** A full window drops its oldest sample. */
  function PushSample<T>(samples: seq<T>, x: T): seq<T> {
    (if |samples| == MAX_SAMPLES then samples[1..] else samples) + [x]
  }

  function Window<T>(xs: seq<T>): seq<T> {
    if |xs| <= MAX_SAMPLES then xs else xs[|xs| - MAX_SAMPLES..]
  }

  /** Pushing keeps exactly the most recent samples. */
  lemma WindowSnoc<T>(xs: seq<T>, x: T)
    ensures PushSample(Window(xs), x) == Window(xs + [x])
  {
  }

  function RequestLatencies(fs: seq<Fact>): seq<u64> {
    if fs == [] then []
    else
      var before := RequestLatencies(fs[..|fs| - 1]);
      if Last(fs).RequestFact? then before + [Last(fs).entry.latencyMs] else before
  }

  function CallLatencies(fs: seq<Fact>, provider: string): seq<u64> {
    if fs == [] then []
    else
      var before := CallLatencies(fs[..|fs| - 1], provider);
      if Last(fs).CallFact? && Last(fs).attempt.provider == provider then before + [Last(fs).attempt.latencyMs]
          else before
  }

  predicate Failed(f: Fact, provider: string) {
    f.CallFact? && f.attempt.provider == provider && !f.attempt.success && f.attempt.category.Some?
  }

  /** The categories of a provider's failed calls. */
  function CallErrors(fs: seq<Fact>, provider: string): seq<ErrorCategory> {
    if fs == [] then []
    else
      var before := CallErrors(fs[..|fs| - 1], provider);
      if Failed(Last(fs), provider) then before + [Last(fs).attempt.category.value] else before
  }

  function Samples<T>(m: map<string, seq<T>>, provider: string): seq<T> {
    if provider in m then m[provider] else []
  }

  datatype Windows = Windows(requests: seq<u64>, calls: map<string, seq<u64>>, errors: map<string, seq<ErrorCategory>>)

  ghost predicate WindowsAgree(w: Windows, fs: seq<Fact>) {
    && w.requests == Window(RequestLatencies(fs))
    && (forall p :: Samples(w.calls, p) == Window(CallLatencies(fs, p)))
    && (forall p :: Samples(w.errors, p) == Window(CallErrors(fs, p)))
  }

  function SampleCall(w: Windows, a: Attempt): Windows {
    var sampled := w.(calls := w.calls[a.provider := PushSample(Samples(w.calls, a.provider), a.latencyMs)]);
    if !a.success && a.category.Some? then
      sampled.(errors := w.errors[a.provider := PushSample(Samples(w.errors, a.provider), a.category.value)])
    else sampled
  }

  lemma SamplesSnoc(fs: seq<Fact>, f: Fact, p: string)
    ensures RequestLatencies(fs + [f]) == if f.RequestFact? then RequestLatencies(fs) + [f.entry.latencyMs]
        else RequestLatencies(fs)
    ensures CallLatencies(fs + [f], p) ==
            if f.CallFact? && f.attempt.provider == p then CallLatencies(fs, p) + [f.attempt.latencyMs]
                else CallLatencies(fs, p)
    ensures CallErrors(fs + [f], p) == if Failed(f, p) then CallErrors(fs, p) + [f.attempt.category.value]
        else CallErrors(fs, p)
  {
    assert (fs + [f])[..|fs|] == fs;
  }

  lemma SampleCallAgrees(w: Windows, fs: seq<Fact>, a: Attempt)
    requires WindowsAgree(w, fs)
    ensures WindowsAgree(SampleCall(w, a), fs + [CallFact(a)])
  {
    var v := SampleCall(w, a);
    forall p
      ensures Samples(v.calls, p) == Window(CallLatencies(fs + [CallFact(a)], p))
      ensures Samples(v.errors, p) == Window(CallErrors(fs + [CallFact(a)], p))
    {
      SamplesSnoc(fs, CallFact(a), p);
      WindowSnoc(CallLatencies(fs, p), a.latencyMs);
      if a.category.Some? { WindowSnoc(CallErrors(fs, p), a.category.value); }
    }
    SamplesSnoc(fs, CallFact(a), "");
  }

  lemma SampleRequestAgrees(w: Windows, fs: seq<Fact>, e: Entry)
    requires WindowsAgree(w, fs)
    ensures WindowsAgree(w.(requests := PushSample(w.requests, e.latencyMs)), fs + [RequestFact(e)])
  {
    forall p
      ensures CallLatencies(fs + [RequestFact(e)], p) == CallLatencies(fs, p)
      ensures CallErrors(fs + [RequestFact(e)], p) == CallErrors(fs, p)
    {
      SamplesSnoc(fs, RequestFact(e), p);
    }
    SamplesSnoc(fs, RequestFact(e), "");
    WindowSnoc(RequestLatencies(fs), e.latencyMs);
  }

  // ---------------------------------------------------------------- calls in flight

  const TOKENS_PER_UNIT: nat := 1024

  /** One unit per call and one per started thousand of its estimated tokens. */
  function QueueUnits(promptTokens: u32, maxCompletionTokens: Option<u32>): (units: nat)
    ensures units >= 1
  {
    var tokens := SatAdd32(promptTokens, maxCompletionTokens.UnwrapOr(0));
    1 + (tokens + TOKENS_PER_UNIT - 1) / TOKENS_PER_UNIT
  }

  /** One unit for the call and one for each started 1024 tokens that it may use. */
  lemma QueueUnitsExact(promptTokens: u32, maxCompletionTokens: Option<u32>)
    ensures var tokens := Min(promptTokens + maxCompletionTokens.UnwrapOr(0), 4_294_967_295);
            var units := QueueUnits(promptTokens, maxCompletionTokens) - 1;
            1024 * units >= tokens && (units > 0 ==> 1024 * (units - 1) < tokens)
  {
  }

  datatype Load = Load(provider: string, units: nat)

  function UnitsOf(live: seq<Load>, provider: string): nat {
    if live == [] then 0
    else UnitsOf(live[..|live| - 1], provider) + (if Last(live).provider == provider then Last(live).units else 0)
  }

  function CallsOf(live: seq<Load>, provider: string): nat {
    if live == [] then 0
    else CallsOf(live[..|live| - 1], provider) + (if Last(live).provider == provider then 1 else 0)
  }

  function Gauge(m: map<string, nat>, provider: string): nat {
    if provider in m then m[provider] else 0
  }

  function DecrementOrRemove(m: map<string, nat>, provider: string, amount: nat): map<string, nat> {
    if provider !in m then m
    else if m[provider] <= amount then m - {provider}
    else m[provider := m[provider] - amount]
  }

  /** The gauges against the calls in flight: nothing is listed that is zero. */
  ghost predicate Gauges(inFlight: map<string, nat>, pressure: map<string, nat>, live: seq<Load>) {
    && (forall l :: l in live ==> l.units >= 1)
    && (forall p :: Gauge(inFlight, p) == CallsOf(live, p) && (p in inFlight <==> CallsOf(live, p) > 0))
    && (forall p :: Gauge(pressure, p) == UnitsOf(live, p) && (p in pressure <==> UnitsOf(live, p) > 0))
  }

  lemma {:induction false} LiveConcat(a: seq<Load>, b: seq<Load>, p: string)
    ensures UnitsOf(a + b, p) == UnitsOf(a, p) + UnitsOf(b, p)
    ensures CallsOf(a + b, p) == CallsOf(a, p) + CallsOf(b, p)
    decreases b
  {
    if b == [] {
      assert a + b == a;
    } else {
      assert (a + b)[..|a + b| - 1] == a + b[..|b| - 1];
      LiveConcat(a, b[..|b| - 1], p);
    }
  }

  lemma LiveRemove(live: seq<Load>, i: nat, p: string)
    requires i < |live|
    ensures var rest := live[..i] + live[i + 1..];
            && UnitsOf(live, p) == UnitsOf(rest, p) + (if live[i].provider == p then live[i].units else 0)
            && CallsOf(live, p) == CallsOf(rest, p) + (if live[i].provider == p then 1 else 0)
  {
    assert live == (live[..i] + [live[i]]) + live[i + 1..];
    LiveConcat(live[..i] + [live[i]], live[i + 1..], p);
    LiveConcat(live[..i], [live[i]], p);
    LiveConcat(live[..i], live[i + 1..], p);
    assert [live[i]][..0] == [];
  }

  lemma BeginKeepsGauges(inFlight: map<string, nat>, pressure: map<string, nat>, live: seq<Load>, l: Load)
    requires Gauges(inFlight, pressure, live) && l.units >= 1
    ensures Gauges(inFlight[l.provider := Gauge(inFlight, l.provider) + 1],
                   pressure[l.provider := Gauge(pressure, l.provider) + l.units], live + [l])
  {
    forall p
      ensures CallsOf(live + [l], p) == CallsOf(live, p) + (if l.provider == p then 1 else 0)
      ensures UnitsOf(live + [l], p) == UnitsOf(live, p) + (if l.provider == p then l.units else 0)
    {
      assert (live + [l])[..|live|] == live;
    }
  }

  /** Giving back never cuts off at zero. */
  lemma EndKeepsGauges(inFlight: map<string, nat>, pressure: map<string, nat>, live: seq<Load>, i: nat)
    requires Gauges(inFlight, pressure, live) && i < |live|
    ensures Gauge(inFlight, live[i].provider) >= 1 && Gauge(pressure, live[i].provider) >= live[i].units
    ensures Gauges(DecrementOrRemove(inFlight, live[i].provider, 1),
                   DecrementOrRemove(pressure, live[i].provider, live[i].units), live[..i] + live[i + 1..])
  {
    var rest := live[..i] + live[i + 1..];
    forall p
      ensures UnitsOf(live, p) == UnitsOf(rest, p) + (if live[i].provider == p then live[i].units else 0)
      ensures CallsOf(live, p) == CallsOf(rest, p) + (if live[i].provider == p then 1 else 0)
    {
      LiveRemove(live, i, p);
    }
  }
}
