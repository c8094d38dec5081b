/** A stream in the web server's hands: the generator runs, and its guards go when it goes. */
module Serving {
  import opened Base
  import opened Admission
  import opened Fallback
  import opened FallbackLoops
  import opened Metrics
  import opened Opening
  import opened Streams
  import opened Telemetry
  import PrefixAffinity

  datatype Route = ChatCompletions | Responses

  /** A stream's result as a metrics entry; failures carry neither usage nor cost. */
  function EntryOf(r: RequestResult, latencyMs: u64, price: TokenUsage -> Cost): (e: Entry)
    ensures Paired(e) && e.latencyMs == latencyMs && e.attempts == r.attempts && (e.success <==> r.Success?)
    ensures r.Success? ==> e.usage == Some(r.usage) && e.cost == Some(price(r.usage))
    ensures r.Failure? ==> e.category == Some(FromProvider(r.category))
  {
    match r
    case Success(usage, attempts) => Entry(true, latencyMs, None, Some(usage), Some(price(usage)), attempts)
    case Failure(category, attempts) => Entry(false, latencyMs, Some(FromProvider(category)), None, None, attempts)
  }

  /** What a stream adds to the metrics log. */
  function LoggedBy(t: Trace, latencyMs: u64, price: TokenUsage -> Cost): seq<Fact> {
    if |t.results| == 1 then FactsOf(EntryOf(t.results[0], latencyMs, price)) else []
  }

  /** What a stream may have done, given what came in and how long its consumer polled. */
  ghost predicate TraceOf(route: Route, feed: Feed, logged: seq<Attempt>, latencyMs: u64, polled: bool, patience: nat,
                          t: Trace)
    requires FeedOk(feed)
  {
    if !polled then t == Trace([], [], [])
    else if route.ChatCompletions? then exists n, stop :: ChatTrace(feed, logged, latencyMs, patience, n, stop, t)
    else exists n, j, stop :: ResponseTrace(feed, logged, latencyMs, patience, n, j, stop, t)
  }

  /** The generator of either route, if it is polled at all. */
  method Generate(route: Route, feed: Feed, logged: seq<Attempt>, latencyMs: u64, polled: bool, patience: nat)
    returns (t: Trace)
    requires FeedOk(feed)
    ensures |t.outcomes| == (if polled then 1 else 0) && |t.results| <= 1
    ensures TraceOf(route, feed, logged, latencyMs, polled, patience, t)
  {
    t := Trace([], [], []);
    if polled {
      ghost var n, j, stop;
      if route.ChatCompletions? {
        t, n, stop := ChatBody(feed, logged, latencyMs, patience);
      } else {
        t, n, j, stop := ResponseBody(feed, logged, latencyMs, patience);
      }
    }
  }

  /** The guards that move into the generator, and the controller and registry behind them. */
  ghost predicate GuardsHeld(request: MetricsRequestGuard, admission: AdmissionGuard, call: ProviderInFlightGuard,
                             slot: AdmissionGuard, i: nat)
    reads request, admission, call, slot, admission.controller, admission.controller.live, request.metrics
  {
    && admission != slot && admission.controller == slot.controller && admission.controller.Valid()
    && admission in admission.controller.live && slot in admission.controller.live
    && request.metrics == call.metrics && request.metrics.Valid()
    && request.active && request.metrics.requests > 0
    && call.active && i < |call.metrics.live| && call.metrics.live[i] == Load(call.provider, call.units)
  }

  /** Both admission guards go. */
  method DropSlots(admission: AdmissionGuard, slot: AdmissionGuard)
    requires admission != slot && admission.controller == slot.controller && admission.controller.Valid()
    requires admission in admission.controller.live && slot in admission.controller.live
    modifies admission, slot, admission.controller
    ensures !admission.active && !slot.active && admission.controller.Valid()
    ensures admission.controller.live == old(admission.controller.live) - {admission, slot}
    ensures forall x :: CountOf(admission.controller.Value(), x) ==
                        old(CountOf(admission.controller.Value(), x))
                        - (if x in admission.slots then 1 else 0) - (if x in slot.slots then 1 else 0)
  {
    slot.Finish();
    admission.Finish();
  }

  /** The result is recorded and both metrics guards go. */
  method DropMetrics(t: Trace, latencyMs: u64, price: TokenUsage -> Cost, request: MetricsRequestGuard,
                     call: ProviderInFlightGuard, ghost i: nat)
    requires request.metrics == call.metrics && request.metrics.Valid() && |t.results| <= 1
    requires request.active && request.metrics.requests > 0
    requires call.active && i < |call.metrics.live| && call.metrics.live[i] == Load(call.provider, call.units)
    modifies request, call, request.metrics
    ensures !request.active && !call.active && request.metrics.Valid()
    ensures request.metrics.live == old(request.metrics.live[..i] + request.metrics.live[i + 1..])
    ensures request.metrics.requests == old(request.metrics.requests) - 1
    ensures request.metrics.log == old(request.metrics.log) + LoggedBy(t, latencyMs, price)
  {
    if |t.results| == 1 {
      request.metrics.RecordChat(EntryOf(t.results[0], latencyMs, price));
    }
    call.Finish(i);
    request.Drop();
  }

  /** The end of a stream, whether it was never polled, was left early or ran to the end: its result,
      if it has one, is recorded once, and all four guards go. Every admission slot that they held
      is given back once, the call is no longer in flight, and one request less is open. */
  method Serve(route: Route, feed: Feed, logged: seq<Attempt>, latencyMs: u64, price: TokenUsage -> Cost,
               polled: bool, patience: nat, request: MetricsRequestGuard, admission: AdmissionGuard,
               call: ProviderInFlightGuard, slot: AdmissionGuard, ghost i: nat)
    returns (t: Trace)
    requires FeedOk(feed) && GuardsHeld(request, admission, call, slot, i)
    modifies request, admission, call, slot, admission.controller, request.metrics
    ensures |t.outcomes| == (if polled then 1 else 0)
    ensures TraceOf(route, feed, logged, latencyMs, polled, patience, t)
    ensures !request.active && !admission.active && !call.active && !slot.active
    ensures admission.controller.Valid()
    ensures admission.controller.live == old(admission.controller.live) - {admission, slot}
    ensures forall x :: CountOf(admission.controller.Value(), x) ==
                        old(CountOf(admission.controller.Value(), x))
                        - (if x in admission.slots then 1 else 0) - (if x in slot.slots then 1 else 0)
    ensures request.metrics.Valid()
    ensures request.metrics.live == old(request.metrics.live[..i] + request.metrics.live[i + 1..])
    ensures request.metrics.requests == old(request.metrics.requests) - 1
    ensures request.metrics.log == old(request.metrics.log) + LoggedBy(t, latencyMs, price)
  {
    t := Generate(route, feed, logged, latencyMs, polled, patience);
    DropMetrics(t, latencyMs, price, request, call, i);
    DropSlots(admission, slot);
  }

  /** How a streamed request ends: turned away on arrival, without an open stream, or with its stream. */
  datatype Ending =
    | TurnedAway(rejection: Rejection)
    | NotOpened(result: FallbackResult)
    | Streamed(provider: string, attempts: seq<Attempt>, trace: Trace)

  /** What the driver reported. */
  function ReportIn(end: Ending): FallbackResult
    requires !end.TurnedAway?
  {
    match end
    case NotOpened(result) => result
    case Streamed(provider, attempts, _) => Succeeded(provider, attempts)
  }

  function FailureEntry(latencyMs: u64, category: Option<RequestCategory>, attempts: seq<Attempt>): (e: Entry)
    ensures Paired(e)
  {
    Entry(false, latencyMs, category, None, None, attempts)
  }

  /** A failed driver as a metrics entry: only a provider's failure comes with its calls, and has the
      last one's category. */
  function UnopenedEntry(result: FallbackResult, latencyMs: u64): (e: Entry)
    requires !result.Succeeded?
    ensures Paired(e)
  {
    match result
    case NoProviderAvailable => FailureEntry(latencyMs, Some(WithoutProvider), [])
    case AdmissionRejected(_) => FailureEntry(latencyMs, Some(RejectedByAdmission), [])
    case ProviderFailed(_, attempts) => FailureEntry(latencyMs, LastCategory(attempts), attempts)
  }

  function LastCategory(attempts: seq<Attempt>): Option<RequestCategory> {
    if attempts != [] && Last(attempts).category.Some? then Some(FromProvider(Last(attempts).category.value)) else None
  }

  /** A request that admission turns away is counted by the chat route only. */
  function TurnedAwayFacts(route: Route, latencyMs: u64): seq<Fact> {
    if route.ChatCompletions? then FactsOf(FailureEntry(latencyMs, Some(RejectedByAdmission), [])) else []
  }

  /** What the counters say of a request that was turned away: the chat route has one more request, which
      failed because admission rejected it; neither route has a call more. */
  lemma TurnedAwayCounts(route: Route, latencyMs: u64, provider: string)
    ensures var fs, n := TurnedAwayFacts(route, latencyMs), if route == ChatCompletions then 1 else 0;
            && Sum(TotalRequests, fs, All) == Sum(FailedRequests, fs, All) == n
            && Sum(RequestErrors, fs, Kind(RejectedByAdmission)) == n
            && Sum(TotalLatency, fs, All) == n * latencyMs
            && Sum(SuccessfulRequests, fs, All) == Sum(ProviderAttempts, fs, All) == 0
            && Sum(Requests, fs, Named(provider)) == 0
  {
    if route == ChatCompletions {
      var e := FailureEntry(latencyMs, Some(RejectedByAdmission), []);
      assert FactsOf(e) == [RequestFact(e)] && [RequestFact(e)][..0] == [];
    }
  }

  /** What is recorded of a walk that opened no stream: a failure whose category is that of the reported
      error, by name, with all its calls; or that no provider was available, or that admission rejected
      it, without calls even if there were some. */
  lemma UnopenedExact(cands: seq<Candidate>, env: Env, visits: seq<Visit>, result: FallbackResult,
                      records: seq<Record>, latencyMs: u64)
    requires Reports(cands, true, env, visits, result, records) && !result.Succeeded?
    ensures var e := UnopenedEntry(result, latencyMs);
            && !e.success && e.latencyMs == latencyMs && e.usage == None && e.cost == None
            && (result.NoProviderAvailable? ==> e.category == Some(WithoutProvider) && e.attempts == [])
            && (result.AdmissionRejected? ==> e.category == Some(RejectedByAdmission) && e.attempts == [])
            && (result.ProviderFailed? ==>
                  && e.attempts == AttemptsOf(cands, visits) != []
                  && e.category == Some(FromProvider(match result.error
                                                     case Timeout => TimeoutCategory
                                                     case RateLimited => RateLimitedCategory
                                                     case AuthenticationFailed => AuthenticationFailedCategory
                                                     case ProviderUnavailable => ProviderUnavailableCategory
                                                     case ProviderBadResponse => ProviderBadResponseCategory)))
  {
    if result.ProviderFailed? { ResultMatchesLog(cands, true, visits); }
  }

  /** What a streamed request adds to the metrics log. */
  function FactsIn(end: Ending, route: Route, latencyMs: u64, price: TokenUsage -> Cost): seq<Fact>
    requires end.NotOpened? ==> !end.result.Succeeded?
  {
    match end
    case TurnedAway(_) => TurnedAwayFacts(route, latencyMs)
    case NotOpened(result) => FactsOf(UnopenedEntry(result, latencyMs))
    case Streamed(_, _, trace) => LoggedBy(trace, latencyMs, price)
  }

  /** A streamed request from its arrival to its end, through admission, the driver with all retries
      and fallbacks, and the stream, with nothing else in between. Whatever is refused, fails, is
      emitted or cut short, counters, calls and open requests are back where they were; the metrics log
      grows by what the ending calls for; and the driver reports what it means to walk the candidates with
      the slots that were free on arrival. */
  method StreamRequest(controller: AdmissionController, metrics: MetricsRegistry,
                       index: PrefixAffinity.PrefixAffinityIndex, pool: Option<string>, route: Route,
                       cands: seq<Candidate>, size: Size, env: Env, key: Option<string>, now: nat, feed: Feed,
                       latencyMs: u64, price: TokenUsage -> Cost, polled: bool, patience: nat)
    returns (end: Ending, ghost visits: seq<Visit>, ghost records: seq<Record>)
    requires controller.Valid() && metrics.Valid() && index.Valid() && index.clock <= now && FeedOk(feed)
    modifies controller, metrics, index
    ensures controller.Valid() && metrics.Valid() && index.Valid()
    ensures controller.live == old(controller.live) && controller.Value() == old(controller.Value())
    ensures metrics.live == old(metrics.live) && metrics.requests == old(metrics.requests)
    ensures end.NotOpened? ==> !end.result.Succeeded?
    ensures metrics.log == old(metrics.log) + FactsIn(end, route, latencyMs, price)
    ensures end.Streamed? ==> TraceOf(route, feed, end.attempts, latencyMs, polled, patience, end.trace)
    ensures end.TurnedAway? <==>
              !RoomForRequest(controller.limits, old(controller.LiveSlots()), pool)
    ensures end.TurnedAway? ==> AcquireRequest(controller.limits, controller.Value(), pool) == Err(end.rejection)
    ensures !end.TurnedAway? ==>
              Reports(cands, true, EnvAt(env, cands, controller.limits, old(controller.providerInFlight)),
                      visits, ReportIn(end), records)
    ensures index.history == old(index.history) +
              if end.TurnedAway? then [] else Remembered(key, ReportIn(end), now)
  {
    ghost var before, guards := controller.Value(), controller.LiveSlots();
    visits, records := [], [];
    var arrived := Arrive(controller, metrics, pool, route, latencyMs);
    match arrived {
      case Err(rejection) => end := TurnedAway(rejection);
      case Ok(a) =>
        end, visits, records := StreamAdmitted(index, route, cands, size, env, key, now, feed, latencyMs, price,
                                               polled, patience, a.request, a.admission);
    }
    assert controller.live == old(controller.live);
    assert controller.LiveSlots() == guards;
    SameLive(controller, before, guards);
  }

  /** The guards of an admitted request. */
  datatype Arrived = Arrived(request: MetricsRequestGuard, admission: AdmissionGuard)

  /** The chat route counts a request before it asks admission, the responses route afterwards. */
  method Arrive(controller: AdmissionController, metrics: MetricsRegistry, pool: Option<string>, route: Route,
                latencyMs: u64)
    returns (r: Result<Arrived, Rejection>)
    requires controller.Valid() && metrics.Valid()
    modifies controller, metrics
    ensures controller.Valid() && metrics.Valid() && metrics.live == old(metrics.live)
    ensures controller.providerInFlight == old(controller.providerInFlight)
    ensures r.Ok? <==> RoomForRequest(controller.limits, old(controller.LiveSlots()), pool)
    ensures r.Err? ==> unchanged(controller) && metrics.requests == old(metrics.requests)
    ensures r.Err? ==> AcquireRequest(controller.limits, controller.Value(), pool) == Err(r.error)
    ensures r.Err? ==> metrics.log == old(metrics.log) + TurnedAwayFacts(route, latencyMs)
    ensures r.Ok? ==> metrics.log == old(metrics.log) && metrics.requests == old(metrics.requests) + 1
    ensures r.Ok? ==> fresh(r.value.request) && r.value.request.metrics == metrics && r.value.request.active
    ensures r.Ok? ==> fresh(r.value.admission) && r.value.admission.controller == controller
    ensures r.Ok? ==> controller.live == old(controller.live) + {r.value.admission}
  {
    match route {
      case ChatCompletions => r := ArriveAtChat(controller, metrics, pool, latencyMs);
      case Responses => r := ArriveAtResponses(controller, metrics, pool, latencyMs);
    }
  }

  method ArriveAtChat(controller: AdmissionController, metrics: MetricsRegistry, pool: Option<string>, latencyMs: u64)
    returns (r: Result<Arrived, Rejection>)
    requires controller.Valid() && metrics.Valid()
    modifies controller, metrics
    ensures controller.Valid() && metrics.Valid() && metrics.live == old(metrics.live)
    ensures controller.providerInFlight == old(controller.providerInFlight)
    ensures r.Ok? <==> RoomForRequest(controller.limits, old(controller.LiveSlots()), pool)
    ensures r.Err? ==> unchanged(controller) && metrics.requests == old(metrics.requests)
    ensures r.Err? ==> AcquireRequest(controller.limits, controller.Value(), pool) == Err(r.error)
    ensures r.Err? ==> metrics.log == old(metrics.log) + TurnedAwayFacts(ChatCompletions, latencyMs)
    ensures r.Ok? ==> metrics.log == old(metrics.log) && metrics.requests == old(metrics.requests) + 1
    ensures r.Ok? ==> fresh(r.value.request) && r.value.request.metrics == metrics && r.value.request.active
    ensures r.Ok? ==> fresh(r.value.admission) && r.value.admission.controller == controller
    ensures r.Ok? ==> controller.live == old(controller.live) + {r.value.admission}
  {
    var request := new MetricsRequestGuard(metrics);
    assert controller.Valid() && controller.LiveSlots() == old(controller.LiveSlots());
    var admission := controller.TryAcquireRequest(pool);
    if admission.Ok? {
      r := Ok(Arrived(request, admission.value));
    } else {
      TurnAway(request, latencyMs);
      r := Err(admission.error);
    }
  }

  method TurnAway(request: MetricsRequestGuard, latencyMs: u64)
    requires request.metrics.Valid() && request.active && request.metrics.requests > 0
    modifies request, request.metrics
    ensures request.metrics.Valid() && request.metrics.live == old(request.metrics.live)
    ensures request.metrics.requests == old(request.metrics.requests) - 1
    ensures request.metrics.log == old(request.metrics.log) + TurnedAwayFacts(ChatCompletions, latencyMs)
  {
    request.metrics.RecordChat(FailureEntry(latencyMs, Some(RejectedByAdmission), []));
    request.Drop();
  }

  method ArriveAtResponses(controller: AdmissionController, metrics: MetricsRegistry, pool: Option<string>,
                           latencyMs: u64)
    returns (r: Result<Arrived, Rejection>)
    requires controller.Valid() && metrics.Valid()
    modifies controller, metrics
    ensures controller.Valid() && metrics.Valid() && metrics.live == old(metrics.live)
    ensures controller.providerInFlight == old(controller.providerInFlight)
    ensures r.Ok? <==> RoomForRequest(controller.limits, old(controller.LiveSlots()), pool)
    ensures r.Err? ==> unchanged(controller) && metrics.requests == old(metrics.requests)
    ensures r.Err? ==> AcquireRequest(controller.limits, controller.Value(), pool) == Err(r.error)
    ensures r.Err? ==> metrics.log == old(metrics.log) + TurnedAwayFacts(Responses, latencyMs)
    ensures r.Ok? ==> metrics.log == old(metrics.log) && metrics.requests == old(metrics.requests) + 1
    ensures r.Ok? ==> fresh(r.value.request) && r.value.request.metrics == metrics && r.value.request.active
    ensures r.Ok? ==> fresh(r.value.admission) && r.value.admission.controller == controller
    ensures r.Ok? ==> controller.live == old(controller.live) + {r.value.admission}
  {
    var admission := controller.TryAcquireRequest(pool);
    if admission.Ok? {
      var request := new MetricsRequestGuard(metrics);
      r := Ok(Arrived(request, admission.value));
    } else {
      r := Err(admission.error);
    }
  }

  /** The part after the request itself was admitted. */
  method StreamAdmitted(index: PrefixAffinity.PrefixAffinityIndex, route: Route, cands: seq<Candidate>, size: Size,
                        env: Env, key: Option<string>, now: nat, feed: Feed, latencyMs: u64,
                        price: TokenUsage -> Cost, polled: bool, patience: nat,
                        request: MetricsRequestGuard, admission: AdmissionGuard)
    returns (end: Ending, ghost visits: seq<Visit>, ghost records: seq<Record>)
    requires FeedOk(feed) && admission.controller.Valid() && admission in admission.controller.live
    requires request.metrics.Valid() && request.active && request.metrics.requests > 0
    requires index.Valid() && index.clock <= now
    modifies request, admission, admission.controller, request.metrics, index
    ensures !end.TurnedAway? && (end.NotOpened? ==> !end.result.Succeeded?)
    ensures admission.controller.Valid() && admission.controller.live == old(admission.controller.live) - {admission}
    ensures request.metrics.Valid() && request.metrics.live == old(request.metrics.live)
    ensures request.metrics.requests == old(request.metrics.requests) - 1
    ensures request.metrics.log == old(request.metrics.log) + FactsIn(end, route, latencyMs, price)
    ensures end.Streamed? ==> TraceOf(route, feed, end.attempts, latencyMs, polled, patience, end.trace)
    ensures var controller := admission.controller;
            Reports(cands, true, EnvAt(env, cands, controller.limits, old(controller.providerInFlight)),
                    visits, ReportIn(end), records)
    ensures index.Valid() && index.history == old(index.history) + Remembered(key, ReportIn(end), now)
  {
    var controller, metrics := admission.controller, request.metrics;
    var result, held;
    result, held, visits, records := OpenStream(controller, metrics, index, cands, size, env, key, now);
    match held {
      case None =>
        end := NotOpened(result);
        GiveUp(UnopenedEntry(result, latencyMs), request, admission);
      case Some(guards) =>
        var trace := ServeLast(route, feed, result.attempts, latencyMs, price, polled, patience,
                               request, admission, guards.call, guards.slot, old(metrics.live));
        end := Streamed(result.provider, result.attempts, trace);
    }
  }

  /** The failure is recorded and the request's own guards go. */
  method GiveUp(e: Entry, request: MetricsRequestGuard, admission: AdmissionGuard)
    requires Paired(e) && admission.controller.Valid() && admission in admission.controller.live
    requires request.metrics.Valid() && request.active && request.metrics.requests > 0
    modifies request, admission, admission.controller, request.metrics
    ensures admission.controller.Valid() && admission.controller.live == old(admission.controller.live) - {admission}
    ensures request.metrics.Valid() && request.metrics.live == old(request.metrics.live)
    ensures request.metrics.requests == old(request.metrics.requests) - 1
    ensures request.metrics.log == old(request.metrics.log) + FactsOf(e)
  {
    request.metrics.RecordChat(e);
    admission.Finish();
    request.Drop();
  }

  /** The call that the stream takes over is the latest in flight. */
  method ServeLast(route: Route, feed: Feed, logged: seq<Attempt>, latencyMs: u64, price: TokenUsage -> Cost,
                   polled: bool, patience: nat, request: MetricsRequestGuard, admission: AdmissionGuard,
                   call: ProviderInFlightGuard, slot: AdmissionGuard, ghost live: seq<Load>)
    returns (t: Trace)
    requires FeedOk(feed) && GuardsHeld(request, admission, call, slot, |live|)
    requires request.metrics.live == live + [Load(call.provider, call.units)]
    modifies request, admission, call, slot, admission.controller, request.metrics
    ensures admission.controller.Valid() && request.metrics.Valid()
    ensures admission.controller.live == old(admission.controller.live) - {admission, slot}
    ensures request.metrics.live == live && request.metrics.requests == old(request.metrics.requests) - 1
    ensures request.metrics.log == old(request.metrics.log) + LoggedBy(t, latencyMs, price)
    ensures TraceOf(route, feed, logged, latencyMs, polled, patience, t)
  {
    assert (live + [Load(call.provider, call.units)])[..|live|] == live;
    t := Serve(route, feed, logged, latencyMs, price, polled, patience, request, admission, call, slot, |live|);
  }
}
