/** The streaming driver with its real guards: every candidate's slot comes from the admission
    controller, every call is counted by a guard of the metrics registry, and a success under prefix
    affinity is recorded in the index. Breaker answers and replies come from an arbitrary environment. */
module Opening {
  import opened Base
  import opened Admission
  import opened Fallback
  import opened FallbackLoops
  import opened Metrics
  import opened Telemetry
  import PrefixAffinity

  /** What a request says about its size. */
  datatype Size = Size(promptTokens: u32, maxCompletionTokens: Option<u32>)

  function UnitsFor(size: Size): nat {
    QueueUnits(size.promptTokens, size.maxCompletionTokens)
  }

  /** What the prefix index learns from a result: who served the fingerprint, if it was a success and
      the request was routed by affinity (`key`). */
  function Remembered(key: Option<string>, result: FallbackResult, now: nat): seq<PrefixAffinity.Event> {
    if key.Some? && result.Succeeded? then
      [PrefixAffinity.Recorded(key.value, PrefixAffinity.Entry(result.provider, now))]
    else []
  }

  method Remember(index: PrefixAffinity.PrefixAffinityIndex, key: Option<string>, result: FallbackResult, now: nat)
    requires index.Valid() && index.clock <= now
    modifies index
    ensures index.Valid() && index.clock <= now
    ensures index.history == old(index.history) + Remembered(key, result, now)
  {
    if key.Some? && result.Succeeded? {
      index.RecordProvider(key.value, result.provider, now);
    }
  }

  /** A finished request, as far as the index is concerned. */
  datatype Served = Served(key: Option<string>, result: FallbackResult, at: nat)

  /** The records that requests leave one after the other. */
  function HistoryOf(served: seq<Served>): seq<PrefixAffinity.Event> {
    if served == [] then []
    else
      var last := Last(served);
      HistoryOf(served[..|served| - 1]) + Remembered(last.key, last.result, last.at)
  }

  /** The latest success of a request that was routed by this fingerprint. */
  function LatestSuccess(served: seq<Served>, f: string): Option<PrefixAffinity.Entry> {
    if served == [] then None
    else
      var last := Last(served);
      if last.key == Some(f) && last.result.Succeeded? then Some(PrefixAffinity.Entry(last.result.provider, last.at))
      else LatestSuccess(served[..|served| - 1], f)
  }

  /** What the index takes for the latest record of a fingerprint is the provider of the latest request
      that succeeded under it: failures, refusals and requests without affinity leave nothing. */
  lemma {:induction false} LatestIsSuccess(served: seq<Served>, f: string)
    ensures PrefixAffinity.Latest(HistoryOf(served), f) == LatestSuccess(served, f)
  {
    if served != [] {
      var before, last := served[..|served| - 1], Last(served);
      LatestIsSuccess(before, f);
      if last.key.Some? && last.result.Succeeded? {
        var e := PrefixAffinity.Recorded(last.key.value, PrefixAffinity.Entry(last.result.provider, last.at));
        PrefixAffinity.HistorySnoc(HistoryOf(before), e, f);
      } else {
        assert HistoryOf(served) == HistoryOf(before);
      }
    }
  }

  /** A request without streaming: the index learns of it exactly if it succeeded under affinity. */
  method Complete(cands: seq<Candidate>, env: Env, index: PrefixAffinity.PrefixAffinityIndex, key: Option<string>,
                  now: nat)
    returns (result: FallbackResult, ghost visits: seq<Visit>, ghost records: seq<Record>)
    requires EnvFor(env, false) && index.Valid() && index.clock <= now
    modifies index
    ensures Reports(cands, false, env, visits, result, records)
    ensures index.Valid() && index.history == old(index.history) + Remembered(key, result, now)
  {
    result, records, visits := CompleteChat(cands, env);
    Remember(index, key, result, now);
  }

  // ---------------------------------------------------------------- one candidate

  /** A guard of the last call in flight. */
  ghost predicate CallHeld(call: ProviderInFlightGuard, metrics: MetricsRegistry, live: seq<Load>, load: Load)
    reads call, metrics
  {
    && call.metrics == metrics && call.active && Load(call.provider, call.units) == load
    && metrics.live == live + [load]
  }

  /** One call under its guard, which stays only if the call succeeds. */
  method CallOnce(metrics: MetricsRegistry, cand: Candidate, size: Size, reply: Reply)
    returns (call: Option<ProviderInFlightGuard>)
    requires metrics.Valid()
    modifies metrics`value, metrics`live
    ensures metrics.Valid()
    ensures call.Some? <==> reply.outcome.Answer?
    ensures call.None? ==> metrics.live == old(metrics.live)
    ensures call.Some? ==> fresh(call.value)
    ensures call.Some? ==> CallHeld(call.value, metrics, old(metrics.live), Load(cand.name, UnitsFor(size)))
  {
    var guard := new ProviderInFlightGuard(metrics, cand.name, size.promptTokens, size.maxCompletionTokens);
    if reply.outcome.Answer? {
      call := Some(guard);
    } else {
      ghost var live := old(metrics.live);
      guard.Finish(|live|);
      assert (live + [Load(cand.name, UnitsFor(size))])[..|live|] == live;
      call := None;
    }
  }

  /** The retry loop: one guard for each call, and none left over but a successful call's. */
  method OpenCandidate(metrics: MetricsRegistry, size: Size, cand: Candidate, index: nat, env: Env,
                       before: seq<Attempt>, orderBefore: u32)
    returns (attempts: seq<Attempt>, order: u32, outcome: Outcome, record: Option<bool>,
             call: Option<ProviderInFlightGuard>, ghost replies: seq<Reply>)
    requires metrics.Valid() && orderBefore == Min(|before|, U32_MAX)
    modifies metrics`value, metrics`live
    ensures metrics.Valid()
    ensures CompleteTry(cand.maxRetries, true, replies) && RepliesFollow(env, index, replies)
    ensures attempts == before + Block(cand, index, |before|, replies) && order == Min(|attempts|, U32_MAX)
    ensures outcome == Last(replies).outcome
    ensures record == Told(outcome)
    ensures call.Some? <==> outcome.Answer?
    ensures call.None? ==> metrics.live == old(metrics.live)
    ensures call.Some? ==> fresh(call.value)
    ensures call.Some? ==> CallHeld(call.value, metrics, old(metrics.live), Load(cand.name, UnitsFor(size)))
  {
    attempts, order, replies := before, orderBefore, [];
    var retry := 0;
    while true
      invariant 0 <= retry <= cand.maxRetries && retry == |replies|
      invariant Retrying(cand, index, env, before, replies, attempts, order)
      invariant metrics.Valid() && metrics.live == old(metrics.live)
      decreases cand.maxRetries - retry
    {
      var reply := env.reply(index, retry);
      outcome := reply.outcome;
      LogReply(cand, index, env, before, replies, attempts, order, reply);
      replies := replies + [reply];
      call := CallOnce(metrics, cand, size, reply);
      order := SatAdd32(order, 1);
      attempts := attempts + [EntryFor(cand, index, order, reply)];
      record := Told(outcome);
      if record != Some(false) || retry == cand.maxRetries {
        return;
      }
      retry := retry + 1;
    }
  }

  function EntryFor(cand: Candidate, index: nat, order: u32, r: Reply): Attempt {
    Attempt(cand.name, order, r.latencyMs, r.outcome.Answer?, index > 0,
            if r.outcome.Answer? then None else Some(Category(ErrorOf(r.outcome))))
  }

  /** What the breaker hears after the last call, if anything. */
  function Told(outcome: Outcome): Option<bool> {
    match outcome
    case Answer => Some(true)
    case EmptyStream => None
    case Fail(error) => if Retryable(error) then Some(false) else None
  }

  // ---------------------------------------------------------------- the candidate list

  /** The environment in which admission answers as it does with these calls in flight. */
  ghost function EnvAt(env: Env, cands: seq<Candidate>, limits: Limits, inFlight: map<string, u64>): Env {
    Env(env.allow, (i: nat) => if i < |cands| then RefusalOf(limits, inFlight, cands[i].name) else None, env.reply)
  }

  ghost function RefusalOf(limits: Limits, inFlight: map<string, u64>, provider: string): Option<Rejection> {
    if provider in limits.providers && CountAt(inFlight, provider) >= limits.providers[provider] then
      Some(Reject(limits, ProviderInFlightLimit))
    else None
  }

  /** The guards that a successful driver hands over to the stream. */
  datatype Opened = Opened(call: ProviderInFlightGuard, slot: AdmissionGuard)

  /** A guard that holds a provider's slot beside the others. */
  ghost predicate SlotHeld(slot: AdmissionGuard, controller: AdmissionController, live: set<AdmissionGuard>,
                           provider: string)
    reads slot, controller
  {
    && slot.controller == controller && slot.slots == WantedProvider(controller.limits, provider)
    && slot !in live && controller.live == live + {slot}
  }

  /** The live guards determine the counters. */
  lemma SameLive(controller: AdmissionController, before: Admission.Counters,
                 guards: map<AdmissionGuard, seq<Slot>>)
    requires controller.Valid() && guards == controller.LiveSlots() && Tracks(controller.limits, before, guards)
    ensures controller.Value() == before
  {
    forall x ensures CountOf(controller.Value(), x) == CountOf(before, x) {
      assert CountOf(before, x) == |Holders(guards, x)|;
    }
    CountsDetermine(controller.Value(), before);
  }

  /** A candidate's slot goes back, and the controller is as it was before it was taken. */
  method GiveBackSlot(slot: AdmissionGuard, ghost live: set<AdmissionGuard>, ghost before: Admission.Counters)
    requires slot.controller.Valid() && slot !in live && slot.controller.live == live + {slot}
    requires Tracks(slot.controller.limits, before, map g | g in live :: g.slots)
    modifies slot, slot.controller
    ensures slot.controller.Valid() && slot.controller.live == live && slot.controller.Value() == before
  {
    slot.Finish();
    assert slot.controller.live == live;
    SameLive(slot.controller, before, map g | g in live :: g.slots);
  }

  /** What became of one candidate. */
  datatype Considered =
    | Skipped
    | Refused(rejection: Rejection)
    | Called(attempts: seq<Attempt>, order: u32, outcome: Outcome)

  ghost predicate Describes(c: Considered, v: Visit, cand: Candidate, index: nat, before: seq<Attempt>) {
    match c
    case Skipped => v == BreakerRefused
    case Refused(r) => v == AdmissionRefused(r)
    case Called(attempts, order, outcome) =>
      && v.Tried? && CompleteTry(cand.maxRetries, true, v.replies) && outcome == Last(v.replies).outcome
      && attempts == before + Block(cand, index, |before|, v.replies) && order == Min(|attempts|, U32_MAX)
  }

  predicate Answered(c: Considered) {
    c.Called? && c.outcome.Answer?
  }

  /** One candidate: the breaker, then a slot, then the calls. The slot stays with a successful call
      and goes back otherwise. */
  method Consider(controller: AdmissionController, metrics: MetricsRegistry, size: Size, cands: seq<Candidate>,
                  i: nat, env: Env, before: seq<Attempt>, order: u32)
    returns (c: Considered, held: Option<Opened>, ghost v: Visit)
    requires i < |cands| && controller.Valid() && metrics.Valid() && order == Min(|before|, U32_MAX)
    modifies controller, metrics`value, metrics`live
    ensures controller.Valid() && metrics.Valid()
    ensures VisitFollows(EnvAt(env, cands, controller.limits, old(controller.providerInFlight)), i, v)
    ensures Describes(c, v, cands[i], i, before)
    ensures held.Some? <==> Answered(c)
    ensures held.None? ==> controller.live == old(controller.live) && controller.Value() == old(controller.Value())
    ensures held.None? ==> metrics.live == old(metrics.live)
    ensures held.Some? ==> fresh(held.value.call) && fresh(held.value.slot)
    ensures held.Some? ==> SlotHeld(held.value.slot, controller, old(controller.live), cands[i].name)
    ensures held.Some? ==> CallHeld(held.value.call, metrics, old(metrics.live), Load(cands[i].name, UnitsFor(size)))
  {
    c, held, v := Skipped, None, BreakerRefused;
    if !env.allow(i) {
      return;
    }
    var slot := controller.TryAcquireProvider(cands[i].name);
    if slot.Err? {
      c, v := Refused(slot.error), AdmissionRefused(slot.error);
      return;
    }
    ghost var live := map g | g in old(controller.live) :: g.slots;
    assert live == old(controller.LiveSlots());
    var attempts, newOrder, outcome, record, call;
    ghost var replies;
    attempts, newOrder, outcome, record, call, replies :=
      OpenCandidate(metrics, size, cands[i], i, env, before, order);
    c, v := Called(attempts, newOrder, outcome), Tried(replies);
    if call.None? {
      GiveBackSlot(slot.value, old(controller.live), old(controller.Value()));
    } else {
      held := Some(Opened(call.value, slot.value));
    }
  }

  /** The streaming driver: what it reports is what the machine reports if admission answers as the
      controller stood at the start, and whatever it does not hand over is given back. */
  method Walk(controller: AdmissionController, metrics: MetricsRegistry, cands: seq<Candidate>, size: Size, env: Env)
    returns (result: FallbackResult, held: Option<Opened>, ghost visits: seq<Visit>, ghost records: seq<Record>)
    requires controller.Valid() && metrics.Valid()
    modifies controller, metrics`value, metrics`live
    ensures controller.Valid() && metrics.Valid()
    ensures Reports(cands, true, EnvAt(env, cands, controller.limits, old(controller.providerInFlight)),
                    visits, result, records)
    ensures held.Some? <==> result.Succeeded?
    ensures held.None? ==> controller.live == old(controller.live) && controller.Value() == old(controller.Value())
    ensures held.None? ==> metrics.live == old(metrics.live)
    ensures held.Some? ==> fresh(held.value.call) && fresh(held.value.slot)
    ensures held.Some? ==> SlotHeld(held.value.slot, controller, old(controller.live), result.provider)
    ensures held.Some? ==> CallHeld(held.value.call, metrics, old(metrics.live), Load(result.provider, UnitsFor(size)))
  {
    ghost var start := old(controller.Value());
    ghost var there := EnvAt(env, cands, controller.limits, start.providers);
    visits, records := [], [];
    var attempts: seq<Attempt> := [];
    var order: u32 := 0;
    var rejection: Option<Rejection> := None;

    for i := 0 to |cands|
      invariant |visits| == i
      invariant Reached(cands, true, there, visits, attempts, order, rejection, records)
      invariant i == |cands| && visits != [] ==> !Last(visits).Tried?
      invariant controller.Valid() && controller.live == old(controller.live) && controller.Value() == start
      invariant metrics.Valid() && metrics.live == old(metrics.live)
    {
      var c;
      ghost var v;
      c, held, v := Consider(controller, metrics, size, cands, i, env, attempts, order);
      Considering(cands, there, visits, attempts, order, rejection, records, c, v);
      visits := visits + [v];
      match c {
        case Skipped =>
        case Refused(r) => rejection := Some(r);
        case Called(more, newOrder, outcome) =>
          attempts, order, records := more, newOrder, records + RecordFor(i, v.replies);
          if outcome.Answer? {
            result := Succeeded(cands[i].name, attempts);
            return;
          }
          if i + 1 == |cands| || (outcome.Fail? && !Retryable(outcome.error)) {
            result := ProviderFailed(ErrorOf(outcome), attempts);
            return;
          }
      }
    }
    AfterLast(cands, true, there, visits, attempts, order, rejection, records);
    result, held := FellThrough(rejection), None;
  }

  /** The loop variables after one more candidate, or the report if it was the last. */
  lemma Considering(cands: seq<Candidate>, env: Env, visits: seq<Visit>, attempts: seq<Attempt>, order: nat,
                    rejection: Option<Rejection>, records: seq<Record>, c: Considered, v: Visit)
    requires Reached(cands, true, env, visits, attempts, order, rejection, records) && |visits| < |cands|
    requires VisitFollows(env, |visits|, v) && Describes(c, v, cands[|visits|], |visits|, attempts)
    ensures Last(visits + [v]) == v
    ensures match c
            case Skipped => Reached(cands, true, env, visits + [v], attempts, order, rejection, records)
            case Refused(r) => Reached(cands, true, env, visits + [v], attempts, order, Some(r), records)
            case Called(more, newOrder, outcome) =>
              var told, i := records + RecordFor(|visits|, v.replies), |visits|;
              && (outcome.Answer? ==> Reports(cands, true, env, visits + [v], Succeeded(cands[i].name, more), told))
              && (!outcome.Answer? && (i + 1 == |cands| || (outcome.Fail? && !Retryable(outcome.error))) ==>
                    Reports(cands, true, env, visits + [v], ProviderFailed(ErrorOf(outcome), more), told))
              && (!outcome.Answer? && !(outcome.Fail? && !Retryable(outcome.error)) ==>
                    Reached(cands, true, env, visits + [v], more, newOrder, rejection, told))
  {
    match c {
      case Called(more, newOrder, _) =>
        AfterTry(cands, true, env, visits, attempts, order, rejection, records, v.replies, more, newOrder);
      case _ => AfterRefusal(cands, true, env, visits, attempts, order, rejection, records, v);
    }
  }

  /** And the prefix index hears of a success under affinity, and of nothing else. */
  method OpenStream(controller: AdmissionController, metrics: MetricsRegistry,
                    index: PrefixAffinity.PrefixAffinityIndex, cands: seq<Candidate>, size: Size, env: Env,
                    key: Option<string>, now: nat)
    returns (result: FallbackResult, held: Option<Opened>, ghost visits: seq<Visit>, ghost records: seq<Record>)
    requires controller.Valid() && metrics.Valid() && index.Valid() && index.clock <= now
    modifies controller, metrics`value, metrics`live, index
    ensures controller.Valid() && metrics.Valid() && index.Valid()
    ensures Reports(cands, true, EnvAt(env, cands, controller.limits, old(controller.providerInFlight)),
                    visits, result, records)
    ensures index.history == old(index.history) + Remembered(key, result, now)
    ensures held.Some? <==> result.Succeeded?
    ensures held.None? ==> controller.live == old(controller.live) && controller.Value() == old(controller.Value())
    ensures held.None? ==> metrics.live == old(metrics.live)
    ensures held.Some? ==> fresh(held.value.call) && fresh(held.value.slot)
    ensures held.Some? ==> SlotHeld(held.value.slot, controller, old(controller.live), result.provider)
    ensures held.Some? ==> CallHeld(held.value.call, metrics, old(metrics.live), Load(result.provider, UnitsFor(size)))
  {
    result, held, visits, records := Walk(controller, metrics, cands, size, env);
    Remember(index, key, result, now);
  }
}
