/** The retry and fallback driver (`src/routing/fallback.rs`).

    A request walks its candidate list. Each candidate is refused by its breaker, refused by
    admission, or tried with retries; `Visit` records which. `Driver` is the driver as a machine
    that stops wherever the source takes a lock or awaits, so that other requests may run in
    between; `CompleteChat` and `CompleteChatStream` are the source's loops, proved to compute
    what the machine computes. */
module Fallback {
  import opened Base
  import opened Admission

  datatype ProviderError =
    | Timeout
    | RateLimited
    | AuthenticationFailed
    | ProviderUnavailable
    | ProviderBadResponse

  datatype ErrorCategory =
    | TimeoutCategory
    | RateLimitedCategory
    | AuthenticationFailedCategory
    | ProviderUnavailableCategory
    | ProviderBadResponseCategory

  function Category(e: ProviderError): ErrorCategory {
    match e
    case Timeout => TimeoutCategory
    case RateLimited => RateLimitedCategory
    case AuthenticationFailed => AuthenticationFailedCategory
    case ProviderUnavailable => ProviderUnavailableCategory
    case ProviderBadResponse => ProviderBadResponseCategory
  }

  /** `fallback_decision(error) == TryNextProvider` */
  predicate Retryable(e: ProviderError) {
    e.Timeout? || e.RateLimited? || e.ProviderUnavailable?
  }

  /** How one call to a provider ends. A streaming call may also open and end before its first event. */
  datatype Outcome = Answer | Fail(error: ProviderError) | EmptyStream

  datatype Reply = Reply(outcome: Outcome, latencyMs: u64)

  /** The error that a failed call contributes to the log. */
  function ErrorOf(o: Outcome): ProviderError
    requires !o.Answer?
  {
    match o
    case Fail(e) => e
    case EmptyStream => ProviderBadResponse
  }

  predicate RetryableReply(r: Reply) {
    r.outcome.Fail? && Retryable(r.outcome.error)
  }

  datatype Candidate = Candidate(name: string, maxRetries: u32)

  datatype Attempt = Attempt(
    provider: string,
    order: u32,
    latencyMs: u64,
    success: bool,
    isFallback: bool,
    category: Option<ErrorCategory>)

  datatype FallbackResult =
    | Succeeded(provider: string, attempts: seq<Attempt>)
    | NoProviderAvailable
    | AdmissionRejected(rejection: Rejection)
    | ProviderFailed(error: ProviderError, attempts: seq<Attempt>)

  /** A success or failure reported to the breaker of the candidate at `index`. */
  datatype Record = Record(index: nat, success: bool)

  // ---------------------------------------------------------------- what a run means

  datatype Visit =
    | BreakerRefused
    | AdmissionRefused(rejection: Rejection)
    | Tried(replies: seq<Reply>)

  function Last<T>(s: seq<T>): T
    requires s != []
  {
    s[|s| - 1]
  }

  function AttemptFor(cand: Candidate, index: nat, position: nat, r: Reply): Attempt {
    Attempt(cand.name, Min(position + 1, U32_MAX), r.latencyMs, r.outcome.Answer?, index > 0,
            if r.outcome.Answer? then None else Some(Category(ErrorOf(r.outcome))))
  }

  /** The log entries of one candidate, the first of them at `position`. */
  function Block(cand: Candidate, index: nat, position: nat, replies: seq<Reply>): (b: seq<Attempt>)
    ensures |b| == |replies|
  {
    seq(|replies|, k requires 0 <= k < |replies| => AttemptFor(cand, index, position + k, replies[k]))
  }

  function AttemptsOf(cands: seq<Candidate>, visits: seq<Visit>): seq<Attempt>
    requires |visits| <= |cands|
  {
    if visits == [] then []
    else
      var i := |visits| - 1;
      var before := AttemptsOf(cands, visits[..i]);
      if visits[i].Tried? then before + Block(cands[i], i, |before|, visits[i].replies) else before
  }

  /** What one tried candidate tells its breaker. */
  function RecordFor(index: nat, replies: seq<Reply>): seq<Record> {
    if replies == [] then []
    else if Last(replies).outcome.Answer? then [Record(index, true)]
    else if RetryableReply(Last(replies)) then [Record(index, false)]
    else []
  }

  function RecordsOf(visits: seq<Visit>): seq<Record> {
    if visits == [] then []
    else
      var i := |visits| - 1;
      RecordsOf(visits[..i]) + (if visits[i].Tried? then RecordFor(i, visits[i].replies) else [])
  }

  /** The admission refusal that is reported: the latest one. */
  function LastRejection(visits: seq<Visit>): Option<Rejection> {
    if visits == [] then None
    else if Last(visits).AdmissionRefused? then Some(Last(visits).rejection)
    else LastRejection(visits[..|visits| - 1])
  }

  /** Retries go on only after retryable errors, and until the retry budget is spent. */
  ghost predicate CompleteTry(maxRetries: nat, streaming: bool, replies: seq<Reply>) {
    && 1 <= |replies| <= maxRetries + 1
    && (forall k :: 0 <= k < |replies| - 1 ==> RetryableReply(replies[k]))
    && (RetryableReply(Last(replies)) ==> |replies| == maxRetries + 1)
    && (Last(replies).outcome.EmptyStream? ==> streaming)
  }

  /** A candidate after which the driver never looks at another. */
  predicate Conclusive(v: Visit) {
    && v.Tried? && v.replies != []
    && !RetryableReply(Last(v.replies))
    && !Last(v.replies).outcome.EmptyStream?
  }

  ghost predicate ValidRun(cands: seq<Candidate>, streaming: bool, visits: seq<Visit>) {
    && |visits| <= |cands|
    && (forall i :: 0 <= i < |visits| && visits[i].Tried? ==>
          CompleteTry(cands[i].maxRetries, streaming, visits[i].replies))
    && (forall i :: 0 <= i < |visits| - 1 ==> !Conclusive(visits[i]))
  }

  predicate Finished(cands: seq<Candidate>, visits: seq<Visit>) {
    |visits| == |cands| || (visits != [] && Conclusive(Last(visits)))
  }

  function ResultOf(cands: seq<Candidate>, visits: seq<Visit>): FallbackResult
    requires |visits| <= |cands|
    requires visits != [] && Last(visits).Tried? ==> Last(visits).replies != []
  {
    if visits == [] || !Last(visits).Tried? then
      match LastRejection(visits)
      case None => NoProviderAvailable
      case Some(rejection) => AdmissionRejected(rejection)
    else
      var outcome := Last(Last(visits).replies).outcome;
      if outcome.Answer? then Succeeded(cands[|visits| - 1].name, AttemptsOf(cands, visits))
      else ProviderFailed(ErrorOf(outcome), AttemptsOf(cands, visits))
  }

  // ---------------------------------------------------------------- properties of every run

  /** Where the log entries of the i-th candidate begin. */
  function Offset(visits: seq<Visit>, i: nat): nat
    requires i <= |visits|
  {
    if i == 0 then 0
    else Offset(visits, i - 1) + (if visits[i - 1].Tried? then |visits[i - 1].replies| else 0)
  }

  lemma {:induction false} OffsetPrefix(visits: seq<Visit>, n: nat, i: nat)
    requires i <= n <= |visits|
    ensures Offset(visits[..n], i) == Offset(visits, i)
    decreases i
  {
    if i > 0 { OffsetPrefix(visits, n, i - 1); }
  }

  lemma {:induction false} AttemptsLength(cands: seq<Candidate>, visits: seq<Visit>)
    requires |visits| <= |cands|
    ensures |AttemptsOf(cands, visits)| == Offset(visits, |visits|)
  {
    if visits != [] {
      var i := |visits| - 1;
      AttemptsLength(cands, visits[..i]);
      OffsetPrefix(visits, i, i);
    }
  }

  /** The log is the candidates' blocks laid end to end in candidate order: the entries between
      `Offset(i)` and `Offset(i + 1)` are the i-th candidate's calls, one entry per call. */
  lemma {:induction false} LogIsBlocks(cands: seq<Candidate>, visits: seq<Visit>, i: nat)
    requires i < |visits| <= |cands|
    ensures Offset(visits, i) <= Offset(visits, i + 1) <= |AttemptsOf(cands, visits)|
    ensures Offset(visits, |visits|) == |AttemptsOf(cands, visits)|
    ensures AttemptsOf(cands, visits)[Offset(visits, i)..Offset(visits, i + 1)] ==
            if visits[i].Tried? then Block(cands[i], i, Offset(visits, i), visits[i].replies) else []
    decreases |visits|
  {
    var n := |visits| - 1;
    AttemptsLength(cands, visits);
    AttemptsLength(cands, visits[..n]);
    OffsetPrefix(visits, n, n);
    if i < n {
      LogIsBlocks(cands, visits[..n], i);
      OffsetPrefix(visits, n, i);
      OffsetPrefix(visits, n, i + 1);
      assert visits[..n][i] == visits[i];
      var before, after := AttemptsOf(cands, visits[..n]), AttemptsOf(cands, visits);
      assert after[..|before|] == before;
      assert after[Offset(visits, i)..Offset(visits, i + 1)] == before[Offset(visits, i)..Offset(visits, i + 1)];
    }
  }

  /** Attempts are numbered from one in log order; the 32-bit number stops growing at its maximum. */
  lemma {:induction false} LogIsNumbered(cands: seq<Candidate>, visits: seq<Visit>, k: nat)
    requires |visits| <= |cands| && k < |AttemptsOf(cands, visits)|
    ensures AttemptsOf(cands, visits)[k].order == Min(k + 1, U32_MAX)
    decreases |visits|
  {
    if visits != [] {
      var before := AttemptsOf(cands, visits[..|visits| - 1]);
      if k < |before| { LogIsNumbered(cands, visits[..|visits| - 1], k); }
    }
  }

  /** The most calls a candidate list can cause. */
  function CallBudget(cands: seq<Candidate>): nat {
    if cands == [] then 0 else CallBudget(cands[..|cands| - 1]) + Last(cands).maxRetries + 1
  }

  lemma {:induction false} CallBudgetPrefix(cands: seq<Candidate>, n: nat)
    requires n <= |cands|
    ensures CallBudget(cands[..n]) <= CallBudget(cands)
    decreases |cands| - n
  {
    if n < |cands| {
      CallBudgetPrefix(cands, n + 1);
      assert cands[..n + 1][..n] == cands[..n];
    } else {
      assert cands[..n] == cands;
    }
  }

  /** At most `max_retries + 1` calls per candidate. */
  lemma BlockWithinBudget(cands: seq<Candidate>, streaming: bool, visits: seq<Visit>, i: nat)
    requires ValidRun(cands, streaming, visits) && i < |visits|
    ensures Offset(visits, i + 1) - Offset(visits, i) <= cands[i].maxRetries + 1
  {
    if visits[i].Tried? { assert CompleteTry(cands[i].maxRetries, streaming, visits[i].replies); }
  }

  lemma {:induction false} OffsetWithinBudget(cands: seq<Candidate>, streaming: bool, visits: seq<Visit>, i: nat)
    requires ValidRun(cands, streaming, visits) && i <= |visits|
    ensures Offset(visits, i) <= CallBudget(cands[..i])
    decreases i
  {
    if i > 0 {
      OffsetWithinBudget(cands, streaming, visits, i - 1);
      BlockWithinBudget(cands, streaming, visits, i - 1);
      assert cands[..i][..i - 1] == cands[..i - 1];
    }
  }

  /** So the whole log stays within the candidates' budget, and if that fits in 32 bits the
      attempts are numbered 1, 2, ..., n exactly. */
  lemma LogWithinBudget(cands: seq<Candidate>, streaming: bool, visits: seq<Visit>)
    requires ValidRun(cands, streaming, visits)
    ensures |AttemptsOf(cands, visits)| <= CallBudget(cands)
    ensures CallBudget(cands) <= U32_MAX ==>
              forall k :: 0 <= k < |AttemptsOf(cands, visits)| ==> AttemptsOf(cands, visits)[k].order == k + 1
  {
    AttemptsLength(cands, visits);
    OffsetWithinBudget(cands, streaming, visits, |visits|);
    CallBudgetPrefix(cands, |visits|);
    forall k | 0 <= k < |AttemptsOf(cands, visits)|
      ensures AttemptsOf(cands, visits)[k].order == Min(k + 1, U32_MAX)
    {
      LogIsNumbered(cands, visits, k);
    }
  }

  /** The walk in which every call times out. */
  function Exhausting(cands: seq<Candidate>): (visits: seq<Visit>)
    ensures |visits| == |cands|
  {
    seq(|cands|, i requires 0 <= i < |cands| => Tried(Timeouts(cands[i].maxRetries + 1)))
  }

  function Timeouts(n: nat): (replies: seq<Reply>)
    ensures |replies| == n && forall k :: 0 <= k < n ==> RetryableReply(replies[k])
  {
    seq(n, _ => Reply(Fail(Timeout), 0))
  }

  lemma {:induction false} ExhaustingOffset(cands: seq<Candidate>, i: nat)
    requires i <= |cands|
    ensures Offset(Exhausting(cands), i) == CallBudget(cands[..i])
  {
    if i > 0 {
      ExhaustingOffset(cands, i - 1);
      assert cands[..i][..i - 1] == cands[..i - 1];
    }
  }

  /** It is a finished walk and spends the whole budget. */
  lemma ExhaustingSpends(cands: seq<Candidate>, streaming: bool)
    ensures ValidRun(cands, streaming, Exhausting(cands)) && Finished(cands, Exhausting(cands))
    ensures |AttemptsOf(cands, Exhausting(cands))| == CallBudget(cands)
  {
    AttemptsLength(cands, Exhausting(cands));
    ExhaustingOffset(cands, |cands|);
    assert cands[..|cands|] == cands;
  }

  /** The attempts of every finished walk are numbered 1, 2, ..., n. */
  ghost predicate AlwaysNumbered(cands: seq<Candidate>, streaming: bool) {
    forall visits, k ::
      ValidRun(cands, streaming, visits) && Finished(cands, visits) && 0 <= k < |AttemptsOf(cands, visits)| ==>
        AttemptsOf(cands, visits)[k].order == k + 1
  }

  /** They are exactly when the candidates' budget fits in 32 bits. */
  lemma NumberedIff(cands: seq<Candidate>, streaming: bool)
    ensures AlwaysNumbered(cands, streaming) <==> CallBudget(cands) <= U32_MAX
  {
    if CallBudget(cands) <= U32_MAX {
      forall visits, k |
          ValidRun(cands, streaming, visits) && Finished(cands, visits) && 0 <= k < |AttemptsOf(cands, visits)|
        ensures AttemptsOf(cands, visits)[k].order == k + 1
      {
        LogWithinBudget(cands, streaming, visits);
      }
    } else {
      ExhaustingSpends(cands, streaming);
      LogIsNumbered(cands, Exhausting(cands), U32_MAX);
    }
  }

  /** One candidate with the largest retry setting makes two calls with the same number. */
  lemma NumbersRepeat(name: string, streaming: bool)
    ensures var cands := [Candidate(name, U32_MAX)];
            var log := AttemptsOf(cands, Exhausting(cands));
            && ValidRun(cands, streaming, Exhausting(cands)) && Finished(cands, Exhausting(cands))
            && |log| == U32_MAX + 1 && log[U32_MAX - 1].order == log[U32_MAX].order
  {
    var cands := [Candidate(name, U32_MAX)];
    ExhaustingSpends(cands, streaming);
    assert cands[..0] == [];
    LogIsNumbered(cands, Exhausting(cands), U32_MAX - 1);
    LogIsNumbered(cands, Exhausting(cands), U32_MAX);
  }

  /** Before the run ends nothing has succeeded. */
  lemma {:induction false} NoEarlySuccess(cands: seq<Candidate>, streaming: bool, visits: seq<Visit>, k: nat)
    requires ValidRun(cands, streaming, visits) && k < |AttemptsOf(cands, visits)|
    ensures AttemptsOf(cands, visits)[k].success <==>
            k == |AttemptsOf(cands, visits)| - 1 && Last(visits).Tried? && Last(Last(visits).replies).outcome.Answer?
    decreases |visits|
  {
    var n := |visits| - 1;
    var before := AttemptsOf(cands, visits[..n]);
    if k < |before| {
      NoEarlySuccess(cands, streaming, visits[..n], k);
      assert visits[..n][n - 1] == visits[n - 1];
      if visits[n - 1].Tried? { assert !Conclusive(visits[n - 1]); }
      if visits[n].Tried? { assert CompleteTry(cands[n].maxRetries, streaming, visits[n].replies); }
    } else {
      assert CompleteTry(cands[n].maxRetries, streaming, visits[n].replies);
    }
  }

  /** A finished run reports its log truthfully: on success exactly the last attempt succeeded, by
      the reported provider; on failure none did and the error is the last attempt's. */
  lemma ResultMatchesLog(cands: seq<Candidate>, streaming: bool, visits: seq<Visit>)
    requires ValidRun(cands, streaming, visits) && Finished(cands, visits)
    requires visits != [] && Last(visits).Tried?
    ensures var log := AttemptsOf(cands, visits);
            && log != []
            && (match ResultOf(cands, visits)
                case Succeeded(provider, attempts) =>
                  attempts == log && Last(log).success && Last(log).provider == provider && Last(log).category == None
                  && (forall k :: 0 <= k < |log| - 1 ==> !log[k].success)
                case ProviderFailed(error, attempts) =>
                  attempts == log && Last(log).category == Some(Category(error))
                  && (forall k :: 0 <= k < |log| ==> !log[k].success)
                case _ => false)
  {
    var log, n := AttemptsOf(cands, visits), |visits| - 1;
    assert CompleteTry(cands[n].maxRetries, streaming, visits[n].replies);
    forall k | 0 <= k < |log|
      ensures log[k].success <==> k == |log| - 1 && Last(visits[n].replies).outcome.Answer?
    {
      NoEarlySuccess(cands, streaming, visits, k);
    }
  }

  lemma {:induction false} RejectionIffRefused(visits: seq<Visit>)
    ensures LastRejection(visits).Some? <==> exists i :: 0 <= i < |visits| && visits[i].AdmissionRefused?
  {
    if visits != [] {
      var n := |visits| - 1;
      RejectionIffRefused(visits[..n]);
      if i :| 0 <= i < n && visits[..n][i].AdmissionRefused? { assert visits[i].AdmissionRefused?; }
      if i :| 0 <= i < |visits| && visits[i].AdmissionRefused? {
        if i < n { assert visits[..n][i].AdmissionRefused?; }
      }
    }
  }

  /** The driver leaves its loop without a provider's verdict exactly when the last candidate was
      reached and refused; it then reports a rejection iff admission refused some candidate, even
      if earlier candidates were called and failed. */
  lemma FallThroughIffLastRefused(cands: seq<Candidate>, streaming: bool, visits: seq<Visit>)
    requires cands != [] && ValidRun(cands, streaming, visits) && Finished(cands, visits)
    ensures var r := ResultOf(cands, visits);
            && (r.NoProviderAvailable? || r.AdmissionRejected? <==> |visits| == |cands| && !Last(visits).Tried?)
            && (r.AdmissionRejected? ==> LastRejection(visits) == Some(r.rejection))
            && (!Last(visits).Tried? ==>
                  (r.AdmissionRejected? <==> exists i :: 0 <= i < |visits| && visits[i].AdmissionRefused?))
  {
    RejectionIffRefused(visits);
  }

  /** Breaker records follow candidate order, at most one per candidate. */
  lemma {:induction false} RecordsOrdered(visits: seq<Visit>)
    ensures forall a, b :: 0 <= a < b < |RecordsOf(visits)| ==> RecordsOf(visits)[a].index < RecordsOf(visits)[b].index
    ensures forall a :: 0 <= a < |RecordsOf(visits)| ==> RecordsOf(visits)[a].index < |visits|
  {
    if visits != [] { RecordsOrdered(visits[..|visits| - 1]); }
  }

  /** A candidate makes exactly one breaker record, success or failure as its last call says, unless
      it was refused or its last call was a non-retryable error or an empty stream. */
  lemma {:induction false} RecordsExact(visits: seq<Visit>, i: nat, success: bool)
    requires i < |visits| && (visits[i].Tried? ==> visits[i].replies != [])
    ensures Record(i, success) in RecordsOf(visits) <==>
            visits[i].Tried? && (if success then Last(visits[i].replies).outcome.Answer?
                else RetryableReply(Last(visits[i].replies)))
    decreases |visits|
  {
    var n := |visits| - 1;
    var before, last := RecordsOf(visits[..n]), if visits[n].Tried? then RecordFor(n, visits[n].replies) else [];
    assert RecordsOf(visits) == before + last;
    RecordsOrdered(visits[..n]);
    assert forall r :: r in before ==> r.index < n;
    assert forall r :: r in last ==> r.index == n;
    if i < n {
      RecordsExact(visits[..n], i, success);
      assert visits[..n][i] == visits[i];
    } else {
      assert Record(i, success) !in before;
    }
  }

  // ---------------------------------------------------------------- the machine

  datatype Phase =
    | Consider            // about to ask the breaker
    | Permitted           // permitted by the breaker, about to ask admission
    | Calling             // provider slot held, call in progress
    | Sleeping            // provider slot held, backing off before a retry
    | Recording(success: bool)   // provider slot held, about to tell the breaker
    | Leaving             // about to drop the provider slot
    | HandedOff(streamed: FallbackResult)  // streaming: slots now belong to the response stream
    | Done(result: FallbackResult)

  datatype Driver = Driver(
    cands: seq<Candidate>,
    streaming: bool,
    visits: seq<Visit>,          // candidates already left
    replies: seq<Reply>,         // calls made to the current one
    phase: Phase,
    attempts: seq<Attempt>,
    order: u32,
    rejection: Option<Rejection>,
    lastRetryable: Option<ProviderError>,
    records: seq<Record>)

  /** What the outside world answers at each stop. */
  datatype Input =
    | Verdict(allowed: bool)
    | Slotted(refusal: Option<Rejection>)
    | Replied(reply: Reply)
    | Woken
    | Recorded
    | Dropped

  predicate Stopped(d: Driver) {
    d.phase.HandedOff? || d.phase.Done?
  }

  predicate Holding(d: Driver) {
    d.phase.Calling? || d.phase.Sleeping? || d.phase.Recording? || d.phase.Leaving? || d.phase.HandedOff?
  }

  predicate Expects(d: Driver, input: Input) {
    match d.phase
    case Consider => input.Verdict?
    case Permitted => input.Slotted?
    case Calling => input.Replied? && (input.reply.outcome.EmptyStream? ==> d.streaming)
    case Sleeping => input.Woken?
    case Recording(_) => input.Recorded?
    case Leaving => input.Dropped?
    case HandedOff(_) => false
    case Done(_) => false
  }

  function FellThrough(rejection: Option<Rejection>): FallbackResult {
    match rejection
    case None => NoProviderAvailable
    case Some(r) => AdmissionRejected(r)
  }

  function Start(cands: seq<Candidate>, streaming: bool): Driver {
    Driver(cands, streaming, [], [], if cands == [] then Done(NoProviderAvailable) else Consider, [], 0, None, None, [])
  }

  /** Move on from the current candidate. */
  function Proceed(d: Driver, v: Visit): Driver {
    var visits := d.visits + [v];
    d.(visits := visits, replies := [],
       phase := if |visits| < |d.cands| then Consider else Done(FellThrough(d.rejection)))
  }

  function OnVerdict(d: Driver, allowed: bool): Driver {
    if allowed then d.(phase := Permitted) else Proceed(d, BreakerRefused)
  }

  function OnSlotted(d: Driver, refusal: Option<Rejection>): Driver {
    if refusal.Some? then Proceed(d.(rejection := refusal), AdmissionRefused(refusal.value))
    else d.(phase := Calling, lastRetryable := None)
  }

  function OnReply(d: Driver, r: Reply): Driver
    requires |d.visits| < |d.cands|
  {
    var i := |d.visits|;
    var cand := d.cands[i];
    var order := SatAdd32(d.order, 1);
    var entry := Attempt(cand.name, order, r.latencyMs, r.outcome.Answer?, i > 0,
                         if r.outcome.Answer? then None else Some(Category(ErrorOf(r.outcome))));
    var logged := d.(replies := d.replies + [r], attempts := d.attempts + [entry], order := order);
    if r.outcome.Answer? then logged.(phase := Recording(true))
    else if RetryableReply(r) then
      logged.(lastRetryable := Some(r.outcome.error),
              phase := if |d.replies| < cand.maxRetries then Sleeping else Recording(false))
    else logged.(phase := Leaving)
  }

  function OnRecorded(d: Driver): Driver
    requires |d.visits| < |d.cands| && d.phase.Recording?
  {
    var i := |d.visits|;
    var told := d.(records := d.records + [Record(i, d.phase.success)]);
    if d.phase.success && d.streaming then
      told.(phase := HandedOff(Succeeded(d.cands[i].name, d.attempts)),
            visits := d.visits + [Tried(d.replies)], replies := [])
    else told.(phase := Leaving)
  }

  function OnDropped(d: Driver): Driver
    requires |d.visits| < |d.cands| && d.replies != []
  {
    var i := |d.visits|;
    var outcome := Last(d.replies).outcome;
    var left := d.(visits := d.visits + [Tried(d.replies)], replies := []);
    if outcome.Answer? then left.(phase := Done(Succeeded(d.cands[i].name, d.attempts)))
    else if !RetryableReply(Last(d.replies)) && outcome.Fail? then
      left.(phase := Done(ProviderFailed(outcome.error, d.attempts)))
    else if i + 1 < |d.cands| then left.(phase := Consider)
    else if outcome.EmptyStream? then left.(phase := Done(ProviderFailed(ProviderBadResponse, d.attempts)))
    else if d.lastRetryable.Some? then left.(phase := Done(ProviderFailed(d.lastRetryable.value, d.attempts)))
    else left.(phase := Done(FellThrough(d.rejection)))
  }

  function Next(d: Driver, input: Input): Driver
    requires |d.visits| < |d.cands| && Expects(d, input)
    requires d.phase.Leaving? ==> d.replies != []
  {
    match input
    case Verdict(allowed) => OnVerdict(d, allowed)
    case Slotted(refusal) => OnSlotted(d, refusal)
    case Replied(reply) => OnReply(d, reply)
    case Woken => d.(phase := Calling)
    case Recorded => OnRecorded(d)
    case Dropped => OnDropped(d)
  }

  /** The driver's variables are what the visits so far mean. */
  ghost predicate Inv(d: Driver) {
    && ValidRun(d.cands, d.streaming, d.visits)
    && d.rejection == LastRejection(d.visits)
    && d.order == Min(|d.attempts|, U32_MAX)
    && (if Stopped(d) then InvStopped(d) else InvActive(d))
  }

  ghost predicate InvStopped(d: Driver)
    requires Stopped(d) && ValidRun(d.cands, d.streaming, d.visits)
  {
    && d.replies == []
    && Finished(d.cands, d.visits)
    && d.attempts == AttemptsOf(d.cands, d.visits)
    && d.records == RecordsOf(d.visits)
    && (if d.phase.Done? then d.phase.result else d.phase.streamed) == ResultOf(d.cands, d.visits)
    && (d.phase.HandedOff? ==> d.streaming && d.visits != [] && d.phase.streamed.Succeeded?)
  }

  ghost predicate InvActive(d: Driver)
    requires !Stopped(d) && ValidRun(d.cands, d.streaming, d.visits)
  {
    && |d.visits| < |d.cands|
    && !Finished(d.cands, d.visits)
    && d.attempts == AttemptsOf(d.cands, d.visits) + CurrentBlock(d)
    && d.records == RecordsOf(d.visits) + (if d.phase.Leaving? then RecordFor(|d.visits|, d.replies) else [])
    && InvReplies(d, d.cands[|d.visits|].maxRetries)
  }

  ghost function CurrentBlock(d: Driver): seq<Attempt>
    requires |d.visits| < |d.cands|
  {
    Block(d.cands[|d.visits|], |d.visits|, |AttemptsOf(d.cands, d.visits)|, d.replies)
  }

  ghost predicate InvReplies(d: Driver, maxRetries: nat) {
    match d.phase
    case Consider => d.replies == []
    case Permitted => d.replies == []
    case Calling => |d.replies| <= maxRetries && (forall r :: r in d.replies ==> RetryableReply(r))
    case Sleeping => 1 <= |d.replies| <= maxRetries && (forall r :: r in d.replies ==> RetryableReply(r))
    case Recording(success) =>
      && CompleteTry(maxRetries, d.streaming, d.replies)
      && (if success then Last(d.replies).outcome.Answer? else RetryableReply(Last(d.replies)))
      && (!success ==> d.lastRetryable == Some(Last(d.replies).outcome.error))
    case Leaving =>
      && CompleteTry(maxRetries, d.streaming, d.replies)
      && (Last(d.replies).outcome.Answer? ==> !d.streaming)
      && (RetryableReply(Last(d.replies)) ==> d.lastRetryable == Some(Last(d.replies).outcome.error))
    case _ => true
  }

  lemma StartInv(cands: seq<Candidate>, streaming: bool)
    ensures Inv(Start(cands, streaming))
  {
  }

  lemma BlockSnoc(cand: Candidate, index: nat, position: nat, replies: seq<Reply>, r: Reply)
    ensures Block(cand, index, position, replies + [r]) ==
            Block(cand, index, position, replies) + [AttemptFor(cand, index, position + |replies|, r)]
  {
  }

  lemma ReplyExtendsBlock(d: Driver, r: Reply)
    requires |d.visits| < |d.cands| && d.order == Min(|d.attempts|, U32_MAX)
    requires d.attempts == AttemptsOf(d.cands, d.visits) + CurrentBlock(d)
    ensures var d' := OnReply(d, r);
            && d'.attempts == AttemptsOf(d.cands, d.visits) + CurrentBlock(d')
            && d'.order == Min(|d'.attempts|, U32_MAX)
  {
    var i := |d.visits|;
    BlockSnoc(d.cands[i], i, |AttemptsOf(d.cands, d.visits)|, d.replies, r);
    assert OnReply(d, r).replies == d.replies + [r];
  }

  lemma ReplyKeepsReplies(d: Driver, r: Reply, maxRetries: nat)
    requires |d.visits| < |d.cands| && maxRetries == d.cands[|d.visits|].maxRetries
    requires d.phase.Calling? && InvReplies(d, maxRetries)
    requires r.outcome.EmptyStream? ==> d.streaming
    ensures InvReplies(OnReply(d, r), maxRetries)
  {
    var replies := d.replies + [r];
    assert OnReply(d, r).replies == replies;
    forall k | 0 <= k < |replies| - 1 ensures RetryableReply(replies[k]) {
      assert replies[k] in d.replies;
    }
    assert Last(replies) == r;
  }

  lemma ReplyKeepsInv(d: Driver, r: Reply)
    requires Inv(d) && d.phase.Calling?
    requires r.outcome.EmptyStream? ==> d.streaming
    ensures Inv(OnReply(d, r))
  {
    ReplyExtendsBlock(d, r);
    ReplyKeepsReplies(d, r, d.cands[|d.visits|].maxRetries);
    var d' := OnReply(d, r);
    assert d'.phase.Leaving? ==> RecordFor(|d'.visits|, d'.replies) == [] by {
      assert Last(d'.replies) == r;
    }
  }

  /** Appending a finished candidate to the visits. */
  lemma VisitAppended(cands: seq<Candidate>, streaming: bool, visits: seq<Visit>, v: Visit)
    requires |visits| < |cands| && ValidRun(cands, streaming, visits) && !Finished(cands, visits)
    requires v.Tried? ==> CompleteTry(cands[|visits|].maxRetries, streaming, v.replies)
    ensures ValidRun(cands, streaming, visits + [v])
    ensures LastRejection(visits + [v]) == if v.AdmissionRefused? then Some(v.rejection) else LastRejection(visits)
    ensures AttemptsOf(cands, visits + [v]) == AttemptsOf(cands, visits) +
              (if v.Tried? then Block(cands[|visits|], |visits|, |AttemptsOf(cands, visits)|, v.replies) else [])
    ensures RecordsOf(visits + [v]) == RecordsOf(visits) + (if v.Tried? then RecordFor(|visits|, v.replies) else [])
  {
    assert (visits + [v])[..|visits|] == visits;
    assert forall k :: 0 <= k < |visits| ==> (visits + [v])[k] == visits[k];
    if visits != [] { assert !Conclusive(Last(visits)); }
  }

  lemma VerdictKeepsInv(d: Driver, allowed: bool)
    requires Inv(d) && d.phase.Consider?
    ensures Inv(OnVerdict(d, allowed))
  {
    if !allowed {
      VisitAppended(d.cands, d.streaming, d.visits, BreakerRefused);
      assert Last(d.visits + [BreakerRefused]) == BreakerRefused;
    }
  }

  lemma SlottedKeepsInv(d: Driver, refusal: Option<Rejection>)
    requires Inv(d) && d.phase.Permitted?
    ensures Inv(OnSlotted(d, refusal))
  {
    if refusal.Some? {
      var v := AdmissionRefused(refusal.value);
      VisitAppended(d.cands, d.streaming, d.visits, v);
      assert Last(d.visits + [v]) == v;
    }
  }

  /** About to consider a candidate, with nothing pending. */
  lemma ConsiderInv(d: Driver)
    requires d.phase.Consider? && d.replies == [] && |d.visits| < |d.cands|
    requires ValidRun(d.cands, d.streaming, d.visits) && !Finished(d.cands, d.visits)
    requires d.rejection == LastRejection(d.visits) && d.order == Min(|d.attempts|, U32_MAX)
    requires d.attempts == AttemptsOf(d.cands, d.visits) && d.records == RecordsOf(d.visits)
    ensures Inv(d)
  {
    assert CurrentBlock(d) == [];
    assert d.attempts + [] == d.attempts && d.records + [] == d.records;
  }

  /** Stopped, with everything said by the visits. */
  lemma DoneInv(d: Driver)
    requires d.phase.Done? && d.replies == []
    requires ValidRun(d.cands, d.streaming, d.visits) && Finished(d.cands, d.visits)
    requires d.rejection == LastRejection(d.visits) && d.order == Min(|d.attempts|, U32_MAX)
    requires d.attempts == AttemptsOf(d.cands, d.visits) && d.records == RecordsOf(d.visits)
    requires d.phase.result == ResultOf(d.cands, d.visits)
    ensures Inv(d)
  {
  }

  /** A tried candidate joins the visits, and its calls and record with it. */
  lemma TriedAppended(cands: seq<Candidate>, streaming: bool, visits: seq<Visit>, replies: seq<Reply>,
                      attempts: seq<Attempt>, records: seq<Record>)
    requires |visits| < |cands| && ValidRun(cands, streaming, visits) && !Finished(cands, visits)
    requires CompleteTry(cands[|visits|].maxRetries, streaming, replies)
    requires attempts == AttemptsOf(cands, visits)
        + Block(cands[|visits|], |visits|, |AttemptsOf(cands, visits)|, replies)
    requires records == RecordsOf(visits) + RecordFor(|visits|, replies)
    ensures var w := visits + [Tried(replies)];
            && ValidRun(cands, streaming, w) && LastRejection(w) == LastRejection(visits)
            && attempts == AttemptsOf(cands, w) && records == RecordsOf(w)
  {
    VisitAppended(cands, streaming, visits, Tried(replies));
  }

  /** What a walk that ends on a tried candidate reports. */
  lemma ResultOfTried(cands: seq<Candidate>, visits: seq<Visit>, replies: seq<Reply>, attempts: seq<Attempt>)
    requires |visits| < |cands| && replies != [] && attempts == AttemptsOf(cands, visits + [Tried(replies)])
    ensures ResultOf(cands, visits + [Tried(replies)]) ==
            var outcome := Last(replies).outcome;
            if outcome.Answer? then Succeeded(cands[|visits|].name, attempts)
                else ProviderFailed(ErrorOf(outcome), attempts)
  {
    assert Last(visits + [Tried(replies)]) == Tried(replies);
  }

  /** What the invariant says of a driver that leaves a candidate. */
  ghost predicate LeavingOk(d: Driver) {
    && |d.visits| < |d.cands| && d.replies != []
    && (Last(d.replies).outcome.Answer? ==> !d.streaming)
    && (RetryableReply(Last(d.replies)) ==> d.lastRetryable == Some(Last(d.replies).outcome.error))
    && d.rejection == LastRejection(d.visits) && d.order == Min(|d.attempts|, U32_MAX)
  }

  /** And what its visits say once the candidate is among them. */
  ghost predicate Appended(d: Driver, w: seq<Visit>) {
    && w == d.visits + [Tried(d.replies)] && |w| <= |d.cands|
    && ValidRun(d.cands, d.streaming, w) && LastRejection(w) == LastRejection(d.visits)
    && d.attempts == AttemptsOf(d.cands, w) && d.records == RecordsOf(w)
  }

  lemma DroppedGoesOn(d: Driver, w: seq<Visit>)
    requires LeavingOk(d) && Appended(d, w) && OnDropped(d).phase.Consider?
    ensures Inv(OnDropped(d))
  {
    assert Last(w) == Tried(d.replies);
    ConsiderInv(OnDropped(d));
  }

  lemma DroppedResult(d: Driver, w: seq<Visit>)
    requires LeavingOk(d) && Appended(d, w) && !OnDropped(d).phase.Consider?
    ensures OnDropped(d).phase == Done(ResultOf(d.cands, w)) && Finished(d.cands, w)
  {
    assert Last(w) == Tried(d.replies);
    ResultOfTried(d.cands, d.visits, d.replies, d.attempts);
  }

  /** The candidate is left next, its record made. */
  lemma RecordedLeaves(d: Driver)
    requires Inv(d) && d.phase.Recording? && !(d.phase.success && d.streaming)
    ensures Inv(OnRecorded(d))
  {
  }

  /** The record that a stream's success makes before it is handed off. */
  function Noted(d: Driver): Driver {
    d.(records := d.records + [Record(|d.visits|, true)])
  }

  lemma RecordedHandsOff(d: Driver, w: seq<Visit>)
    requires d.phase == Recording(true) && d.streaming && |d.visits| < |d.cands| && Appended(Noted(d), w)
    requires d.replies != [] && Last(d.replies).outcome.Answer?
    requires d.rejection == LastRejection(d.visits) && d.order == Min(|d.attempts|, U32_MAX)
    ensures Inv(OnRecorded(d))
  {
    assert Last(w) == Tried(d.replies);
    ResultOfTried(d.cands, d.visits, d.replies, d.attempts);
  }

  /** Every step, whatever the world answers, keeps the driver's variables meaningful. */
  lemma NextKeepsInv(d: Driver, input: Input)
    requires Inv(d) && Expects(d, input)
    ensures Inv(Next(d, input))
  {
    match input
    case Verdict(allowed) => VerdictKeepsInv(d, allowed);
    case Slotted(refusal) => SlottedKeepsInv(d, refusal);
    case Replied(r) => ReplyKeepsInv(d, r);
    case Woken =>
    case Recorded =>
      if d.phase.success && d.streaming {
        TriedAppended(d.cands, d.streaming, d.visits, d.replies, d.attempts, Noted(d).records);
        RecordedHandsOff(d, d.visits + [Tried(d.replies)]);
      } else {
        RecordedLeaves(d);
      }
    case Dropped =>
      var w := d.visits + [Tried(d.replies)];
      TriedAppended(d.cands, d.streaming, d.visits, d.replies, d.attempts, d.records);
      assert LeavingOk(d) && Appended(d, w);
      if OnDropped(d).phase.Consider? {
        DroppedGoesOn(d, w);
      } else {
        DroppedResult(d, w);
        DoneInv(OnDropped(d));
      }
  }

  // ---------------------------------------------------------------- termination

  function Work(cands: seq<Candidate>, i: nat): nat
    decreases |cands| - i
  {
    if i >= |cands| then 0 else 3 * (cands[i].maxRetries + 1) + 5 + Work(cands, i + 1)
  }

  /** Steps that a driver can still take. */
  function Measure(d: Driver): int {
    var i := |d.visits|;
    if Stopped(d) || i >= |d.cands| then 0
    else
      var m := d.cands[i].maxRetries;
      match d.phase
      case Consider => Work(d.cands, i)
      case Permitted => Work(d.cands, i) - 1
      case Calling => Work(d.cands, i + 1) + 3 * (m + 1 - |d.replies|) + 3
      case Sleeping => Work(d.cands, i + 1) + 3 * (m + 1 - |d.replies|) + 4
      case Recording(_) => Work(d.cands, i + 1) + 2
      case _ => Work(d.cands, i + 1) + 1
  }

  /** What of the invariant the measure depends on. */
  ghost predicate InStride(d: Driver) {
    && |d.visits| < |d.cands|
    && InvReplies(d, d.cands[|d.visits|].maxRetries)
    && (d.phase.Leaving? ==> d.replies != [])
  }

  lemma StayingDecreases(d: Driver, input: Input)
    requires InStride(d) && Expects(d, input) && (input.Replied? || input.Woken?)
    ensures 0 <= Measure(Next(d, input)) < Measure(d)
  {
    assert |Next(d, input).visits| == |d.visits|;
  }

  /** A driver that has left its candidate has at most the work on the others before it. */
  lemma LeftBehind(e: Driver)
    requires Stopped(e) || e.phase.Consider?
    ensures 0 <= Measure(e) <= Work(e.cands, |e.visits|)
  {
  }

  lemma MovingDecreases(d: Driver, input: Input)
    requires InStride(d) && Expects(d, input) && (input.Verdict? || input.Slotted?)
    ensures 0 <= Measure(Next(d, input)) < Measure(d)
  {
    var i, e := |d.visits|, Next(d, input);
    assert Work(d.cands, i) == 3 * (d.cands[i].maxRetries + 1) + 5 + Work(d.cands, i + 1);
    if |e.visits| == i + 1 { LeftBehind(e); }
  }

  lemma LeavingDecreases(d: Driver, input: Input)
    requires InStride(d) && Expects(d, input) && (input.Recorded? || input.Dropped?)
    ensures 0 <= Measure(Next(d, input)) < Measure(d)
  {
    var e := Next(d, input);
    if |e.visits| == |d.visits| + 1 { LeftBehind(e); }
  }

  /** Each step brings the driver closer to its end: no run goes on for ever. */
  lemma NextDecreases(d: Driver, input: Input)
    requires Inv(d) && Expects(d, input)
    ensures 0 <= Measure(Next(d, input)) < Measure(d)
  {
    assert InStride(d);
    match input
    case Replied(_) => StayingDecreases(d, input);
    case Woken => StayingDecreases(d, input);
    case Recorded => LeavingDecreases(d, input);
    case Dropped => LeavingDecreases(d, input);
    case _ => MovingDecreases(d, input);
  }

  // ---------------------------------------------------------------- a whole run against an environment

  /** Everything a run depends on: the breaker's and admission's answers for each candidate and the
      reply to each call. Any interleaving with other requests shows one request some environment. */
  datatype Env = Env(
    allow: nat -> bool,
    admit: nat -> Option<Rejection>,
    reply: (nat, nat) -> Reply)

  ghost predicate EnvFor(env: Env, streaming: bool) {
    streaming || forall i, k :: !env.reply(i, k).outcome.EmptyStream?
  }

  function Answered(d: Driver, env: Env): Input {
    var i := |d.visits|;
    match d.phase
    case Consider => Verdict(env.allow(i))
    case Permitted => Slotted(env.admit(i))
    case Calling => Replied(env.reply(i, |d.replies|))
    case Sleeping => Woken
    case Recording(_) => Recorded
    case _ => Dropped
  }

  /** The visits are what the environment decided for each candidate. */
  ghost predicate Follows(env: Env, visits: seq<Visit>) {
    forall i :: 0 <= i < |visits| ==> VisitFollows(env, i, visits[i])
  }

  ghost predicate VisitFollows(env: Env, i: nat, v: Visit) {
    match v
    case BreakerRefused => !env.allow(i)
    case AdmissionRefused(r) => env.allow(i) && env.admit(i) == Some(r)
    case Tried(replies) => env.allow(i) && env.admit(i) == None && RepliesFollow(env, i, replies)
  }

  ghost predicate RepliesFollow(env: Env, i: nat, replies: seq<Reply>) {
    forall k :: 0 <= k < |replies| ==> replies[k] == env.reply(i, k)
  }

  ghost predicate DriverFollows(env: Env, d: Driver) {
    && Follows(env, d.visits)
    && RepliesFollow(env, |d.visits|, d.replies)
    && (d.phase.Permitted? ==> env.allow(|d.visits|))
    && (!Stopped(d) && Holding(d) ==> env.allow(|d.visits|) && env.admit(|d.visits|) == None)
  }

  lemma AnswerExpected(d: Driver, env: Env)
    requires Inv(d) && !Stopped(d) && EnvFor(env, d.streaming)
    ensures |d.visits| < |d.cands| && Expects(d, Answered(d, env)) && (d.phase.Leaving? ==> d.replies != [])
  {
  }

  lemma NextKeepsRequest(d: Driver, input: Input)
    requires |d.visits| < |d.cands| && Expects(d, input) && (d.phase.Leaving? ==> d.replies != [])
    ensures Next(d, input).cands == d.cands && Next(d, input).streaming == d.streaming
  {
  }

  lemma AnswerAdvances(d: Driver, env: Env)
    requires Inv(d) && !Stopped(d) && EnvFor(env, d.streaming)
    ensures var input := Answered(d, env);
            && |d.visits| < |d.cands| && Expects(d, input)
            && (d.phase.Leaving? ==> d.replies != [])
            && var d' := Next(d, input);
               Inv(d') && d'.cands == d.cands && d'.streaming == d.streaming && 0 <= Measure(d') < Measure(d)
  {
    var input := Answered(d, env);
    AnswerExpected(d, env);
    NextKeepsRequest(d, input);
    NextKeepsInv(d, input);
    NextDecreases(d, input);
  }

  lemma FollowsSnoc(env: Env, visits: seq<Visit>, v: Visit)
    requires Follows(env, visits) && VisitFollows(env, |visits|, v)
    ensures Follows(env, visits + [v])
  {
  }

  lemma ReplyFollows(d: Driver, env: Env)
    requires |d.visits| < |d.cands| && d.phase.Calling? && DriverFollows(env, d)
    ensures DriverFollows(env, OnReply(d, env.reply(|d.visits|, |d.replies|)))
  {
  }

  lemma AnswerFollows(d: Driver, env: Env)
    requires Inv(d) && !Stopped(d) && EnvFor(env, d.streaming) && DriverFollows(env, d)
    ensures Expects(d, Answered(d, env)) && |d.visits| < |d.cands| && (d.phase.Leaving? ==> d.replies != [])
    ensures DriverFollows(env, Next(d, Answered(d, env)))
  {
    var i := |d.visits|;
    match d.phase {
      case Consider => if !env.allow(i) { FollowsSnoc(env, d.visits, BreakerRefused); }
      case Permitted =>
        var r := env.admit(i);
        if r.Some? { FollowsSnoc(env, d.visits, AdmissionRefused(r.value)); }
      case Calling => ReplyFollows(d, env);
      case Sleeping =>
      case Recording(_) => FollowsSnoc(env, d.visits, Tried(d.replies));
      case Leaving => FollowsSnoc(env, d.visits, Tried(d.replies));
    }
  }

  /** The end of a run that always gets the environment's answers. */
  ghost function RunToEnd(d: Driver, env: Env): (e: Driver)
    requires Inv(d) && EnvFor(env, d.streaming)
    ensures Inv(e) && Stopped(e) && e.cands == d.cands && e.streaming == d.streaming
    decreases Measure(d)
  {
    if Stopped(d) then d
    else
      AnswerAdvances(d, env);
      RunToEnd(Next(d, Answered(d, env)), env)
  }

  lemma {:induction false} RunToEndFollows(d: Driver, env: Env)
    requires Inv(d) && EnvFor(env, d.streaming) && DriverFollows(env, d)
    ensures Follows(env, RunToEnd(d, env).visits)
    decreases Measure(d)
  {
    if !Stopped(d) {
      AnswerAdvances(d, env);
      AnswerFollows(d, env);
      RunToEndFollows(Next(d, Answered(d, env)), env);
    }
  }

  lemma RepliesNotShorter(maxRetries: nat, streaming: bool, a: seq<Reply>, b: seq<Reply>)
    requires CompleteTry(maxRetries, streaming, a) && CompleteTry(maxRetries, streaming, b)
    requires forall k :: 0 <= k < |a| && k < |b| ==> a[k] == b[k]
    ensures |a| >= |b|
  {
  }

  lemma VisitUnique(maxRetries: nat, streaming: bool, env: Env, i: nat, v: Visit, w: Visit)
    requires VisitFollows(env, i, v) && VisitFollows(env, i, w)
    requires v.Tried? ==> CompleteTry(maxRetries, streaming, v.replies)
    requires w.Tried? ==> CompleteTry(maxRetries, streaming, w.replies)
    ensures v == w
  {
    if v.Tried? {
      RepliesNotShorter(maxRetries, streaming, v.replies, w.replies);
      RepliesNotShorter(maxRetries, streaming, w.replies, v.replies);
      assert v.replies == w.replies;
    }
  }

  lemma RunNotShorter(cands: seq<Candidate>, streaming: bool, v: seq<Visit>, w: seq<Visit>)
    requires ValidRun(cands, streaming, v) && Finished(cands, v) && ValidRun(cands, streaming, w)
    requires forall i :: 0 <= i < |v| && i < |w| ==> v[i] == w[i]
    ensures |v| >= |w|
  {
  }

  /** The environment leaves the driver no choice: two finished runs that follow it agree, so the
      loops and the machine report the same. */
  lemma RunUnique(cands: seq<Candidate>, streaming: bool, env: Env, v: seq<Visit>, w: seq<Visit>)
    requires ValidRun(cands, streaming, v) && Finished(cands, v) && Follows(env, v)
    requires ValidRun(cands, streaming, w) && Finished(cands, w) && Follows(env, w)
    ensures v == w
  {
    forall i | 0 <= i < |v| && i < |w| ensures v[i] == w[i] {
      VisitUnique(cands[i].maxRetries, streaming, env, i, v[i], w[i]);
    }
    RunNotShorter(cands, streaming, v, w);
    RunNotShorter(cands, streaming, w, v);
  }
}
