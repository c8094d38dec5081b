/** The source's nested loops (`src/routing/fallback.rs`), against the meaning of a run. */
module FallbackLoops {
  import opened Base
  import opened Admission
  import opened Fallback

  /** A finished run of the driver against an environment, and what it reports. */
  ghost predicate Reports(cands: seq<Candidate>, streaming: bool, env: Env, visits: seq<Visit>,
                          result: FallbackResult, records: seq<Record>)
  {
    && ValidRun(cands, streaming, visits) && Finished(cands, visits) && Follows(env, visits)
    && result == ResultOf(cands, visits)
    && records == RecordsOf(visits)
  }

  /** The loop variables after `visits`, with more candidates to consider. */
  ghost predicate Reached(cands: seq<Candidate>, streaming: bool, env: Env, visits: seq<Visit>,
                          attempts: seq<Attempt>, order: nat, rejection: Option<Rejection>, records: seq<Record>)
  {
    && ValidRun(cands, streaming, visits) && Follows(env, visits)
    && (visits != [] ==> !Conclusive(Last(visits)))
    && attempts == AttemptsOf(cands, visits) && order == Min(|attempts|, U32_MAX)
    && rejection == LastRejection(visits)
    && records == RecordsOf(visits)
  }

  /** The inner loop's variables: retryable replies only, each of them logged. */
  ghost predicate Retrying(cand: Candidate, index: nat, env: Env, before: seq<Attempt>, replies: seq<Reply>,
                           attempts: seq<Attempt>, order: nat)
  {
    && |replies| <= cand.maxRetries
    && RepliesFollow(env, index, replies)
    && (forall k :: 0 <= k < |replies| ==> RetryableReply(replies[k]))
    && attempts == before + Block(cand, index, |before|, replies)
    && order == Min(|attempts|, U32_MAX)
  }

  lemma LogReply(cand: Candidate, index: nat, env: Env, before: seq<Attempt>, replies: seq<Reply>,
                 attempts: seq<Attempt>, order: u32, r: Reply)
    requires Retrying(cand, index, env, before, replies, attempts, order) && r == env.reply(index, |replies|)
    ensures RepliesFollow(env, index, replies + [r])
    ensures var entry := AttemptFor(cand, index, |attempts|, r);
            && entry.order == SatAdd32(order, 1)
            && attempts + [entry] == before + Block(cand, index, |before|, replies + [r])
  {
    BlockSnoc(cand, index, |before|, replies, r);
  }

  /** All calls to one admitted candidate of a non-streaming request. */
  method TryCandidate(cand: Candidate, index: nat, env: Env, before: seq<Attempt>, orderBefore: u32)
    returns (attempts: seq<Attempt>, order: u32, outcome: Outcome, record: Option<bool>, ghost replies: seq<Reply>)
    requires EnvFor(env, false) && orderBefore == Min(|before|, U32_MAX)
    ensures CompleteTry(cand.maxRetries, false, replies) && RepliesFollow(env, index, replies)
    ensures attempts == before + Block(cand, index, |before|, replies) && order == Min(|attempts|, U32_MAX)
    ensures outcome == Last(replies).outcome
    ensures record == if outcome == Answer then Some(true)
                      else if outcome in {Fail(Timeout), Fail(RateLimited), Fail(ProviderUnavailable)} then Some(false)
                      else None
    ensures forall k :: 0 <= k < |replies| - 1 ==>
              replies[k].outcome in {Fail(Timeout), Fail(RateLimited), Fail(ProviderUnavailable)}
    ensures record == Some(false) ==> |replies| == cand.maxRetries + 1
  {
    attempts, order, replies := before, orderBefore, [];
    var retry := 0;
    while true
      invariant 0 <= retry <= cand.maxRetries && retry == |replies|
      invariant Retrying(cand, index, env, before, replies, attempts, order)
      decreases cand.maxRetries - retry
    {
      var reply := env.reply(index, retry);
      outcome := reply.outcome;
      LogReply(cand, index, env, before, replies, attempts, order, reply);
      replies := replies + [reply];
      order := SatAdd32(order, 1);
      if outcome.Answer? {
        attempts := attempts + [Attempt(cand.name, order, reply.latencyMs, true, index > 0, None)];
        record := Some(true);
        return;
      }
      var error := ErrorOf(outcome);
      attempts := attempts + [Attempt(cand.name, order, reply.latencyMs, false, index > 0, Some(Category(error)))];
      if !Retryable(error) {
        record := None;
        return;
      }
      if retry == cand.maxRetries {
        record := Some(false);
        return;
      }
      retry := retry + 1;
    }
  }

  /** A refused candidate only moves the walk on. */
  lemma AfterRefusal(cands: seq<Candidate>, streaming: bool, env: Env, visits: seq<Visit>,
                     attempts: seq<Attempt>, order: nat, rejection: Option<Rejection>, records: seq<Record>, v: Visit)
    requires Reached(cands, streaming, env, visits, attempts, order, rejection, records) && |visits| < |cands|
    requires !v.Tried? && VisitFollows(env, |visits|, v)
    ensures Reached(cands, streaming, env, visits + [v], attempts, order,
                    if v.AdmissionRefused? then Some(v.rejection) else rejection, records)
    ensures Last(visits + [v]) == v
  {
    VisitAppended(cands, streaming, visits, v);
    FollowsSnoc(env, visits, v);
  }

  /** A tried candidate ends the run or moves the walk on. */
  lemma AfterTry(cands: seq<Candidate>, streaming: bool, env: Env, visits: seq<Visit>, before: seq<Attempt>,
                 orderBefore: nat,
                 rejection: Option<Rejection>, records: seq<Record>, replies: seq<Reply>, attempts: seq<Attempt>,
                 order: nat)
    requires Reached(cands, streaming, env, visits, before, orderBefore, rejection, records) && |visits| < |cands|
    requires VisitFollows(env, |visits|, Tried(replies))
    requires CompleteTry(cands[|visits|].maxRetries, streaming, replies)
    requires attempts == before + Block(cands[|visits|], |visits|, |before|, replies)
        && order == Min(|attempts|, U32_MAX)
    ensures var told, i := records + RecordFor(|visits|, replies), |visits|;
            var outcome := Last(replies).outcome;
            && (Conclusive(Tried(replies)) || i + 1 == |cands| ==>
                  Reports(cands, streaming, env, visits + [Tried(replies)],
                          if outcome.Answer? then Succeeded(cands[i].name, attempts)
                              else ProviderFailed(ErrorOf(outcome), attempts),
                          told))
            && (!Conclusive(Tried(replies)) ==>
                  Reached(cands, streaming, env, visits + [Tried(replies)], attempts, order, rejection, told))
  {
    VisitAppended(cands, streaming, visits, Tried(replies));
    FollowsSnoc(env, visits, Tried(replies));
    assert Last(visits + [Tried(replies)]) == Tried(replies);
  }

  lemma AfterLast(cands: seq<Candidate>, streaming: bool, env: Env, visits: seq<Visit>,
                  attempts: seq<Attempt>, order: nat, rejection: Option<Rejection>, records: seq<Record>)
    requires Reached(cands, streaming, env, visits, attempts, order, rejection, records) && |visits| == |cands|
    requires visits != [] ==> !Last(visits).Tried?
    ensures Reports(cands, streaming, env, visits, FellThrough(rejection), records)
  {
  }

  /** What the interruptible machine reports when it runs undisturbed against an environment. */
  ghost function MachineReport(cands: seq<Candidate>, streaming: bool, env: Env): (FallbackResult, seq<Record>)
    requires EnvFor(env, streaming)
  {
    StartInv(cands, streaming);
    var e := RunToEnd(Start(cands, streaming), env);
    (if e.phase.Done? then e.phase.result else e.phase.streamed, e.records)
  }

  method CompleteChat(cands: seq<Candidate>, env: Env)
    returns (result: FallbackResult, records: seq<Record>, ghost visits: seq<Visit>)
    requires EnvFor(env, false)
    ensures (result, records) == MachineReport(cands, false, env)
    ensures Reports(cands, false, env, visits, result, records)
  {
    records, visits := [], [];
    if |cands| == 0 {
      result := NoProviderAvailable;
      LoopsAgreeWithMachine(cands, false, env, visits, result, records);
      return;
    }
    var attempts: seq<Attempt> := [];
    var order: u32 := 0;
    var rejection: Option<Rejection> := None;

    for index := 0 to |cands|
      invariant |visits| == index
      invariant Reached(cands, false, env, visits, attempts, order, rejection, records)
      invariant index == |cands| ==> !Last(visits).Tried?
    {
      var cand := cands[index];
      if !env.allow(index) {
        AfterRefusal(cands, false, env, visits, attempts, order, rejection, records, BreakerRefused);
        visits := visits + [BreakerRefused];
        continue;
      }
      var refusal := env.admit(index);
      if refusal.Some? {
        AfterRefusal(cands, false, env, visits, attempts, order, rejection, records, AdmissionRefused(refusal.value));
        rejection := refusal;
        visits := visits + [AdmissionRefused(refusal.value)];
        continue;
      }
      ghost var before, orderBefore := attempts, order;
      var outcome, record;
      ghost var replies;
      attempts, order, outcome, record, replies := TryCandidate(cand, index, env, attempts, order);
      AfterTry(cands, false, env, visits, before, orderBefore, rejection, records, replies, attempts, order);
      visits := visits + [Tried(replies)];
      if record.Some? {
        records := records + [Record(index, record.value)];
      }
      if outcome.Answer? {
        result := Succeeded(cand.name, attempts);
        LoopsAgreeWithMachine(cands, false, env, visits, result, records);
        return;
      }
      if record.None? || index + 1 == |cands| {
        result := ProviderFailed(ErrorOf(outcome), attempts);
        LoopsAgreeWithMachine(cands, false, env, visits, result, records);
        return;
      }
    }
    AfterLast(cands, false, env, visits, attempts, order, rejection, records);
    result := FellThrough(rejection);
    LoopsAgreeWithMachine(cands, false, env, visits, result, records);
  }

  /** All calls to one admitted candidate of a streaming request. A stream that ends before its first
      event stops the retries without telling the breaker. */
  method TryStreamCandidate(cand: Candidate, index: nat, env: Env, before: seq<Attempt>, orderBefore: u32)
    returns (attempts: seq<Attempt>, order: u32, outcome: Outcome, record: Option<bool>, ghost replies: seq<Reply>)
    requires orderBefore == Min(|before|, U32_MAX)
    ensures CompleteTry(cand.maxRetries, true, replies) && RepliesFollow(env, index, replies)
    ensures attempts == before + Block(cand, index, |before|, replies) && order == Min(|attempts|, U32_MAX)
    ensures outcome == Last(replies).outcome
    ensures record == if outcome == Answer then Some(true)
                      else if outcome in {Fail(Timeout), Fail(RateLimited), Fail(ProviderUnavailable)} then Some(false)
                      else None
    ensures forall k :: 0 <= k < |replies| - 1 ==>
              replies[k].outcome in {Fail(Timeout), Fail(RateLimited), Fail(ProviderUnavailable)}
    ensures record == Some(false) ==> |replies| == cand.maxRetries + 1
  {
    attempts, order, replies := before, orderBefore, [];
    var retry := 0;
    while true
      invariant 0 <= retry <= cand.maxRetries && retry == |replies|
      invariant Retrying(cand, index, env, before, replies, attempts, order)
      decreases cand.maxRetries - retry
    {
      var reply := env.reply(index, retry);
      outcome := reply.outcome;
      LogReply(cand, index, env, before, replies, attempts, order, reply);
      replies := replies + [reply];
      order := SatAdd32(order, 1);
      match outcome {
        case Answer =>
          attempts := attempts + [Attempt(cand.name, order, reply.latencyMs, true, index > 0, None)];
          record := Some(true);
          return;
        case EmptyStream =>
          attempts := attempts
              + [Attempt(cand.name, order, reply.latencyMs, false, index > 0, Some(ProviderBadResponseCategory))];
          record := None;
          return;
        case Fail(error) =>
          attempts := attempts + [Attempt(cand.name, order, reply.latencyMs, false, index > 0, Some(Category(error)))];
          if !Retryable(error) {
            record := None;
            return;
          }
          if retry == cand.maxRetries {
            record := Some(false);
            return;
          }
      }
      retry := retry + 1;
    }
  }

  method CompleteChatStream(cands: seq<Candidate>, env: Env)
    returns (result: FallbackResult, records: seq<Record>, ghost visits: seq<Visit>)
    ensures (result, records) == MachineReport(cands, true, env)
    ensures Reports(cands, true, env, visits, result, records)
  {
    records, visits := [], [];
    if |cands| == 0 {
      result := NoProviderAvailable;
      LoopsAgreeWithMachine(cands, true, env, visits, result, records);
      return;
    }
    var attempts: seq<Attempt> := [];
    var order: u32 := 0;
    var rejection: Option<Rejection> := None;

    for index := 0 to |cands|
      invariant |visits| == index
      invariant Reached(cands, true, env, visits, attempts, order, rejection, records)
      invariant index == |cands| ==> !Last(visits).Tried?
    {
      var cand := cands[index];
      if !env.allow(index) {
        AfterRefusal(cands, true, env, visits, attempts, order, rejection, records, BreakerRefused);
        visits := visits + [BreakerRefused];
        continue;
      }
      var refusal := env.admit(index);
      if refusal.Some? {
        AfterRefusal(cands, true, env, visits, attempts, order, rejection, records, AdmissionRefused(refusal.value));
        rejection := refusal;
        visits := visits + [AdmissionRefused(refusal.value)];
        continue;
      }
      ghost var before, orderBefore := attempts, order;
      var outcome, record;
      ghost var replies;
      attempts, order, outcome, record, replies := TryStreamCandidate(cand, index, env, attempts, order);
      AfterTry(cands, true, env, visits, before, orderBefore, rejection, records, replies, attempts, order);
      visits := visits + [Tried(replies)];
      if record.Some? {
        records := records + [Record(index, record.value)];
      }
      if outcome.Answer? {
        result := Succeeded(cand.name, attempts);
        LoopsAgreeWithMachine(cands, true, env, visits, result, records);
        return;
      }
      if index + 1 == |cands| || (outcome.Fail? && record.None?) {
        result := ProviderFailed(ErrorOf(outcome), attempts);
        LoopsAgreeWithMachine(cands, true, env, visits, result, records);
        return;
      }
    }
    AfterLast(cands, true, env, visits, attempts, order, rejection, records);
    result := FellThrough(rejection);
    LoopsAgreeWithMachine(cands, true, env, visits, result, records);
  }

  /** The loops report exactly what the interruptible machine reports against the same environment. */
  lemma LoopsAgreeWithMachine(cands: seq<Candidate>, streaming: bool, env: Env, visits: seq<Visit>,
                              result: FallbackResult, records: seq<Record>)
    requires EnvFor(env, streaming) && Reports(cands, streaming, env, visits, result, records)
    ensures (result, records) == MachineReport(cands, streaming, env)
    ensures Inv(Start(cands, streaming)) && RunToEnd(Start(cands, streaming), env).visits == visits
  {
    StartInv(cands, streaming);
    var e := RunToEnd(Start(cands, streaming), env);
    RunToEndFollows(Start(cands, streaming), env);
    RunUnique(cands, streaming, env, e.visits, visits);
  }

  /** If the first candidate's circuit lets the call through and a slot is free, the first attempt
      is made on it. */
  lemma FirstAttemptOnHead(cands: seq<Candidate>, streaming: bool, env: Env, visits: seq<Visit>,
                           result: FallbackResult, records: seq<Record>)
    requires cands != [] && Reports(cands, streaming, env, visits, result, records)
    requires env.allow(0) && env.admit(0) == None
    ensures (result.Succeeded? || result.ProviderFailed?) && result.attempts != [] ==>
              result.attempts[0].provider == cands[0].name && result.attempts[0].order == 1
                  && !result.attempts[0].isFallback
    ensures var log := AttemptsOf(cands, visits); log != [] && log[0].provider == cands[0].name && !log[0].isFallback
  {
    assert VisitFollows(env, 0, visits[0]);
    LogIsBlocks(cands, visits, 0);
    var log := AttemptsOf(cands, visits);
    assert CompleteTry(cands[0].maxRetries, streaming, visits[0].replies);
    assert Offset(visits, 1) == Offset(visits, 0) + |visits[0].replies|;
    assert log[0] == log[Offset(visits, 0)..Offset(visits, 1)][0];
  }

  // ---------------------------------------------------------------- a report in terms of what happened

  /** What became of a candidate, from the answers alone: it is skipped, refused, or called until a call
      ends in anything but a timeout, a rate limit or an unavailable provider, at most `max_retries + 1`
      times. Only those three errors, or a stream without events, let the walk go on after a try. Its
      breaker hears of a success or, after one of the three, of a failure. */
  lemma VisitExact(cands: seq<Candidate>, streaming: bool, env: Env, visits: seq<Visit>, result: FallbackResult,
                   records: seq<Record>, i: nat)
    requires Reports(cands, streaming, env, visits, result, records) && i < |visits|
    ensures visits[i].BreakerRefused? <==> !env.allow(i)
    ensures visits[i].AdmissionRefused? ==> env.allow(i) && env.admit(i) == Some(visits[i].rejection)
    ensures visits[i].Tried? <==> env.allow(i) && env.admit(i) == None
    ensures visits[i].Tried? ==>
              var n := |visits[i].replies|;
              && 1 <= n <= cands[i].maxRetries + 1
              && (forall k :: 0 <= k < n ==> visits[i].replies[k] == env.reply(i, k))
              && (forall k :: 0 <= k < n - 1 ==>
                    env.reply(i, k).outcome in {Fail(Timeout), Fail(RateLimited), Fail(ProviderUnavailable)})
              && (env.reply(i, n - 1).outcome in {Fail(Timeout), Fail(RateLimited), Fail(ProviderUnavailable)} ==>
                    n == cands[i].maxRetries + 1)
    ensures i + 1 < |visits| <==>
            && i + 1 < |cands|
            && (visits[i].Tried? ==>
                  env.reply(i, |visits[i].replies| - 1).outcome
                  in {Fail(Timeout), Fail(RateLimited), Fail(ProviderUnavailable), EmptyStream})
    ensures Record(i, true) in records <==>
            visits[i].Tried? && env.reply(i, |visits[i].replies| - 1).outcome == Answer
    ensures Record(i, false) in records <==>
            visits[i].Tried? && env.reply(i, |visits[i].replies| - 1).outcome in
              {Fail(Timeout), Fail(RateLimited), Fail(ProviderUnavailable)}
  {
    assert VisitFollows(env, i, visits[i]);
    if visits[i].Tried? { assert CompleteTry(cands[i].maxRetries, streaming, visits[i].replies); }
    RecordsExact(visits, i, true);
    RecordsExact(visits, i, false);
    GoesOnExact(cands, streaming, visits, i);
  }

  lemma GoesOnExact(cands: seq<Candidate>, streaming: bool, visits: seq<Visit>, i: nat)
    requires ValidRun(cands, streaming, visits) && Finished(cands, visits) && i < |visits|
    ensures i + 1 < |visits| <==>
            && i + 1 < |cands|
            && (visits[i].Tried? ==>
                  && visits[i].replies != []
                  && Last(visits[i].replies).outcome
                     in {Fail(Timeout), Fail(RateLimited), Fail(ProviderUnavailable), EmptyStream})
  {
    if visits[i].Tried? { assert CompleteTry(cands[i].maxRetries, streaming, visits[i].replies); }
    if i + 1 < |visits| { assert !Conclusive(visits[i]); }
  }

  /** The log entry of each call, field by field. */
  lemma LogExact(cands: seq<Candidate>, streaming: bool, env: Env, visits: seq<Visit>, result: FallbackResult,
                 records: seq<Record>, i: nat, k: nat)
    requires Reports(cands, streaming, env, visits, result, records)
    requires i < |visits| && visits[i].Tried? && k < |visits[i].replies|
    ensures var log, at, outcome := AttemptsOf(cands, visits), Offset(visits, i) + k, env.reply(i, k).outcome;
            && at < |log|
            && log[at].provider == cands[i].name && log[at].latencyMs == env.reply(i, k).latencyMs
            && (log[at].isFallback <==> i >= 1) && (log[at].success <==> outcome == Answer)
            && log[at].order == (if at < 4_294_967_295 then at + 1 else 4_294_967_295)
            && log[at].category == (match outcome
                                    case Answer => None
                                    case EmptyStream => Some(ProviderBadResponseCategory)
                                    case Fail(Timeout) => Some(TimeoutCategory)
                                    case Fail(RateLimited) => Some(RateLimitedCategory)
                                    case Fail(AuthenticationFailed) => Some(AuthenticationFailedCategory)
                                    case Fail(ProviderUnavailable) => Some(ProviderUnavailableCategory)
                                    case Fail(ProviderBadResponse) => Some(ProviderBadResponseCategory))
  {
    LogAt(cands, visits, i, k);
    assert VisitFollows(env, i, visits[i]);
  }

  lemma LogAt(cands: seq<Candidate>, visits: seq<Visit>, i: nat, k: nat)
    requires i < |visits| <= |cands| && visits[i].Tried? && k < |visits[i].replies|
    ensures var log, at := AttemptsOf(cands, visits), Offset(visits, i) + k;
            at < |log| && log[at] == AttemptFor(cands[i], i, at, visits[i].replies[k])
  {
    LogIsBlocks(cands, visits, i);
    var log, from := AttemptsOf(cands, visits), Offset(visits, i);
    assert Offset(visits, i + 1) == from + |visits[i].replies|;
    assert log[from..Offset(visits, i + 1)][k] == log[from + k];
  }

  /** The reported result, from the last candidate that was looked at. */
  lemma ResultExact(cands: seq<Candidate>, streaming: bool, env: Env, visits: seq<Visit>, result: FallbackResult,
                    records: seq<Record>)
    requires Reports(cands, streaming, env, visits, result, records)
    ensures var n := |visits| - 1;
            match result
            case Succeeded(provider, attempts) =>
              && n >= 0 && visits[n].Tried? && Last(visits[n].replies).outcome == Answer
              && provider == cands[n].name && attempts == AttemptsOf(cands, visits)
            case ProviderFailed(error, attempts) =>
              && n >= 0 && visits[n].Tried? && attempts == AttemptsOf(cands, visits)
              && (Last(visits[n].replies).outcome == Fail(error)
                  || (Last(visits[n].replies).outcome == EmptyStream && error == ProviderBadResponse))
            case AdmissionRejected(r) =>
              && |visits| == |cands| && n >= 0 && !visits[n].Tried?
              && (exists i :: 0 <= i < |visits| && visits[i] == AdmissionRefused(r)
                              && forall j :: i < j < |visits| ==> !visits[j].AdmissionRefused?)
            case NoProviderAvailable =>
              && |visits| == |cands| && (n >= 0 ==> !visits[n].Tried?)
              && (forall i :: 0 <= i < |visits| ==> visits[i].BreakerRefused? || visits[i].Tried?)
  {
    var n := |visits| - 1;
    if n >= 0 && visits[n].Tried? {
      assert CompleteTry(cands[n].maxRetries, streaming, visits[n].replies);
    } else {
      RejectionIffRefused(visits);
      LastRejectionExact(visits);
    }
  }

  /** The remembered refusal is the latest one. */
  lemma {:induction false} LastRejectionExact(visits: seq<Visit>)
    ensures LastRejection(visits).Some? ==>
              exists i :: 0 <= i < |visits| && visits[i] == AdmissionRefused(LastRejection(visits).value)
                          && forall j :: i < j < |visits| ==> !visits[j].AdmissionRefused?
  {
    if visits != [] {
      var n := |visits| - 1;
      if visits[n].AdmissionRefused? {
        assert visits[n] == AdmissionRefused(LastRejection(visits).value);
      } else if LastRejection(visits).Some? {
        LastRejectionExact(visits[..n]);
        var i :| 0 <= i < n && visits[..n][i] == AdmissionRefused(LastRejection(visits).value)
                 && forall j :: i < j < n ==> !visits[..n][j].AdmissionRefused?;
        forall j | i < j < |visits| ensures !visits[j].AdmissionRefused? {
          if j < n { assert visits[..n][j] == visits[j]; }
        }
        assert visits[i] == visits[..n][i];
      }
    }
  }

  /** A first candidate that always fails with the same error: exactly for a timeout, a rate limit or an
      unavailable provider it is called `max_retries + 1` times, its breaker hears of one failure, and the
      second candidate is looked at; for the other two errors it is called once, its breaker hears
      nothing, and the walk ends with that error. */
  lemma AlwaysFailing(cands: seq<Candidate>, streaming: bool, env: Env, visits: seq<Visit>, result: FallbackResult,
                      records: seq<Record>, e: ProviderError)
    requires Reports(cands, streaming, env, visits, result, records) && |cands| >= 2
    requires env.allow(0) && env.admit(0) == None && forall k :: env.reply(0, k).outcome == Fail(e)
    ensures |visits| >= 2 <==> e == Timeout || e == RateLimited || e == ProviderUnavailable
    ensures visits[0].Tried?
    ensures e == Timeout || e == RateLimited || e == ProviderUnavailable ==>
              |visits[0].replies| == cands[0].maxRetries + 1 && Record(0, false) in records
    ensures e == AuthenticationFailed || e == ProviderBadResponse ==>
              && |visits[0].replies| == 1 && records == [] && result.ProviderFailed? && result.error == e
              && |result.attempts| == 1
    ensures Record(0, true) !in records
  {
    VisitExact(cands, streaming, env, visits, result, records, 0);
    assert env.reply(0, 0).outcome == Fail(e) && env.reply(0, |visits[0].replies| - 1).outcome == Fail(e);
    if e == AuthenticationFailed || e == ProviderBadResponse {
      ResultExact(cands, streaming, env, visits, result, records);
      assert visits[..0] == [] && visits == [visits[0]];
      assert RecordsOf(visits) == RecordsOf(visits[..0]) + RecordFor(0, visits[0].replies);
      AttemptsLength(cands, visits);
    }
  }
}
