/** The generators behind streamed answers: the chat loop (`src/routes/chat.rs`), the Responses loop
    (`src/routes/compat.rs`) and what they share (`src/routes/shared.rs`, `StreamMetricsGuard`).

    A generator runs when its consumer polls it and stops for good when it is dropped. `patience` is
    the number of suspensions, at a yield or an await, after which the consumer polls again; at the
    next one it drops the generator. */
module Streams {
  import opened Base
  import opened Fallback

  datatype TokenUsage = TokenUsage(promptTokens: u32, completionTokens: u32, totalTokens: u32)

  datatype StreamOutcome = Completed | MidStreamFailure | IdleTimedOut | Incomplete | Cancelled

  /** `StreamItem`. A chunk has its serialised payload, unless that fails, and its choices' deltas. */
  datatype Item =
    | Chunk(payload: Option<string>, deltas: seq<Option<string>>)
    | Complete(usage: TokenUsage)
    | Error(error: ProviderError)
    | IdleTimeout
    | End

  datatype Emission =
    | Payload(text: string)
    | Delta(text: string)
    | ResponseCompleted(text: string, usage: TokenUsage)
    | DoneMarker
    | ErrorEvent

  datatype RequestResult =
    | Success(usage: TokenUsage, attempts: seq<Attempt>)
    | Failure(category: ErrorCategory, attempts: seq<Attempt>)

  // ---------------------------------------------------------------- the outcome guard

  class StreamMetricsGuard {
    var active: bool
    var recorded: seq<StreamOutcome>

    ghost predicate Valid()
      reads this
    {
      |recorded| == if active then 0 else 1
    }

    constructor ()
      ensures Valid() && active && recorded == []
    {
      active, recorded := true, [];
    }

    /** Only the first outcome counts; dropping the guard finishes it as cancelled. */
    method Finish(outcome: StreamOutcome)
      requires Valid()
      modifies this
      ensures Valid() && !active
      ensures recorded == if old(active) then [outcome] else old(recorded)
    {
      if active {
        recorded := recorded + [outcome];
        active := false;
      }
    }
  }

  // ---------------------------------------------------------------- upstream

  /** The first event was read by the fallback driver; the rest comes from the provider. */
  datatype Feed = Feed(first: Item, upstream: nat -> Item)

  ghost predicate FeedOk(feed: Feed) {
    feed.first.Chunk? || feed.first.Complete?
  }

  function At(feed: Feed, i: nat): Item {
    if i == 0 then feed.first else feed.upstream(i - 1)
  }

  /** The event that the driver read comes first, then the provider's own, each once. */
  lemma FeedExact(feed: Feed, i: nat)
    ensures At(feed, 0) == feed.first && At(feed, i + 1) == feed.upstream(i)
  {
  }

  class Upstream {
    const feed: Feed
    var firstEvent: Option<Item>
    var position: nat

    ghost function Consumed(): nat
      reads this
    {
      if firstEvent.Some? then 0 else position + 1
    }

    ghost predicate Valid()
      reads this
    {
      firstEvent.Some? ==> firstEvent == Some(feed.first) && position == 0
    }

    constructor (feed: Feed)
      ensures Valid() && this.feed == feed && Consumed() == 0
    {
      this.feed, firstEvent, position := feed, Some(feed.first), 0;
    }

    /** `next_stream_item`: hands out every item once and in order. The future may be dropped while
        it waits; the first event is there at once. */
    method NextStreamItem(patience: nat) returns (item: Option<Item>, left: nat)
      requires Valid()
      modifies this
      ensures Valid()
      ensures item.Some? ==> item.value == At(feed, old(Consumed())) && Consumed() == old(Consumed()) + 1
      ensures item.Some? ==> left == if old(Consumed()) == 0 then patience else patience - 1
      ensures item.None? <==> old(Consumed()) > 0 && patience == 0
      ensures item.None? ==> Consumed() == old(Consumed())
      ensures left <= patience
    {
      if firstEvent.Some? {
        item, left := firstEvent, patience;
        firstEvent := None;
        return;
      }
      if patience == 0 {
        return None, 0;
      }
      item, left := Some(feed.upstream(position)), patience - 1;
      position := position + 1;
    }
  }

  /** The last attempt is rewritten when the stream broke or stalled after it had been logged. */
  function PatchLast(attempts: seq<Attempt>, category: ErrorCategory, latencyMs: u64): seq<Attempt> {
    if attempts == [] then []
    else
      attempts[..|attempts| - 1] +
      [Last(attempts).(success := false, category := Some(category), latencyMs := latencyMs)]
  }

  // ---------------------------------------------------------------- what the end of a stream means

  function OutcomeOf(item: Item): StreamOutcome {
    match item
    case Complete(_) => Completed
    case IdleTimeout => IdleTimedOut
    case End => Incomplete
    case _ => MidStreamFailure
  }

  function ResultFor(item: Item, attempts: seq<Attempt>, latencyMs: u64): RequestResult {
    match item
    case Complete(usage) => Success(usage, attempts)
    case Error(e) => Failure(Category(e), PatchLast(attempts, Category(e), latencyMs))
    case IdleTimeout => Failure(Category(Timeout), PatchLast(attempts, Category(Timeout), latencyMs))
    case _ => Failure(Category(ProviderBadResponse), attempts)
  }

  datatype Trace = Trace(emitted: seq<Emission>, outcomes: seq<StreamOutcome>, results: seq<RequestResult>)

  // ---------------------------------------------------------------- chat

  /** A chunk that can be passed on; anything else ends the stream. */
  predicate Passes(item: Item) {
    item.Chunk? && item.payload.Some?
  }

  function PayloadOf(item: Item): string {
    if Passes(item) then item.payload.value else ""
  }

  /** The first `n` items, passed on. */
  function Payloads(feed: Feed, n: nat): seq<Emission> {
    seq(n, i requires 0 <= i < n => Payload(PayloadOf(At(feed, i))))
  }

  function ChatEnd(item: Item): Emission {
    if item.Complete? then DoneMarker else ErrorEvent
  }

  /** Where a stream stopped: the consumer left before the end was reached, or at the yield that
      announces it, or after the outcome was recorded; or it ran to the end. */
  datatype Stop = Waiting | AtFinalYield | AfterFinish | Ran

  /** Log entries are written behind awaits: one after a failure, two after a success. */
  function LogAwaits(item: Item): nat {
    if item.Complete? then 2 else 1
  }

  /** A chat stream that passed on `n` items. Its consumer's patience decides where it stopped. */
  ghost predicate ChatTrace(feed: Feed, attempts: seq<Attempt>, latencyMs: u64, patience: nat, n: nat, stop: Stop,
                            t: Trace) {
    && (forall i :: 0 <= i < n ==> Passes(At(feed, i)))
    && (match stop
        case Waiting =>
          2 * n - 2 <= patience < 2 * n && t == Trace(Payloads(feed, n), [Cancelled], [])
        case AtFinalYield =>
          patience == 2 * n && !Passes(At(feed, n))
          && t == Trace(Payloads(feed, n) + [ChatEnd(At(feed, n))], [Cancelled], [])
        case _ =>
          !Passes(At(feed, n))
          && 2 * n < patience && (stop.Ran? <==> 2 * n + LogAwaits(At(feed, n)) < patience)
          && t == Trace(Payloads(feed, n) + [ChatEnd(At(feed, n))],
                        [OutcomeOf(At(feed, n))], [ResultFor(At(feed, n), attempts, latencyMs)]))
  }

  /** The chat generator, dropped after `patience` suspensions unless it ends before. */
  method ChatBody(feed: Feed, logged: seq<Attempt>, latencyMs: u64, patience: nat)
    returns (t: Trace, ghost n: nat, ghost stop: Stop)
    requires FeedOk(feed)
    ensures |t.outcomes| == 1 && |t.results| <= 1
    ensures forall i :: 0 <= i < |t.emitted| - 1 ==> t.emitted[i].Payload?
    ensures ChatTrace(feed, logged, latencyMs, patience, n, stop, t)
  {
    var guard := new StreamMetricsGuard();
    var source := new Upstream(feed);
    var usage: Option<TokenUsage> := None;
    var streamFailed := false;
    var category: Option<ErrorCategory> := None;
    var outcome: Option<StreamOutcome> := None;
    var attempts := logged;
    var emitted: seq<Emission> := [];
    var left: nat := patience;
    var running, dropped := true, false;
    ghost var ended := false;
    n := 0;
    while running
      invariant guard.Valid() && guard.active && source.Valid() && source.feed == feed
      invariant forall i :: 0 <= i < n ==> Passes(At(feed, i))
      invariant running ==> !ended && !dropped && source.Consumed() == n && left == patience - Max(0, 2 * n - 1)
      invariant running ==> usage.None? && !streamFailed && attempts == logged
      invariant !running && !ended ==> dropped && 2 * n - 2 <= patience < 2 * n
      invariant ended ==> !running && !Passes(At(feed, n))
      invariant ended && dropped ==> patience == 2 * n
      invariant ended && !dropped ==>
                  2 * n < patience && left == patience - 2 * n - 1
                  && Concluded(At(feed, n), logged, latencyMs, usage, streamFailed, category, outcome, attempts)
      invariant emitted == Payloads(feed, n) + (if ended then [ChatEnd(At(feed, n))] else [])
      decreases running, left, if source.Consumed() == 0 then 1 else 0
    {
      var item: Option<Item>;
      item, left := source.NextStreamItem(left);
      if item.None? {
        running, dropped := false, true;
      } else if Passes(item.value) {
        emitted := emitted + [Payload(item.value.payload.value)];
        n := n + 1;
        if left == 0 { running, dropped := false, true; } else { left := left - 1; }
      } else {
        running, ended := false, true;
        emitted := emitted + [ChatEnd(item.value)];
        match item.value {
          case Chunk(_, _) =>
            streamFailed, category, outcome := true, Some(Category(ProviderBadResponse)), Some(MidStreamFailure);
          case Complete(u) =>
            usage := Some(u);
          case Error(e) =>
            streamFailed, category, outcome := true, Some(Category(e)), Some(MidStreamFailure);
          case IdleTimeout =>
            streamFailed, category, outcome := true, Some(Category(Timeout)), Some(IdleTimedOut);
          case End =>
            streamFailed, category, outcome := true, Some(Category(ProviderBadResponse)), Some(Incomplete);
        }
        if left == 0 {
          dropped := true;
        } else {
          left := left - 1;
          if item.value.Error? || item.value.IdleTimeout? {
            attempts := PatchLast(attempts, category.value, latencyMs);
          }
        }
      }
    }
    stop := if ended then AtFinalYield else Waiting;
    var results: seq<RequestResult> := [];
    if !dropped {
      results := Settle(guard, usage, streamFailed, category, outcome, attempts);
      stop := if left < LogAwaits(At(feed, n)) then AfterFinish else Ran;
    }
    guard.Finish(Cancelled);
    t := Trace(emitted, guard.recorded, results);
    ChatPromises(feed, logged, latencyMs, patience, n, stop, t);
  }

  /** The flags after a loop that ended on `item`. */
  ghost predicate Concluded(item: Item, logged: seq<Attempt>, latencyMs: u64, usage: Option<TokenUsage>,
                            streamFailed: bool,
                            category: Option<ErrorCategory>, outcome: Option<StreamOutcome>, attempts: seq<Attempt>)
  {
    && streamFailed == !item.Complete?
    && usage == (if item.Complete? then Some(item.usage) else None)
    && (streamFailed ==> outcome == Some(OutcomeOf(item)))
    && ResultFor(item, logged, latencyMs) ==
       (if item.Complete? then Success(item.usage, attempts)
        else Failure(category.UnwrapOr(Category(ProviderBadResponse)), attempts))
  }

  /** The code after the loop: one outcome and one request result. */
  method Settle(guard: StreamMetricsGuard, usage: Option<TokenUsage>, streamFailed: bool,
                category: Option<ErrorCategory>,
                outcome: Option<StreamOutcome>, attempts: seq<Attempt>)
    returns (results: seq<RequestResult>)
    requires guard.Valid() && guard.active
    modifies guard
    ensures guard.Valid() && !guard.active
    ensures var failed := streamFailed || usage.None?;
            && guard.recorded == [if failed then outcome.UnwrapOr(MidStreamFailure) else Completed]
            && results == [if failed then Failure(category.UnwrapOr(Category(ProviderBadResponse)), attempts)
                           else Success(usage.value, attempts)]
  {
    if streamFailed || usage.None? {
      guard.Finish(outcome.UnwrapOr(MidStreamFailure));
      results := [Failure(category.UnwrapOr(Category(ProviderBadResponse)), attempts)];
    } else {
      guard.Finish(Completed);
      results := [Success(usage.value, attempts)];
    }
  }

  /** What a consumer of a chat stream can rely on, whenever it leaves: one outcome; at most one
      request result, and exactly one unless it left before the end was announced and taken; every
      event but the last is a chunk, in order; the end marker comes only, and always, after the
      provider's completion. */
  lemma ChatPromises(feed: Feed, attempts: seq<Attempt>, latencyMs: u64, patience: nat, n: nat, stop: Stop, t: Trace)
    requires ChatTrace(feed, attempts, latencyMs, patience, n, stop, t)
    ensures |t.outcomes| == 1
    ensures |t.results| == (if stop.Waiting? || stop.AtFinalYield? then 0 else 1)
    ensures forall i :: 0 <= i < |t.emitted| - 1 ==> t.emitted[i].Payload?
    ensures DoneMarker in t.emitted <==> !stop.Waiting? && At(feed, n).Complete?
    ensures ErrorEvent in t.emitted <==> !stop.Waiting? && !At(feed, n).Complete?
    ensures stop.Ran? ==> (Last(t.emitted) == DoneMarker <==> t.outcomes == [Completed])
    ensures stop.Ran? ==> (Last(t.emitted) == DoneMarker <==> t.results[0].Success?)
  {
    assert forall e :: e in Payloads(feed, n) ==> e.Payload?;
    if !stop.Waiting? {
      assert t.emitted == Payloads(feed, n) + [ChatEnd(At(feed, n))];
      assert Last(t.emitted) == ChatEnd(At(feed, n));
    }
  }

  /** What the end of a stream is recorded as, by the item that ended it. A broken or stalled stream takes
      back the success of the attempt that opened it; other fields and attempts stay. */
  lemma EndExact(item: Item, attempts: seq<Attempt>, latencyMs: u64)
    ensures OutcomeOf(item) == (match item
                                case Complete(_) => Completed
                                case Error(_) => MidStreamFailure
                                case IdleTimeout => IdleTimedOut
                                case End => Incomplete
                                case Chunk(_, _) => MidStreamFailure)
    ensures item.Complete? ==> ResultFor(item, attempts, latencyMs) == Success(item.usage, attempts)
    ensures !item.Complete? ==>
              var r := ResultFor(item, attempts, latencyMs);
              && r.Failure?
              && r.category == (match item
                                case Error(Timeout) => TimeoutCategory
                                case Error(RateLimited) => RateLimitedCategory
                                case Error(AuthenticationFailed) => AuthenticationFailedCategory
                                case Error(ProviderUnavailable) => ProviderUnavailableCategory
                                case IdleTimeout => TimeoutCategory
                                case _ => ProviderBadResponseCategory)
              && |r.attempts| == |attempts|
              && (forall i :: 0 <= i < |attempts| - 1 ==> r.attempts[i] == attempts[i])
              && (attempts != [] && (item.Chunk? || item.End?) ==> Last(r.attempts) == Last(attempts))
              && (attempts != [] && (item.Error? || item.IdleTimeout?) ==>
                    var old', new' := Last(attempts), Last(r.attempts);
                    && !new'.success && new'.category == Some(r.category) && new'.latencyMs == latencyMs
                    && new'.provider == old'.provider && new'.order == old'.order
                    && new'.isFallback == old'.isFallback)
  {
  }

  /** What a chat consumer is sent: the payload of every chunk in order, up to the first item that is no
      chunk or has none, which is announced. The outcome and the result are recorded once the consumer
      has taken the announcement and polls again. */
  lemma ChatExact(feed: Feed, attempts: seq<Attempt>, latencyMs: u64, patience: nat, n: nat, stop: Stop, t: Trace)
    requires ChatTrace(feed, attempts, latencyMs, patience, n, stop, t)
    ensures |t.emitted| == n + (if patience < 2 * n then 0 else 1)
    ensures forall i :: 0 <= i < n ==>
              At(feed, i).Chunk? && At(feed, i).payload.Some? && t.emitted[i] == Payload(At(feed, i).payload.value)
    ensures patience >= 2 * n ==>
              && (At(feed, n).Chunk? ==> At(feed, n).payload.None?)
              && t.emitted[n] == (if At(feed, n).Complete? then DoneMarker else ErrorEvent)
    ensures patience <= 2 * n ==> t.outcomes == [Cancelled] && t.results == []
    ensures patience > 2 * n ==>
              t.outcomes == [OutcomeOf(At(feed, n))] && t.results == [ResultFor(At(feed, n), attempts, latencyMs)]
    ensures stop.Ran? <==> patience > 2 * n + (if At(feed, n).Complete? then 2 else 1)
  {
  }

  /** Two runs on the same provider stream agree as far as the less patient one goes. */
  lemma ChatPrefix(feed: Feed, attempts: seq<Attempt>, latencyMs: u64, p: nat, n: nat, stop: Stop, t: Trace,
                   q: nat, m: nat, stop': Stop, t': Trace)
    requires ChatTrace(feed, attempts, latencyMs, p, n, stop, t)
    requires ChatTrace(feed, attempts, latencyMs, q, m, stop', t')
    requires p <= q
    ensures t.emitted <= t'.emitted
    ensures stop.Ran? ==> t == t'
  {
    assert n <= m ==> Payloads(feed, n) <= Payloads(feed, m);
  }

  /** A client that got the end marker may still be counted as cancelled: exactly when it does not
      poll once more after receiving it. */
  lemma DoneYetCancelled(feed: Feed, attempts: seq<Attempt>, latencyMs: u64, patience: nat, n: nat, stop: Stop,
                         t: Trace)
    requires ChatTrace(feed, attempts, latencyMs, patience, n, stop, t) && DoneMarker in t.emitted
    ensures t.outcomes == [Completed] <==> patience > 2 * n
    ensures t.outcomes == [Cancelled] <==> patience == 2 * n
    ensures patience >= 2 * n
  {
    ChatPromises(feed, attempts, latencyMs, patience, n, stop, t);
  }

  /** Such a client: the provider completes at once, the marker is sent, and nobody polls again. */
  lemma DoneButCancelled(usage: TokenUsage)
    ensures var feed := Feed(Complete(usage), _ => End);
            FeedOk(feed) && ChatTrace(feed, [], 0, 0, 0, AtFinalYield, Trace([DoneMarker], [Cancelled], []))
  {
    var feed := Feed(Complete(usage), _ => End);
    assert Payloads(feed, 0) + [ChatEnd(At(feed, 0))] == [DoneMarker];
  }

  // ---------------------------------------------------------------- Responses

  const MAX_STREAM_OUTPUT_CHARS: nat := 256 * 1024

  function Somes(deltas: seq<Option<string>>): seq<string> {
    if deltas == [] then []
    else
      var before := Somes(deltas[..|deltas| - 1]);
      if Last(deltas).Some? then before + [Last(deltas).value] else before
  }

  /** The text pieces in the first `n` items. */
  function Deltas(feed: Feed, n: nat): seq<string> {
    if n == 0 then []
    else if At(feed, n - 1).Chunk? then Deltas(feed, n - 1) + Somes(At(feed, n - 1).deltas)
    else Deltas(feed, n - 1)
  }

  function Concat(texts: seq<string>): string {
    if texts == [] then "" else Concat(texts[..|texts| - 1]) + Last(texts)
  }

  function DeltaEvents(texts: seq<string>): seq<Emission> {
    seq(|texts|, i requires 0 <= i < |texts| => Delta(texts[i]))
  }

  lemma ConcatSnoc(texts: seq<string>, x: string)
    ensures Concat(texts + [x]) == Concat(texts) + x
    ensures DeltaEvents(texts + [x]) == DeltaEvents(texts) + [Delta(x)]
  {
    assert (texts + [x])[..|texts|] == texts;
  }

  lemma SomesSnoc(deltas: seq<Option<string>>, j: nat)
    requires j < |deltas|
    ensures Somes(deltas[..j + 1]) == if deltas[j].Some? then Somes(deltas[..j]) + [deltas[j].value]
        else Somes(deltas[..j])
  {
    assert deltas[..j + 1][..j] == deltas[..j];
  }

  /** Every piece of every chunk counts, in order, and nothing else. */
  lemma PiecesExact(feed: Feed, n: nat, deltas: seq<Option<string>>, x: Option<string>, texts: seq<string>, y: string)
    ensures Somes([]) == [] && Somes(deltas + [x]) == Somes(deltas) + (if x.Some? then [x.value] else [])
    ensures Deltas(feed, 0) == []
    ensures Deltas(feed, n + 1) == Deltas(feed, n) + (if At(feed, n).Chunk? then Somes(At(feed, n).deltas) else [])
    ensures Concat([]) == "" && Concat(texts + [y]) == Concat(texts) + y
  {
    assert (deltas + [x])[..|deltas|] == deltas;
    ConcatSnoc(texts, y);
  }

  /** Would this piece take the text over the cap? */
  predicate Overflows(text: string, delta: Option<string>) {
    delta.Some? && |text| + |delta.value| > MAX_STREAM_OUTPUT_CHARS
  }

  /** One chunk's pieces: emitted until one would overflow or the consumer leaves. */
  method PassDeltas(deltas: seq<Option<string>>, ghost before: seq<string>, text: string, patience: nat)
    returns (output: string, emitted: seq<Emission>, j: nat, overflow: bool, dropped: bool, left: nat)
    requires text == Concat(before) && |text| <= MAX_STREAM_OUTPUT_CHARS
    ensures j <= |deltas| && !(overflow && dropped)
    ensures output == Concat(before + Somes(deltas[..j])) && |output| <= MAX_STREAM_OUTPUT_CHARS
    ensures emitted == DeltaEvents(Somes(deltas[..j]))
    ensures overflow ==> j < |deltas| && Overflows(output, deltas[j])
    ensures !overflow && !dropped ==> j == |deltas|
    ensures dropped ==> left == 0 && patience + 1 == |Somes(deltas[..j])|
    ensures !dropped ==> left == patience - |Somes(deltas[..j])|
  {
    output, emitted, j, overflow, dropped, left := text, [], 0, false, false, patience;
    assert before + [] == before;
    while j < |deltas| && !overflow && !dropped
      invariant j <= |deltas| && !(overflow && dropped)
      invariant output == Concat(before + Somes(deltas[..j])) && |output| <= MAX_STREAM_OUTPUT_CHARS
      invariant emitted == DeltaEvents(Somes(deltas[..j]))
      invariant overflow ==> j < |deltas| && Overflows(output, deltas[j])
      invariant dropped ==> left == 0 && patience + 1 == |Somes(deltas[..j])|
      invariant !dropped ==> left == patience - |Somes(deltas[..j])|
      decreases |deltas| - j, !overflow
    {
      SomesSnoc(deltas, j);
      if Overflows(output, deltas[j]) {
        overflow := true;
      } else {
        if deltas[j].Some? {
          ghost var sofar := Somes(deltas[..j]);
          ConcatSnoc(before + sofar, deltas[j].value);
          ConcatSnoc(sofar, deltas[j].value);
          assert before + (sofar + [deltas[j].value]) == before + sofar + [deltas[j].value];
          output := output + deltas[j].value;
          emitted := emitted + [Delta(deltas[j].value)];
          if left == 0 { dropped := true; } else { left := left - 1; }
        }
        j := j + 1;
      }
    }
  }

  /** The pieces emitted when `n` items and `j` choices of the next one have been handled. */
  function Emitted(feed: Feed, n: nat, j: nat): seq<string> {
    if At(feed, n).Chunk? && j <= |At(feed, n).deltas| then Deltas(feed, n) + Somes(At(feed, n).deltas[..j])
        else Deltas(feed, n)
  }

  /** The item after `n` others ends the stream: it is no chunk, or its j-th piece is too long. */
  predicate Ends(feed: Feed, n: nat, j: nat) {
    var item := At(feed, n);
    if item.Chunk? then j < |item.deltas| && Overflows(Concat(Emitted(feed, n, j)), item.deltas[j]) else j == 0
  }

  /** A place in the stream: before item `n`, or before the j-th choice of a chunk. */
  predicate PlaceOk(feed: Feed, n: nat, j: nat) {
    && (forall i :: 0 <= i < n ==> At(feed, i).Chunk?)
    && (if At(feed, n).Chunk? then j <= |At(feed, n).deltas| else j == 0)
  }

  /** Everything a Responses stream may have sent by the time it stops. The closing events of a
      completed response come after its outcome and result have been recorded. */
  ghost predicate ResponseTrace(feed: Feed, attempts: seq<Attempt>, latencyMs: u64, patience: nat, n: nat, j: nat,
                                stop: Stop, t: Trace)
  {
    var texts := Emitted(feed, n, j);
    var item := At(feed, n);
    // Suspensions before the end is reached: a yield per piece and an await per item but the first.
    var used := n + |texts|;
    var closing := [ResponseCompleted(Concat(texts), if item.Complete? then item.usage else TokenUsage(0, 0, 0)),
        DoneMarker];
    && PlaceOk(feed, n, j)
    && |Concat(texts)| <= MAX_STREAM_OUTPUT_CHARS
    && (match stop
        case Waiting =>
          patience == used - 1 && t == Trace(DeltaEvents(texts), [Cancelled], [])
        case AtFinalYield =>
          Ends(feed, n, j) && !item.Complete? && patience == used
          && t == Trace(DeltaEvents(texts) + [ErrorEvent], [Cancelled], [])
        case _ =>
          Ends(feed, n, j) && t.outcomes == [OutcomeOf(item)] && t.results == [ResultFor(item, attempts, latencyMs)]
          && (if item.Complete? then
                used <= patience && (stop.Ran? <==> used + 4 <= patience)
                && t.emitted == DeltaEvents(texts) + closing[..Max(0, Min(2, patience - used - 1))]
              else
                used < patience && (stop.Ran? <==> used + 2 <= patience)
                    && t.emitted == DeltaEvents(texts) + [ErrorEvent]))
  }

  /** The loop's local variables. */
  datatype Progress = Progress(
    output: string,
    usage: Option<TokenUsage>,
    failed: bool,
    category: Option<ErrorCategory>,
    outcome: Option<StreamOutcome>,
    attempts: seq<Attempt>,
    emitted: seq<Emission>,
    left: nat,
    dropped: bool)

  /** About to ask for item `n`. */
  ghost predicate Going(feed: Feed, logged: seq<Attempt>, patience: nat, n: nat, p: Progress) {
    var texts := Deltas(feed, n);
    && (forall i :: 0 <= i < n ==> At(feed, i).Chunk?)
    && !p.dropped && !p.failed && p.usage.None? && p.attempts == logged
    && p.left == patience - Max(0, n - 1) - |texts|
    && p.emitted == DeltaEvents(texts)
    && p.output == Concat(texts) && |p.output| <= MAX_STREAM_OUTPUT_CHARS
  }

  /** The consumer left before the end was reached. */
  ghost predicate Abandoned(feed: Feed, patience: nat, n: nat, j: nat, p: Progress) {
    var texts := Emitted(feed, n, j);
    && PlaceOk(feed, n, j)
    && p.dropped && !p.failed && p.usage.None?
    && patience == n + |texts| - 1
    && p.emitted == DeltaEvents(texts)
    && |Concat(texts)| <= MAX_STREAM_OUTPUT_CHARS
  }

  /** The end was reached at item `n`. */
  ghost predicate Ended(feed: Feed, logged: seq<Attempt>, latencyMs: u64, patience: nat, n: nat, j: nat, p: Progress) {
    var texts, item := Emitted(feed, n, j), At(feed, n);
    && (forall i :: 0 <= i < n ==> At(feed, i).Chunk?)
    && Ends(feed, n, j)
    && p.failed == !item.Complete?
    && p.output == Concat(texts) && |p.output| <= MAX_STREAM_OUTPUT_CHARS
    && p.emitted == DeltaEvents(texts) + (if p.failed then [ErrorEvent] else [])
    && (p.dropped ==> p.failed && patience == n + |texts|)
    && (!p.dropped ==> p.left == patience - n - |texts| - (if p.failed then 1 else 0)
                       && Concluded(item, logged, latencyMs, p.usage, p.failed, p.category, p.outcome, p.attempts))
  }

  /** The error event is yielded; if the consumer stays, a broken or stalled stream's attempt is
      rewritten. */
  method Fail(p: Progress, category: ErrorCategory, outcome: StreamOutcome, patch: bool,
              latencyMs: u64) returns (q: Progress)
    requires !p.dropped
    ensures q.output == p.output && q.usage == p.usage && q.failed && q.category == Some(category)
        && q.outcome == Some(outcome)
    ensures q.emitted == p.emitted + [ErrorEvent]
    ensures q.left <= p.left && (q.dropped <==> p.left == 0)
    ensures !q.dropped ==> q.left == p.left - 1
    ensures !q.dropped ==> q.attempts == if patch then PatchLast(p.attempts, category, latencyMs) else p.attempts
  {
    q := p.(failed := true, category := Some(category), outcome := Some(outcome), emitted := p.emitted + [ErrorEvent]);
    if q.left == 0 {
      q := q.(dropped := true);
    } else {
      q := q.(left := q.left - 1);
      if patch { q := q.(attempts := PatchLast(q.attempts, category, latencyMs)); }
    }
  }

  /** A chunk: its pieces are passed on, and one that is too long ends the stream. */
  method OnChunk(feed: Feed, ghost logged: seq<Attempt>, latencyMs: u64, ghost patience: nat, ghost n: nat,
                 deltas: seq<Option<string>>, p: Progress)
    returns (q: Progress, ghost j: nat)
    requires Going(feed, logged, patience, n, p.(left := if n == 0 then p.left else p.left + 1))
    requires At(feed, n).Chunk? && At(feed, n).deltas == deltas
    ensures !q.dropped && !q.failed ==> Going(feed, logged, patience, n + 1, q)
    ensures q.dropped && !q.failed ==> Abandoned(feed, patience, n, j, q)
    ensures q.failed ==> Ended(feed, logged, latencyMs, patience, n, j, q)
    ensures q.left <= p.left && q.usage.None?
  {
    var output, texts, passed, overflow, dropped, left := PassDeltas(deltas, Deltas(feed, n), p.output, p.left);
    j := passed;
    EmittedEvents(feed, n, j);
    q := p.(output := output, emitted := p.emitted + texts, left := left, dropped := dropped);
    if overflow {
      q := Fail(q, Category(ProviderBadResponse), MidStreamFailure, false, latencyMs);
    } else if !dropped {
      assert deltas[..j] == deltas;
    }
  }

  lemma EmittedEvents(feed: Feed, n: nat, j: nat)
    requires At(feed, n).Chunk? && j <= |At(feed, n).deltas|
    ensures DeltaEvents(Emitted(feed, n, j)) ==
            DeltaEvents(Deltas(feed, n)) + DeltaEvents(Somes(At(feed, n).deltas[..j]))
  {
  }

  /** Any other item ends the stream. */
  method OnEnd(feed: Feed, ghost logged: seq<Attempt>, latencyMs: u64, ghost patience: nat, ghost n: nat, item: Item,
               p: Progress)
    returns (q: Progress)
    requires Going(feed, logged, patience, n, p.(left := if n == 0 then p.left else p.left + 1))
    requires item == At(feed, n) && !item.Chunk?
    ensures Ended(feed, logged, latencyMs, patience, n, 0, q)
    ensures q.failed || q.usage.Some?
  {
    q := p;
    match item {
      case Complete(u) => q := p.(usage := Some(u));
      case Error(e) => q := Fail(p, Category(e), MidStreamFailure, true, latencyMs);
      case IdleTimeout => q := Fail(p, Category(Timeout), IdleTimedOut, true, latencyMs);
      case _ => q := Fail(p, Category(ProviderBadResponse), Incomplete, false, latencyMs);
    }
  }

  method ResponseLoop(feed: Feed, logged: seq<Attempt>, latencyMs: u64, patience: nat)
    returns (p: Progress, ghost n: nat, ghost j: nat)
    requires FeedOk(feed)
    ensures p.failed || p.usage.Some? || p.dropped
    ensures p.failed || p.usage.Some? ==> Ended(feed, logged, latencyMs, patience, n, j, p)
    ensures !p.failed && p.usage.None? ==> Abandoned(feed, patience, n, j, p)
  {
    var source := new Upstream(feed);
    p := Progress("", None, false, None, None, logged, [], patience, false);
    n, j := 0, 0;
    while !p.failed && p.usage.None? && !p.dropped
      invariant source.Valid() && source.feed == feed
      invariant !p.failed && p.usage.None? && !p.dropped ==>
                  Going(feed, logged, patience, n, p) && source.Consumed() == n
      invariant !p.failed && p.usage.None? && p.dropped ==> Abandoned(feed, patience, n, j, p)
      invariant p.failed || p.usage.Some? ==> Ended(feed, logged, latencyMs, patience, n, j, p)
      decreases !p.failed && p.usage.None? && !p.dropped, p.left, if source.Consumed() == 0 then 1 else 0
    {
      var item, left := source.NextStreamItem(p.left);
      if item.None? {
        j := 0;
        p := p.(dropped := true);
        assert Emitted(feed, n, 0) == Deltas(feed, n);
      } else if item.value.Chunk? {
        p, j := OnChunk(feed, logged, latencyMs, patience, n, item.value.deltas, p.(left := left));
        if !p.failed && !p.dropped { n := n + 1; }
      } else {
        p := OnEnd(feed, logged, latencyMs, patience, n, item.value, p.(left := left));
        j := 0;
      }
    }
  }

  /** The Responses generator, dropped after `patience` suspensions unless it ends before. */
  method ResponseBody(feed: Feed, logged: seq<Attempt>, latencyMs: u64, patience: nat)
    returns (t: Trace, ghost n: nat, ghost j: nat, ghost stop: Stop)
    requires FeedOk(feed)
    ensures |t.outcomes| == 1 && |t.results| <= 1
    ensures DoneMarker in t.emitted ==> t.outcomes == [Completed] && |t.results| == 1
    ensures ResponseTrace(feed, logged, latencyMs, patience, n, j, stop, t)
  {
    var guard := new StreamMetricsGuard();
    var p;
    p, n, j := ResponseLoop(feed, logged, latencyMs, patience);
    var emitted := p.emitted;
    var results: seq<RequestResult> := [];
    stop := if p.failed || p.usage.Some? then AtFinalYield else Waiting;
    if !p.dropped {
      results := Settle(guard, p.usage, p.failed, p.category, p.outcome, p.attempts);
      if p.usage.Some? && !p.failed {
        if p.left >= 2 { emitted := emitted + [ResponseCompleted(p.output, p.usage.value)]; }
        if p.left >= 3 { emitted := emitted + [DoneMarker]; }
        stop := if p.left >= 4 then Ran else AfterFinish;
      } else {
        stop := if p.left >= 1 then Ran else AfterFinish;
      }
    }
    guard.Finish(Cancelled);
    t := Trace(emitted, guard.recorded, results);
    ResponsePromises(feed, logged, latencyMs, patience, n, j, stop, t);
  }

  /** The text that a list of events has delivered so far, piece by piece. */
  function TextsOf(events: seq<Emission>): seq<string> {
    if events == [] then []
    else
      var before := TextsOf(events[..|events| - 1]);
      if Last(events).Delta? then before + [Last(events).text] else before
  }

  lemma TextsSnoc(events: seq<Emission>, e: Emission)
    ensures TextsOf(events + [e]) == if e.Delta? then TextsOf(events) + [e.text] else TextsOf(events)
  {
    assert (events + [e])[..|events|] == events;
  }

  lemma {:induction false} TextsOfDeltas(texts: seq<string>)
    ensures TextsOf(DeltaEvents(texts)) == texts
  {
    if texts != [] {
      var before, last := texts[..|texts| - 1], Last(texts);
      assert texts == before + [last];
      ConcatSnoc(before, last);
      TextsOfDeltas(before);
      TextsSnoc(DeltaEvents(before), Delta(last));
    }
  }

  lemma {:induction false} TextsIgnore(events: seq<Emission>, tail: seq<Emission>)
    requires forall i :: 0 <= i < |tail| ==> !tail[i].Delta?
    ensures TextsOf(events + tail) == TextsOf(events)
    decreases tail
  {
    if tail == [] {
      assert events + tail == events;
    } else {
      var before, last := tail[..|tail| - 1], Last(tail);
      TextsIgnore(events, before);
      TextsSnoc(events + before, last);
      assert events + tail == (events + before) + [last];
    }
  }

  lemma TextsOfTrace(texts: seq<string>, tail: Tail, text: string)
    ensures TextsOf(DeltaEvents(texts) + TailEvents(tail, text)) == texts
  {
    TextsOfDeltas(texts);
    TextsIgnore(DeltaEvents(texts), TailEvents(tail, text));
  }

  /** What may follow the text pieces in a Responses stream. */
  datatype Tail = Nothing | Broken | Answered(usage: TokenUsage) | Closed(usage: TokenUsage)

  function TailEvents(tail: Tail, text: string): seq<Emission> {
    match tail
    case Nothing => []
    case Broken => [ErrorEvent]
    case Answered(usage) => [ResponseCompleted(text, usage)]
    case Closed(usage) => [ResponseCompleted(text, usage), DoneMarker]
  }

  lemma TailFacts(events: seq<Emission>, text: string, tail: Tail, emitted: seq<Emission>)
    requires emitted == events + TailEvents(tail, text) && forall i :: 0 <= i < |events| ==> events[i].Delta?
    ensures forall i :: 0 <= i < |emitted| && emitted[i].ResponseCompleted? ==> emitted[i].text == text
    ensures forall i :: 0 <= i < |emitted| && emitted[i] == DoneMarker ==>
              i == |emitted| - 1 && i > 0 && emitted[i - 1].ResponseCompleted?
    ensures forall i :: 0 <= i < |emitted| && emitted[i] == ErrorEvent ==> i == |emitted| - 1
    ensures DoneMarker in emitted <==> tail.Closed?
    ensures ErrorEvent in emitted <==> tail.Broken?
  {
    match tail
    case Nothing => assert emitted == events;
    case Broken => assert emitted == events + [ErrorEvent] && emitted[|events|] == ErrorEvent;
    case Answered(usage) => assert emitted[|events|] == ResponseCompleted(text, usage);
    case Closed(usage) => assert emitted[|events|] == ResponseCompleted(text, usage)
        && emitted[|events| + 1] == DoneMarker;
  }

  lemma ResponseShape(feed: Feed, attempts: seq<Attempt>, latencyMs: u64, patience: nat, n: nat, j: nat, stop: Stop,
                      t: Trace)
    returns (tail: Tail)
    requires ResponseTrace(feed, attempts, latencyMs, patience, n, j, stop, t)
    ensures var texts := Emitted(feed, n, j); t.emitted == DeltaEvents(texts) + TailEvents(tail, Concat(texts))
    ensures tail.Closed? ==> t.outcomes == [Completed] && |t.results| == 1 && t.results[0].Success?
    ensures stop.Ran? ==> (if At(feed, n).Complete? then tail == Closed(At(feed, n).usage) else tail.Broken?)
  {
    var item := At(feed, n);
    var k := |t.emitted| - |Emitted(feed, n, j)|;
    tail := if k == 0 then Nothing
            else if !item.Complete? then Broken
            else if k == 1 then Answered(item.usage)
            else Closed(item.usage);
    if item.Complete? && !stop.Waiting? {
      var closing := [ResponseCompleted(Concat(Emitted(feed, n, j)), item.usage), DoneMarker];
      assert closing[..1] == [closing[0]] && closing[..2] == closing && closing[..0] == [];
    }
  }

  /** What a consumer of a Responses stream can rely on, whenever it leaves: one outcome; the text of
      the completed response is the concatenation of the pieces it was sent and within the cap; the
      end marker comes last, only after that response, and then the outcome is `Completed` and the
      request counted as a success; an error event comes last too. A stream that is not abandoned
      records one result, and ends in the marker exactly when the provider completed. */
  lemma ResponsePromises(feed: Feed, attempts: seq<Attempt>, latencyMs: u64, patience: nat, n: nat, j: nat, stop: Stop,
                         t: Trace)
    requires ResponseTrace(feed, attempts, latencyMs, patience, n, j, stop, t)
    ensures |t.outcomes| == 1 && |t.results| == (if stop.Waiting? || stop.AtFinalYield? then 0 else 1)
    ensures forall i :: 0 <= i < |t.emitted| && t.emitted[i].ResponseCompleted? ==>
              t.emitted[i].text == Concat(TextsOf(t.emitted)) && |t.emitted[i].text| <= MAX_STREAM_OUTPUT_CHARS
    ensures forall i :: 0 <= i < |t.emitted| && t.emitted[i] == DoneMarker ==>
              i == |t.emitted| - 1 && i > 0 && t.emitted[i - 1].ResponseCompleted?
              && t.outcomes == [Completed] && |t.results| == 1 && t.results[0].Success?
    ensures forall i :: 0 <= i < |t.emitted| && t.emitted[i] == ErrorEvent ==> i == |t.emitted| - 1
    ensures stop.Ran? ==> (At(feed, n).Complete? <==> DoneMarker in t.emitted)
    ensures stop.Ran? ==> (!At(feed, n).Complete? <==> ErrorEvent in t.emitted)
  {
    var tail := ResponseShape(feed, attempts, latencyMs, patience, n, j, stop, t);
    var texts := Emitted(feed, n, j);
    TailFacts(DeltaEvents(texts), Concat(texts), tail, t.emitted);
    TextsOfTrace(texts, tail, Concat(texts));
  }

  /** What a Responses consumer is sent and when: the pieces first; after them, if the provider completed,
      the whole text and the end marker, else an error. A piece that would take the text over 262 144
      characters ends the stream instead. */
  lemma ResponseExact(feed: Feed, attempts: seq<Attempt>, latencyMs: u64, patience: nat, n: nat, j: nat, stop: Stop,
                      t: Trace)
    requires ResponseTrace(feed, attempts, latencyMs, patience, n, j, stop, t)
    ensures var texts, item := Emitted(feed, n, j), At(feed, n);
            var used := n + |texts|;
            && |t.emitted| >= |texts| && (forall i :: 0 <= i < |texts| ==> t.emitted[i] == Delta(texts[i]))
            && |Concat(texts)| <= 262_144
            && (patience < used ==> |t.emitted| == |texts| && t.outcomes == [Cancelled] && t.results == [])
            && (patience >= used && item.Chunk? ==>
                  && j < |item.deltas| && item.deltas[j].Some?
                  && |Concat(texts)| + |item.deltas[j].value| > 262_144)
            && (patience >= used && !item.Complete? ==> t.emitted == DeltaEvents(texts) + [ErrorEvent])
            && (patience == used && !item.Complete? ==> t.outcomes == [Cancelled] && t.results == [])
            && (patience > used || (patience == used && item.Complete?) ==>
                  t.outcomes == [OutcomeOf(item)] && t.results == [ResultFor(item, attempts, latencyMs)])
            && (item.Complete? && patience >= used ==>
                  t.emitted == DeltaEvents(texts) +
                    (if patience >= used + 3 then [ResponseCompleted(Concat(texts), item.usage), DoneMarker]
                     else if patience == used + 2 then [ResponseCompleted(Concat(texts), item.usage)]
                     else []))
  {
    var texts, item := Emitted(feed, n, j), At(feed, n);
    if item.Complete? {
      var closing := [ResponseCompleted(Concat(texts), item.usage), DoneMarker];
      assert closing[..0] == [] && closing[..1] == [closing[0]] && closing[..2] == closing;
    }
  }

  // ---------------------------------------------------------------- two consumers of one stream

  lemma {:induction false} SomesPrefix(deltas: seq<Option<string>>, j: nat, k: nat)
    requires j <= k <= |deltas|
    ensures Somes(deltas[..j]) <= Somes(deltas[..k])
    decreases k - j
  {
    if j < k {
      SomesPrefix(deltas, j, k - 1);
      SomesSnoc(deltas, k - 1);
    }
  }

  lemma {:induction false} DeltasPrefix(feed: Feed, n: nat, m: nat)
    requires n <= m
    ensures Deltas(feed, n) <= Deltas(feed, m)
    decreases m
  {
    if n < m { DeltasPrefix(feed, n, m - 1); }
  }

  /** The first place comes before the second, or is the same. */
  predicate NotAfter(n: nat, j: nat, m: nat, k: nat) {
    n < m || (n == m && j <= k)
  }

  lemma EmittedPrefix(feed: Feed, n: nat, j: nat, m: nat, k: nat)
    requires PlaceOk(feed, n, j) && PlaceOk(feed, m, k) && NotAfter(n, j, m, k)
    ensures Emitted(feed, n, j) <= Emitted(feed, m, k)
  {
    if n < m {
      var deltas := At(feed, n).deltas;
      SomesPrefix(deltas, j, |deltas|);
      assert deltas[..|deltas|] == deltas;
      DeltasPrefix(feed, n + 1, m);
    } else if At(feed, n).Chunk? {
      SomesPrefix(At(feed, n).deltas, j, k);
    }
  }

  lemma {:induction false} ConcatGrows(a: seq<string>, b: seq<string>)
    requires a <= b
    ensures |Concat(a)| <= |Concat(b)|
    decreases |b|
  {
    if a != b {
      ConcatGrows(a, b[..|b| - 1]);
    }
  }

  /** Beyond a piece that is too long the text is over the cap. */
  lemma Overstep(feed: Feed, n: nat, j: nat, m: nat, k: nat)
    requires PlaceOk(feed, n, j) && PlaceOk(feed, m, k) && Ends(feed, n, j) && At(feed, n).Chunk?
    requires NotAfter(n, j + 1, m, k)
    ensures |Concat(Emitted(feed, m, k))| > MAX_STREAM_OUTPUT_CHARS
  {
    var deltas := At(feed, n).deltas;
    SomesSnoc(deltas, j);
    assert Emitted(feed, n, j + 1) == Emitted(feed, n, j) + [deltas[j].value];
    ConcatSnoc(Emitted(feed, n, j), deltas[j].value);
    EmittedPrefix(feed, n, j + 1, m, k);
    ConcatGrows(Emitted(feed, n, j + 1), Emitted(feed, m, k));
  }

  /** No run goes past a place where the stream ends. */
  lemma NotPast(feed: Feed, n: nat, j: nat, m: nat, k: nat)
    requires PlaceOk(feed, n, j) && PlaceOk(feed, m, k) && Ends(feed, n, j)
    requires |Concat(Emitted(feed, m, k))| <= MAX_STREAM_OUTPUT_CHARS
    ensures NotAfter(m, k, n, j)
  {
    if At(feed, n).Chunk? && NotAfter(n, j + 1, m, k) {
      Overstep(feed, n, j, m, k);
    }
  }

  /** Of two runs on the same provider stream the less patient one emits a prefix of the other's
      events, and if it ran to the end both are the same. */
  lemma ResponsePrefix(feed: Feed, attempts: seq<Attempt>, latencyMs: u64,
                       p: nat, n: nat, j: nat, stop: Stop, t: Trace,
                       q: nat, m: nat, k: nat, stop': Stop, t': Trace)
    requires ResponseTrace(feed, attempts, latencyMs, p, n, j, stop, t)
    requires ResponseTrace(feed, attempts, latencyMs, q, m, k, stop', t')
    requires p <= q
    ensures t.emitted <= t'.emitted
    ensures stop.Ran? ==> t == t'
  {
    if !stop.Waiting? { NotPast(feed, n, j, m, k); }
    if !stop'.Waiting? { NotPast(feed, m, k, n, j); }
    if NotAfter(n, j, m, k) { EmittedPrefix(feed, n, j, m, k); }
    if NotAfter(m, k, n, j) { EmittedPrefix(feed, m, k, n, j); }
    PrefixEvents(Emitted(feed, n, j), Emitted(feed, m, k));
    PrefixEvents(Emitted(feed, m, k), Emitted(feed, n, j));
  }

  lemma PrefixEvents(a: seq<string>, b: seq<string>)
    ensures a <= b ==> DeltaEvents(a) <= DeltaEvents(b)
  {
  }
}
