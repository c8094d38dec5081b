/** Many requests at once: admission, breakers and drivers together. Each action is one critical
    section or one await of one request; any sequence of enabled actions is a run. */
module Gateway {
  import opened Base
  import opened Admission
  import opened Resilience
  import opened Fallback

  datatype Config = Config(limits: Limits, policy: string -> BreakerPolicy)

  datatype GuardId = RequestGuard(id: nat) | ProviderGuard(id: nat)

  datatype Request =
    | Queued(cands: seq<Candidate>, streaming: bool)   // admitted, driver not yet started
    | Running(driver: Driver)
    | Abandoned                                        // client gone, request slots not yet returned

  datatype State = State(
    counters: Counters,
    guards: map<GuardId, seq<Slot>>,
    circuits: map<string, Circuit>,
    history: seq<Entry>,
    clock: nat,
    requests: map<nat, Request>,
    pools: map<nat, Option<string>>)      // the pool that each live request arrived for

  const IDLE_STATE := State(IDLE, map[], map[], [], 0, map[], map[])

  datatype Action =
    | Tick(nanos: nat)
    | Arrive(id: nat, pool: Option<string>, cands: seq<Candidate>, streaming: bool)
    | Begin(id: nat)
    | AskBreaker(id: nat)
    | AskAdmission(id: nat)
    | Answer(id: nat, reply: Reply)
    | Wake(id: nat)
    | TellBreaker(id: nat)
    | DropSlot(id: nat)
    | EndStream(id: nat)
    | Cancel(id: nat)
    | Finish(id: nat)

  /** Dropping a future or a stream takes effect only where the request is suspended. */
  predicate Cancellable(r: Request) {
    r.Queued? || (r.Running? && (r.driver.phase.Calling? || r.driver.phase.Sleeping? || r.driver.phase.HandedOff?))
  }

  predicate Active(s: State, id: nat) {
    id in s.requests && s.requests[id].Running?
  }

  predicate Enabled(s: State, a: Action) {
    match a
    case Tick(_) => true
    case Arrive(id, _, _, _) => id !in s.requests
    case Begin(id) => id in s.requests && s.requests[id].Queued?
    case AskBreaker(id) => Active(s, id) && s.requests[id].driver.phase.Consider?
    case AskAdmission(id) => Active(s, id) && s.requests[id].driver.phase.Permitted?
    case Answer(id, reply) => 
      Active(s, id) && s.requests[id].driver.phase.Calling?
          && (reply.outcome.EmptyStream? ==> s.requests[id].driver.streaming)
    case Wake(id) => Active(s, id) && s.requests[id].driver.phase.Sleeping?
    case TellBreaker(id) => Active(s, id) && s.requests[id].driver.phase.Recording?
    case DropSlot(id) => Active(s, id) && s.requests[id].driver.phase.Leaving?
    case EndStream(id) => Active(s, id) && s.requests[id].driver.phase.HandedOff?
    case Cancel(id) => id in s.requests && Cancellable(s.requests[id])
    case Finish(id) =>
      id in s.requests
      && (s.requests[id].Abandoned? || (s.requests[id].Running? && s.requests[id].driver.phase.Done?))
  }

  // ---------------------------------------------------------------- what holds in every state

  predicate HoldsProvider(r: Request) {
    r.Running? && Holding(r.driver)
  }

  /** Which guards exist is decided by where each request stands. */
  predicate Owned(requests: map<nat, Request>, g: GuardId) {
    g.id in requests && (g.ProviderGuard? ==> HoldsProvider(requests[g.id]))
  }

  ghost predicate DriversOk(requests: map<nat, Request>) {
    forall id :: id in requests && requests[id].Running? ==> Inv(requests[id].driver)
  }

  ghost predicate Chronological(h: seq<Entry>, clock: nat) {
    && (forall i :: 0 <= i < |h| && !h[i].event.Success? ==> h[i].event.at <= clock)
    && (forall i, j :: 0 <= i < j < |h| && !h[i].event.Success? && !h[j].event.Success? ==>
        h[i].event.at <= h[j].event.at)
  }

  ghost predicate SystemInv(cfg: Config, s: State) {
    && Tracks(cfg.limits, s.counters, s.guards)
    && (forall g :: g in s.guards <==> Owned(s.requests, g))
    && DriversOk(s.requests)
    && Folds(cfg.policy, s.circuits, s.history)
    && Chronological(s.history, s.clock)
  }

  // ---------------------------------------------------------------- the steps

  function Update(s: State, id: nat, d: Driver): State {
    s.(requests := s.requests[id := Running(d)])
  }

  /** The driver's next step; the first conjuncts of `Next`'s precondition hold of every live driver. */
  function Drive(d: Driver, input: Input): Driver {
    if |d.visits| < |d.cands| && Expects(d, input) && (d.phase.Leaving? ==> d.replies != []) then Next(d, input) else d
  }

  function Note(cfg: Config, s: State, provider: string, e: Event): State {
    s.(circuits := s.circuits[provider := Resilience.Step(cfg.policy(provider), CircuitOf(s.circuits, provider), e)],
       history := s.history + [Entry(provider, e)])
  }

  function Current(d: Driver): string {
    if |d.visits| < |d.cands| then d.cands[|d.visits|].name else ""
  }

  function Free(s: State, g: GuardId): State {
    if g in s.guards then s.(counters := Release(s.counters, s.guards[g]), guards := s.guards - {g}) else s
  }

  function Step(cfg: Config, s: State, a: Action): State
    requires Enabled(s, a)
  {
    match a
    case Tick(nanos) => s.(clock := s.clock + nanos)
    case Arrive(id, pool, cands, streaming) => ArriveStep(cfg, s, id, pool, cands, streaming)
    case Begin(id) => Update(s, id, Start(s.requests[id].cands, s.requests[id].streaming))
    case AskBreaker(id) => AskBreakerStep(cfg, s, id)
    case AskAdmission(id) => AskAdmissionStep(cfg, s, id)
    case Answer(id, reply) => Update(s, id, Drive(s.requests[id].driver, Replied(reply)))
    case Wake(id) => Update(s, id, Drive(s.requests[id].driver, Woken))
    case TellBreaker(id) => TellBreakerStep(cfg, s, id)
    case DropSlot(id) => Update(Free(s, ProviderGuard(id)), id, Drive(s.requests[id].driver, Dropped))
    case EndStream(id) =>
      Update(Free(s, ProviderGuard(id)), id,
          s.requests[id].driver.(phase := Done(s.requests[id].driver.phase.streamed)))
    case Cancel(id) =>
      Free(s, ProviderGuard(id)).(requests := s.requests[id := Abandoned])
    case Finish(id) => Free(s, RequestGuard(id)).(requests := s.requests - {id}, pools := s.pools - {id})
  }

  /** A refused arrival leaves no trace. */
  function ArriveStep(cfg: Config, s: State, id: nat, pool: Option<string>, cands: seq<Candidate>,
                      streaming: bool): State {
    match AcquireRequest(cfg.limits, s.counters, pool)
    case Err(_) => s
    case Ok(grant) =>
      s.(counters := grant.counters, guards := s.guards[RequestGuard(id) := grant.slots],
         requests := s.requests[id := Queued(cands, streaming)], pools := s.pools[id := pool])
  }

  function AskBreakerStep(cfg: Config, s: State, id: nat): State
    requires Active(s, id) && s.requests[id].driver.phase.Consider?
  {
    var d := s.requests[id].driver;
    var provider := Current(d);
    var allowed := Permits(cfg.policy(provider), CircuitOf(s.circuits, provider), Allow(s.clock));
    Update(Note(cfg, s, provider, Allow(s.clock)), id, Drive(d, Verdict(allowed)))
  }

  function AskAdmissionStep(cfg: Config, s: State, id: nat): State
    requires Active(s, id) && s.requests[id].driver.phase.Permitted?
  {
    var d := s.requests[id].driver;
    match AcquireProvider(cfg.limits, s.counters, Current(d))
    case Err(rejection) => Update(s, id, Drive(d, Slotted(Some(rejection))))
    case Ok(grant) =>
      Update(s.(counters := grant.counters, guards := s.guards[ProviderGuard(id) := grant.slots]), id,
          Drive(d, Slotted(None)))
  }

  function TellBreakerStep(cfg: Config, s: State, id: nat): State
    requires Active(s, id) && s.requests[id].driver.phase.Recording?
  {
    var d := s.requests[id].driver;
    Update(Note(cfg, s, Current(d), if d.phase.success then Success else Failure(s.clock)), id, Drive(d, Recorded))
  }

  // ---------------------------------------------------------------- every step keeps the invariant

  /** The provider slot is held from the moment admission grants it until it is dropped. */
  lemma NextHolds(d: Driver, input: Input)
    requires |d.visits| < |d.cands| && Expects(d, input) && (d.phase.Leaving? ==> d.replies != [])
    ensures Next(d, input).cands == d.cands
    ensures input.Replied? || input.Woken? || input.Recorded? ==> Holding(Next(d, input))
    ensures input.Verdict? || input.Dropped? ==> !Holding(Next(d, input))
    ensures input.Slotted? ==> (Holding(Next(d, input)) <==> input.refusal.None?)
  {
  }

  lemma DriveReady(d: Driver, input: Input)
    requires Inv(d) && Expects(d, input)
    ensures |d.visits| < |d.cands| && (d.phase.Leaving? ==> d.replies != [])
  {
  }

  lemma DriveOk(d: Driver, input: Input)
    requires Inv(d) && Expects(d, input)
    ensures Inv(Drive(d, input)) && Drive(d, input).cands == d.cands
    ensures input.Replied? || input.Woken? || input.Recorded? ==> Holding(Drive(d, input))
    ensures input.Verdict? || input.Dropped? ==> !Holding(Drive(d, input))
    ensures input.Slotted? ==> (Holding(Drive(d, input)) <==> input.refusal.None?)
  {
    DriveReady(d, input);
    NextKeepsInv(d, input);
    NextHolds(d, input);
  }

  lemma NoteKeeps(cfg: Config, s: State, provider: string, e: Event)
    requires Folds(cfg.policy, s.circuits, s.history) && Chronological(s.history, s.clock)
    requires !e.Success? ==> e.at == s.clock
    ensures var t := Note(cfg, s, provider, e);
            Folds(cfg.policy, t.circuits, t.history) && Chronological(t.history, t.clock)
  {
    FoldsStep(cfg.policy, s.circuits, s.history, Entry(provider, e));
  }

  lemma FreeKeeps(cfg: Config, s: State, g: GuardId)
    requires Tracks(cfg.limits, s.counters, s.guards)
    ensures Tracks(cfg.limits, Free(s, g).counters, Free(s, g).guards)
    ensures Free(s, g).guards.Keys == s.guards.Keys - {g}
  {
    if g in s.guards { ReleaseTracks(cfg.limits, s.counters, s.guards, g); }
  }

  lemma ArriveKeeps(cfg: Config, s: State, a: Action)
    requires SystemInv(cfg, s) && a.Arrive? && Enabled(s, a)
    ensures SystemInv(cfg, Step(cfg, s, a))
  {
    if AcquireRequest(cfg.limits, s.counters, a.pool).Ok? {
      AcquireRequestTracks(cfg.limits, s.counters, s.guards, RequestGuard(a.id), a.pool);
    }
  }

  /** Telling or asking a breaker changes only its circuit. */
  lemma NoteKeepsInv(cfg: Config, s: State, provider: string, e: Event)
    requires SystemInv(cfg, s) && (!e.Success? ==> e.at == s.clock)
    ensures SystemInv(cfg, Note(cfg, s, provider, e))
  {
    NoteKeeps(cfg, s, provider, e);
  }

  /** A running request moves on and its guards change to match; breakers and clock stay. */
  lemma MoveKeeps(cfg: Config, s: State, t: State, id: nat, d: Driver)
    requires SystemInv(cfg, s) && id in s.requests && Inv(d)
    requires t.requests == s.requests[id := Running(d)] && Tracks(cfg.limits, t.counters, t.guards)
    requires t.circuits == s.circuits && t.history == s.history && t.clock == s.clock
    requires forall g :: g in t.guards <==> if g == ProviderGuard(id) then Holding(d) else g in s.guards
    ensures SystemInv(cfg, t)
  {
    forall g ensures g in t.guards <==> Owned(t.requests, g) {
      assert g in s.guards <==> Owned(s.requests, g);
    }
  }

  /** The driver moves on and holds a provider slot as before. */
  lemma UpdateKeeps(cfg: Config, s: State, id: nat, d: Driver)
    requires SystemInv(cfg, s) && id in s.requests && Inv(d) && (Holding(d) <==> HoldsProvider(s.requests[id]))
    ensures SystemInv(cfg, Update(s, id, d))
  {
    assert ProviderGuard(id) in s.guards <==> Owned(s.requests, ProviderGuard(id));
    MoveKeeps(cfg, s, Update(s, id, d), id, d);
  }

  lemma AskBreakerKeeps(cfg: Config, s: State, id: nat)
    requires SystemInv(cfg, s) && Enabled(s, AskBreaker(id))
    ensures SystemInv(cfg, Step(cfg, s, AskBreaker(id)))
  {
    var d := s.requests[id].driver;
    var provider := Current(d);
    var input := Verdict(Permits(cfg.policy(provider), CircuitOf(s.circuits, provider), Allow(s.clock)));
    DriveOk(d, input);
    NoteKeepsInv(cfg, s, provider, Allow(s.clock));
    UpdateKeeps(cfg, Note(cfg, s, provider, Allow(s.clock)), id, Drive(d, input));
  }

  lemma AskAdmissionKeeps(cfg: Config, s: State, id: nat)
    requires SystemInv(cfg, s) && Enabled(s, AskAdmission(id))
    ensures SystemInv(cfg, Step(cfg, s, AskAdmission(id)))
  {
    var d, t := s.requests[id].driver, Step(cfg, s, AskAdmission(id));
    assert ProviderGuard(id) in s.guards <==> Owned(s.requests, ProviderGuard(id));
    match AcquireProvider(cfg.limits, s.counters, Current(d)) {
      case Err(rejection) =>
        DriveOk(d, Slotted(Some(rejection)));
        MoveKeeps(cfg, s, t, id, Drive(d, Slotted(Some(rejection))));
      case Ok(grant) =>
        AcquireProviderTracks(cfg.limits, s.counters, s.guards, ProviderGuard(id), Current(d));
        DriveOk(d, Slotted(None));
        MoveKeeps(cfg, s, t, id, Drive(d, Slotted(None)));
    }
  }

  lemma DriverMovesKeep(cfg: Config, s: State, a: Action)
    requires SystemInv(cfg, s) && Enabled(s, a)
    requires a.Begin? || a.Answer? || a.Wake?
    ensures SystemInv(cfg, Step(cfg, s, a))
  {
    match a {
      case Begin(id) =>
        StartInv(s.requests[id].cands, s.requests[id].streaming);
        UpdateKeeps(cfg, s, id, Start(s.requests[id].cands, s.requests[id].streaming));
      case Answer(id, reply) =>
        DriveOk(s.requests[id].driver, Replied(reply));
        UpdateKeeps(cfg, s, id, Drive(s.requests[id].driver, Replied(reply)));
      case Wake(id) =>
        DriveOk(s.requests[id].driver, Woken);
        UpdateKeeps(cfg, s, id, Drive(s.requests[id].driver, Woken));
    }
  }

  lemma TellBreakerKeeps(cfg: Config, s: State, id: nat)
    requires SystemInv(cfg, s) && Enabled(s, TellBreaker(id))
    ensures SystemInv(cfg, Step(cfg, s, TellBreaker(id)))
  {
    var d := s.requests[id].driver;
    var e := if d.phase.success then Success else Failure(s.clock);
    DriveOk(d, Recorded);
    NoteKeepsInv(cfg, s, Current(d), e);
    UpdateKeeps(cfg, Note(cfg, s, Current(d), e), id, Drive(d, Recorded));
  }

  /** The driver moves on without its provider slot. */
  lemma FreedKeeps(cfg: Config, s: State, id: nat, d: Driver)
    requires SystemInv(cfg, s) && id in s.requests && Inv(d) && !Holding(d)
    ensures SystemInv(cfg, Update(Free(s, ProviderGuard(id)), id, d))
  {
    FreeKeeps(cfg, s, ProviderGuard(id));
    MoveKeeps(cfg, s, Update(Free(s, ProviderGuard(id)), id, d), id, d);
  }

  lemma SlotDroppedKeeps(cfg: Config, s: State, a: Action)
    requires SystemInv(cfg, s) && Enabled(s, a) && (a.DropSlot? || a.EndStream?)
    ensures SystemInv(cfg, Step(cfg, s, a))
  {
    var d := s.requests[a.id].driver;
    if a.DropSlot? {
      DriveOk(d, Dropped);
      FreedKeeps(cfg, s, a.id, Drive(d, Dropped));
    } else {
      FreedKeeps(cfg, s, a.id, d.(phase := Done(d.phase.streamed)));
    }
  }

  lemma GuardsDroppedKeep(cfg: Config, s: State, a: Action)
    requires SystemInv(cfg, s) && Enabled(s, a) && (a.Cancel? || a.Finish?)
    ensures SystemInv(cfg, Step(cfg, s, a))
  {
    FreeKeeps(cfg, s, if a.Finish? then RequestGuard(a.id) else ProviderGuard(a.id));
    var t := Step(cfg, s, a);
    forall g ensures g in t.guards <==> Owned(t.requests, g) {
      assert g in s.guards <==> Owned(s.requests, g);
    }
  }

  lemma StepKeepsInv(cfg: Config, s: State, a: Action)
    requires SystemInv(cfg, s) && Enabled(s, a)
    ensures SystemInv(cfg, Step(cfg, s, a))
  {
    match a
    case Tick(_) =>
    case Arrive(_, _, _, _) => ArriveKeeps(cfg, s, a);
    case Begin(_) => DriverMovesKeep(cfg, s, a);
    case AskBreaker(id) => AskBreakerKeeps(cfg, s, id);
    case AskAdmission(id) => AskAdmissionKeeps(cfg, s, id);
    case Answer(_, _) => DriverMovesKeep(cfg, s, a);
    case Wake(_) => DriverMovesKeep(cfg, s, a);
    case TellBreaker(id) => TellBreakerKeeps(cfg, s, id);
    case DropSlot(_) => SlotDroppedKeeps(cfg, s, a);
    case EndStream(_) => SlotDroppedKeeps(cfg, s, a);
    case Cancel(_) => GuardsDroppedKeep(cfg, s, a);
    case Finish(_) => GuardsDroppedKeep(cfg, s, a);
  }
}
