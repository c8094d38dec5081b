/** Whole runs of the gateway: what every interleaving of requests, retries, stream hand-offs and
    cancellations guarantees. */
module GatewayRuns {
  import opened Base
  import opened Admission
  import opened Resilience
  import opened Fallback
  import opened Gateway

  predicate Runs(cfg: Config, s: State, run: seq<Action>)
    decreases run
  {
    run == [] || (Enabled(s, run[0]) && Runs(cfg, Gateway.Step(cfg, s, run[0]), run[1..]))
  }

  function Exec(cfg: Config, s: State, run: seq<Action>): State
    requires Runs(cfg, s, run)
    decreases run
  {
    if run == [] then s else Exec(cfg, Gateway.Step(cfg, s, run[0]), run[1..])
  }

  lemma IdleInv(cfg: Config)
    ensures SystemInv(cfg, IDLE_STATE) && SlotsMatch(cfg, IDLE_STATE)
  {
    forall x ensures CountOf(IDLE, x) == |Holders(IDLE_STATE.guards, x)| {
      assert Holders(IDLE_STATE.guards, x) == {};
    }
    forall p ensures CircuitOf(IDLE_STATE.circuits, p) == Run(cfg.policy(p), INITIAL, Project(IDLE_STATE.history, p)) {
    }
  }

  // ---------------------------------------------------------------- who holds which slot

  /** The provider whose slot a request holds. */
  function Engaged(d: Driver): string {
    if d.phase.HandedOff? then (if 0 < |d.visits| <= |d.cands| then d.cands[|d.visits| - 1].name else "")
    else Current(d)
  }

  /** A live request holds the global slot and its pool's, each if it has a limit, and one that is
      calling, backing off or streaming holds its provider's. */
  ghost predicate SlotsMatchAt(cfg: Config, s: State, id: nat)
    requires id in s.requests
  {
    && RequestGuard(id) in s.guards && id in s.pools
    && SlotsOfRequest(cfg.limits, s.pools[id], s.guards[RequestGuard(id)])
    && (HoldsProvider(s.requests[id]) ==>
          ProviderGuard(id) in s.guards
          && s.guards[ProviderGuard(id)] == WantedProvider(cfg.limits, Engaged(s.requests[id].driver)))
  }

  ghost predicate SlotsMatch(cfg: Config, s: State) {
    forall id :: id in s.requests ==> SlotsMatchAt(cfg, s, id)
  }

  /** Only one request and its guards differ. */
  ghost predicate DiffersAt(s: State, t: State, id: nat) {
    && (forall j :: j in t.requests && j != id ==> j in s.requests && t.requests[j] == s.requests[j])
    && (forall g :: g in s.guards && g.id != id ==> g in t.guards && t.guards[g] == s.guards[g])
    && (forall j :: j in s.pools && j != id ==> j in t.pools && t.pools[j] == s.pools[j])
  }

  lemma SlotsLocal(cfg: Config, s: State, t: State, id: nat)
    requires SlotsMatch(cfg, s) && DiffersAt(s, t, id) && (id in t.requests ==> SlotsMatchAt(cfg, t, id))
    ensures SlotsMatch(cfg, t)
  {
    forall j | j in t.requests ensures SlotsMatchAt(cfg, t, j) {
      if j != id { assert SlotsMatchAt(cfg, s, j); }
    }
  }

  lemma EngagedKept(d: Driver, input: Input)
    requires Inv(d) && Expects(d, input) && (input.Replied? || input.Woken? || input.Recorded?)
    ensures Engaged(Drive(d, input)) == Current(d)
  {
    DriveReady(d, input);
  }

  lemma SlottedEngaged(d: Driver)
    requires Inv(d) && d.phase.Permitted?
    ensures Engaged(Drive(d, Slotted(None))) == Current(d)
  {
  }

  lemma AskBreakerKeepsSlots(cfg: Config, s: State, id: nat)
    requires SystemInv(cfg, s) && SlotsMatch(cfg, s) && Enabled(s, AskBreaker(id))
    ensures SlotsMatch(cfg, Gateway.Step(cfg, s, AskBreaker(id)))
  {
    var d := s.requests[id].driver;
    var allowed := Permits(cfg.policy(Current(d)), CircuitOf(s.circuits, Current(d)), Allow(s.clock));
    DriveOk(d, Verdict(allowed));
    assert SlotsMatchAt(cfg, s, id);
    SlotsLocal(cfg, s, Gateway.Step(cfg, s, AskBreaker(id)), id);
  }

  lemma AdmittedKeepsSlots(cfg: Config, s: State, id: nat)
    requires SystemInv(cfg, s) && SlotsMatch(cfg, s) && Enabled(s, AskAdmission(id))
    requires AcquireProvider(cfg.limits, s.counters, Current(s.requests[id].driver)).Ok?
    ensures SlotsMatch(cfg, Gateway.Step(cfg, s, AskAdmission(id)))
  {
    var d := s.requests[id].driver;
    assert SlotsMatchAt(cfg, s, id);
    SlottedEngaged(d);
    SlotsLocal(cfg, s, Gateway.Step(cfg, s, AskAdmission(id)), id);
  }

  /** A request that holds no provider slot any more and keeps its own guard. */
  lemma WithoutSlotKeeps(cfg: Config, s: State, t: State, id: nat)
    requires SlotsMatch(cfg, s) && DiffersAt(s, t, id) && id in s.requests
    requires id in t.requests ==> !HoldsProvider(t.requests[id])
    requires id in t.requests && RequestGuard(id) in s.guards ==>
               RequestGuard(id) in t.guards && t.guards[RequestGuard(id)] == s.guards[RequestGuard(id)]
    requires id in t.requests && id in s.pools ==> id in t.pools && t.pools[id] == s.pools[id]
    ensures SlotsMatch(cfg, t)
  {
    assert SlotsMatchAt(cfg, s, id);
    SlotsLocal(cfg, s, t, id);
  }

  lemma AskAdmissionKeepsSlots(cfg: Config, s: State, id: nat)
    requires SystemInv(cfg, s) && SlotsMatch(cfg, s) && Enabled(s, AskAdmission(id))
    ensures SlotsMatch(cfg, Gateway.Step(cfg, s, AskAdmission(id)))
  {
    var d := s.requests[id].driver;
    match AcquireProvider(cfg.limits, s.counters, Current(d)) {
      case Ok(_) => AdmittedKeepsSlots(cfg, s, id);
      case Err(rejection) =>
        DriveOk(d, Slotted(Some(rejection)));
        WithoutSlotKeeps(cfg, s, Gateway.Step(cfg, s, AskAdmission(id)), id);
    }
  }

  /** A request that goes on with the same provider keeps the guards it holds. */
  lemma SameProviderKeeps(cfg: Config, s: State, t: State, id: nat)
    requires SlotsMatch(cfg, s) && id in s.requests && HoldsProvider(s.requests[id])
    requires t.guards == s.guards && t.pools == s.pools && id in t.requests && t.requests - {id} == s.requests - {id}
    requires HoldsProvider(t.requests[id]) ==>
               Engaged(t.requests[id].driver) == Engaged(s.requests[id].driver)
    ensures SlotsMatch(cfg, t)
  {
    assert SlotsMatchAt(cfg, s, id);
    forall j | j in t.requests && j != id ensures j in s.requests && t.requests[j] == s.requests[j] {
      assert j in t.requests - {id};
    }
    SlotsLocal(cfg, s, t, id);
  }

  lemma WorkingKeepsSlots(cfg: Config, s: State, a: Action)
    requires SystemInv(cfg, s) && SlotsMatch(cfg, s) && Enabled(s, a) && (a.Answer? || a.Wake?)
    ensures SlotsMatch(cfg, Gateway.Step(cfg, s, a))
  {
    var d, t := s.requests[a.id].driver, Gateway.Step(cfg, s, a);
    EngagedKept(d, if a.Answer? then Replied(a.reply) else Woken);
    assert t.requests - {a.id} == s.requests - {a.id};
    SameProviderKeeps(cfg, s, t, a.id);
  }

  lemma TellBreakerKeepsSlots(cfg: Config, s: State, id: nat)
    requires SystemInv(cfg, s) && SlotsMatch(cfg, s) && Enabled(s, TellBreaker(id))
    ensures SlotsMatch(cfg, Gateway.Step(cfg, s, TellBreaker(id)))
  {
    var t := Gateway.Step(cfg, s, TellBreaker(id));
    EngagedKept(s.requests[id].driver, Recorded);
    assert t.requests - {id} == s.requests - {id};
    SameProviderKeeps(cfg, s, t, id);
  }

  lemma DropSlotKeepsSlots(cfg: Config, s: State, id: nat)
    requires SlotsMatch(cfg, s) && Enabled(s, DropSlot(id)) && !Holding(Drive(s.requests[id].driver, Dropped))
    ensures SlotsMatch(cfg, Gateway.Step(cfg, s, DropSlot(id)))
  {
    var t := Gateway.Step(cfg, s, DropSlot(id));
    assert t.guards == Free(s, ProviderGuard(id)).guards;
    WithoutSlotKeeps(cfg, s, t, id);
  }

  lemma EndStreamKeepsSlots(cfg: Config, s: State, id: nat)
    requires SlotsMatch(cfg, s) && Enabled(s, EndStream(id))
    ensures SlotsMatch(cfg, Gateway.Step(cfg, s, EndStream(id)))
  {
    var t := Gateway.Step(cfg, s, EndStream(id));
    assert t.guards == Free(s, ProviderGuard(id)).guards;
    WithoutSlotKeeps(cfg, s, t, id);
  }

  lemma CancelKeepsSlots(cfg: Config, s: State, id: nat)
    requires SlotsMatch(cfg, s) && Enabled(s, Cancel(id))
    ensures SlotsMatch(cfg, Gateway.Step(cfg, s, Cancel(id)))
  {
    var t := Gateway.Step(cfg, s, Cancel(id));
    assert t.guards == Free(s, ProviderGuard(id)).guards;
    WithoutSlotKeeps(cfg, s, t, id);
  }

  lemma FinishKeepsSlots(cfg: Config, s: State, id: nat)
    requires SlotsMatch(cfg, s) && Enabled(s, Finish(id))
    ensures SlotsMatch(cfg, Gateway.Step(cfg, s, Finish(id)))
  {
    var t := Gateway.Step(cfg, s, Finish(id));
    assert t.guards == Free(s, RequestGuard(id)).guards;
    WithoutSlotKeeps(cfg, s, t, id);
  }

  lemma ArrivingKeepsSlots(cfg: Config, s: State, a: Action)
    requires SystemInv(cfg, s) && SlotsMatch(cfg, s) && Enabled(s, a) && (a.Arrive? || a.Begin?)
    ensures SlotsMatch(cfg, Gateway.Step(cfg, s, a))
  {
    if a.Arrive? { RequestRefusedIffFull(cfg.limits, s.counters, s.guards, a.pool); }
    if a.Begin? { assert SlotsMatchAt(cfg, s, a.id); }
    SlotsLocal(cfg, s, Gateway.Step(cfg, s, a), a.id);
  }

  lemma TickKeepsSlots(cfg: Config, s: State, nanos: nat)
    requires SlotsMatch(cfg, s)
    ensures SlotsMatch(cfg, Gateway.Step(cfg, s, Tick(nanos)))
  {
    forall id | id in s.requests ensures SlotsMatchAt(cfg, Gateway.Step(cfg, s, Tick(nanos)), id) {
      assert SlotsMatchAt(cfg, s, id);
    }
  }

  lemma StepKeepsSlots(cfg: Config, s: State, a: Action)
    requires SystemInv(cfg, s) && SlotsMatch(cfg, s) && Enabled(s, a)
    ensures SlotsMatch(cfg, Gateway.Step(cfg, s, a))
  {
    match a
    case Tick(nanos) => TickKeepsSlots(cfg, s, nanos);
    case Arrive(_, _, _, _) => ArrivingKeepsSlots(cfg, s, a);
    case Begin(_) => ArrivingKeepsSlots(cfg, s, a);
    case AskBreaker(id) => AskBreakerKeepsSlots(cfg, s, id);
    case AskAdmission(id) => AskAdmissionKeepsSlots(cfg, s, id);
    case Answer(_, _) => WorkingKeepsSlots(cfg, s, a);
    case Wake(_) => WorkingKeepsSlots(cfg, s, a);
    case TellBreaker(id) => TellBreakerKeepsSlots(cfg, s, id);
    case DropSlot(id) =>
      DriveOk(s.requests[id].driver, Dropped);
      DropSlotKeepsSlots(cfg, s, id);
    case EndStream(id) => EndStreamKeepsSlots(cfg, s, id);
    case Cancel(id) => CancelKeepsSlots(cfg, s, id);
    case Finish(id) => FinishKeepsSlots(cfg, s, id);
  }

  /** The invariant holds in every state of every run. */
  lemma {:induction false} InvAlongRun(cfg: Config, s: State, run: seq<Action>)
    requires SystemInv(cfg, s) && SlotsMatch(cfg, s) && Runs(cfg, s, run)
    ensures SystemInv(cfg, Exec(cfg, s, run)) && SlotsMatch(cfg, Exec(cfg, s, run))
    decreases run
  {
    if run != [] {
      StepKeepsInv(cfg, s, run[0]);
      StepKeepsSlots(cfg, s, run[0]);
      InvAlongRun(cfg, Gateway.Step(cfg, s, run[0]), run[1..]);
    }
  }

  /** In every interleaving each counter is the number of live guards holding its slot, within its
      limit, and stored only while positive; with no request left every counter is back at zero. */
  lemma CountersExactInEveryRun(cfg: Config, run: seq<Action>)
    requires Runs(cfg, IDLE_STATE, run)
    ensures var s := Exec(cfg, IDLE_STATE, run);
            && Exact(s.counters, s.guards) && Bounded(cfg.limits, s.counters) && Compact(s.counters)
            && (s.requests == map[] ==> s.counters == IDLE && s.guards == map[])
  {
    IdleInv(cfg);
    InvAlongRun(cfg, IDLE_STATE, run);
    var s := Exec(cfg, IDLE_STATE, run);
    if s.requests == map[] {
      assert forall g :: g !in s.guards;
      assert s.guards == map[];
      NoGuardsIdle(cfg.limits, s.counters, s.guards);
    }
  }

  /** The requests that are calling, backing off or streaming at a provider. */
  ghost function Using(s: State, provider: string): set<nat> {
    set id | id in s.requests && HoldsProvider(s.requests[id]) && Engaged(s.requests[id].driver) == provider
  }

  lemma InjectedGuards(s: State, ids: set<nat>, slot: Slot, request: bool)
    requires forall id :: id in ids ==>
               var g := if request then RequestGuard(id) else ProviderGuard(id);
               g in s.guards && slot in s.guards[g]
    ensures |ids| <= |Holders(s.guards, slot)|
    decreases ids
  {
    var make := (id: nat) => if request then RequestGuard(id) else ProviderGuard(id);
    var image := set id | id in ids :: make(id);
    ImageSize(ids, request);
    assert image == Image(ids, request);
    assert image <= Holders(s.guards, slot);
    SubsetSize(image, Holders(s.guards, slot));
  }

  ghost function Image(ids: set<nat>, request: bool): set<GuardId> {
    set id | id in ids :: if request then RequestGuard(id) else ProviderGuard(id)
  }

  lemma {:induction false} ImageSize(ids: set<nat>, request: bool)
    ensures |Image(ids, request)| == |ids|
    decreases ids
  {
    if ids != {} {
      var id :| id in ids;
      ImageSize(ids - {id}, request);
      var g := if request then RequestGuard(id) else ProviderGuard(id);
      assert Image(ids, request) == Image(ids - {id}, request) + {g};
      assert g !in Image(ids - {id}, request);
    } else {
      assert Image(ids, request) == {};
    }
  }

  /** The requests in the gateway that arrived for a pool. */
  ghost function InPool(s: State, pool: string): set<nat> {
    set id | id in s.requests && id in s.pools && s.pools[id] == Some(pool)
  }

  /** A slot of requests is held by the guards of exactly these requests. */
  lemma RequestHolders(cfg: Config, s: State, pool: string)
    requires SystemInv(cfg, s) && SlotsMatch(cfg, s)
    ensures cfg.limits.maxGlobal.Some? ==> Holders(s.guards, Global) == Image(s.requests.Keys, true)
    ensures pool in cfg.limits.pools ==> Holders(s.guards, Pool(pool)) == Image(InPool(s, pool), true)
  {
    forall g | g in s.guards
      ensures g.id in s.requests && SlotsMatchAt(cfg, s, g.id)
      ensures g.ProviderGuard? ==> Global !in s.guards[g] && Pool(pool) !in s.guards[g]
    {
      assert Owned(s.requests, g);
    }
    forall id | id in s.requests ensures SlotsMatchAt(cfg, s, id) {}
    if cfg.limits.maxGlobal.Some? {
      forall g ensures g in Holders(s.guards, Global) <==> g in Image(s.requests.Keys, true) {
        if g.RequestGuard? && g.id in s.requests { assert SlotsMatchAt(cfg, s, g.id); }
      }
    }
    if pool in cfg.limits.pools {
      forall g ensures g in Holders(s.guards, Pool(pool)) <==> g in Image(InPool(s, pool), true) {
        if g.RequestGuard? && g.id in s.requests { assert SlotsMatchAt(cfg, s, g.id); }
      }
    }
  }

  /** So their counters are the numbers of requests in the gateway and in the pool. */
  lemma RequestCounts(cfg: Config, s: State, pool: string)
    requires SystemInv(cfg, s) && SlotsMatch(cfg, s)
    ensures cfg.limits.maxGlobal.Some? ==>
              |Holders(s.guards, Global)| == |s.requests.Keys| <= cfg.limits.maxGlobal.value
    ensures pool in cfg.limits.pools ==>
              |Holders(s.guards, Pool(pool))| == |InPool(s, pool)| <= cfg.limits.pools[pool]
  {
    RequestHolders(cfg, s, pool);
    ImageSize(s.requests.Keys, true);
    ImageSize(InPool(s, pool), true);
    assert CountOf(s.counters, Global) == |Holders(s.guards, Global)|;
    assert CountOf(s.counters, Pool(pool)) == |Holders(s.guards, Pool(pool))|;
    assert LimitOf(cfg.limits, Global) == cfg.limits.maxGlobal;
    assert pool in cfg.limits.pools ==> LimitOf(cfg.limits, Pool(pool)) == Some(cfg.limits.pools[pool]);
  }

  /** In every interleaving no more requests than its limit are at a provider, counting those that
      back off and those whose stream the client is still reading; no more requests of a pool than the
      pool's limit are in the gateway; and no more requests than the global limit are. */
  lemma LimitsRespectedInEveryRun(cfg: Config, run: seq<Action>, provider: string, pool: string)
    requires Runs(cfg, IDLE_STATE, run)
    ensures var s := Exec(cfg, IDLE_STATE, run);
            && (provider in cfg.limits.providers ==> |Using(s, provider)| <= cfg.limits.providers[provider])
            && (pool in cfg.limits.pools ==> |InPool(s, pool)| <= cfg.limits.pools[pool])
            && (cfg.limits.maxGlobal.Some? ==> |s.requests.Keys| <= cfg.limits.maxGlobal.value)
  {
    IdleInv(cfg);
    InvAlongRun(cfg, IDLE_STATE, run);
    var s := Exec(cfg, IDLE_STATE, run);
    RequestCounts(cfg, s, pool);
    assert CountOf(s.counters, Provider(provider)) == |Holders(s.guards, Provider(provider))|;
    if provider in cfg.limits.providers {
      InjectedGuards(s, Using(s, provider), Provider(provider), false);
      assert LimitOf(cfg.limits, Provider(provider)).Some?;
    }
  }

  /** In every run an arriving request stays outside exactly when as many requests as the global limit
      allows are in the gateway, or as many of its pool as the pool's limit allows. */
  lemma TurnedAwayIffFull(cfg: Config, run: seq<Action>, a: Action)
    requires Runs(cfg, IDLE_STATE, run) && a.Arrive? && Enabled(Exec(cfg, IDLE_STATE, run), a)
    ensures var s := Exec(cfg, IDLE_STATE, run);
            a.id !in Gateway.Step(cfg, s, a).requests <==>
              || (cfg.limits.maxGlobal.Some? && |s.requests.Keys| == cfg.limits.maxGlobal.value)
              || (a.pool.Some? && a.pool.value in cfg.limits.pools
                  && |InPool(s, a.pool.value)| == cfg.limits.pools[a.pool.value])
  {
    IdleInv(cfg);
    InvAlongRun(cfg, IDLE_STATE, run);
    var s := Exec(cfg, IDLE_STATE, run);
    RequestRefusedIffFull(cfg.limits, s.counters, s.guards, a.pool);
    RequestCounts(cfg, s, a.pool.UnwrapOr(""));
  }

  /** Request guards hold no provider slot. */
  ghost predicate PlainGuards(s: State) {
    forall g, x :: g in s.guards && g.RequestGuard? && x in s.guards[g] ==> !x.Provider?
  }

  lemma StepKeepsPlain(cfg: Config, s: State, a: Action)
    requires PlainGuards(s) && Enabled(s, a)
    ensures PlainGuards(Gateway.Step(cfg, s, a))
  {
    var t := Gateway.Step(cfg, s, a);
    forall g, x | g in t.guards && g.RequestGuard? && x in t.guards[g] ensures !x.Provider? {
      if g in s.guards && t.guards[g] == s.guards[g] {
        assert !x.Provider?;
      } else {
        assert a.Arrive? && x in Wanted(cfg.limits, a.pool);
      }
    }
  }

  lemma {:induction false} PlainAlongRun(cfg: Config, s: State, run: seq<Action>)
    requires PlainGuards(s) && Runs(cfg, s, run)
    ensures PlainGuards(Exec(cfg, s, run))
    decreases run
  {
    if run != [] {
      StepKeepsPlain(cfg, s, run[0]);
      PlainAlongRun(cfg, Gateway.Step(cfg, s, run[0]), run[1..]);
    }
  }

  /** The holders of a provider's slot are the guards of the requests at it. */
  lemma HoldersAreUsing(cfg: Config, s: State, provider: string)
    requires SystemInv(cfg, s) && SlotsMatch(cfg, s) && PlainGuards(s) && provider in cfg.limits.providers
    ensures Holders(s.guards, Provider(provider)) == Image(Using(s, provider), false)
  {
    var slot := Provider(provider);
    forall g | g in Holders(s.guards, slot) ensures g in Image(Using(s, provider), false) {
      assert g in s.guards && slot in s.guards[g] && g.ProviderGuard? && Owned(s.requests, g);
      assert SlotsMatchAt(cfg, s, g.id) && g.id in Using(s, provider);
    }
    forall id | id in Using(s, provider) ensures ProviderGuard(id) in Holders(s.guards, slot) {
      assert SlotsMatchAt(cfg, s, id);
    }
  }

  /** In every run a request that asks for a provider's slot is refused exactly when as many requests
      as the limit allows are calling, backing off or streaming there. */
  lemma RefusedIffInUse(cfg: Config, run: seq<Action>, id: nat)
    requires Runs(cfg, IDLE_STATE, run) && Enabled(Exec(cfg, IDLE_STATE, run), AskAdmission(id))
    ensures var s := Exec(cfg, IDLE_STATE, run);
            var provider := Current(s.requests[id].driver);
            !HoldsProvider(Gateway.Step(cfg, s, AskAdmission(id)).requests[id]) <==>
              provider in cfg.limits.providers && |Using(s, provider)| == cfg.limits.providers[provider]
  {
    IdleInv(cfg);
    InvAlongRun(cfg, IDLE_STATE, run);
    PlainAlongRun(cfg, IDLE_STATE, run);
    var s := Exec(cfg, IDLE_STATE, run);
    RefusedWhenFull(cfg, s, id);
    var provider := Current(s.requests[id].driver);
    if provider in cfg.limits.providers {
      LimitsRespectedInEveryRun(cfg, run, provider, "");
      HoldersAreUsing(cfg, s, provider);
      ImageSize(Using(s, provider), false);
      assert CountOf(s.counters, Provider(provider)) == |Holders(s.guards, Provider(provider))|;
    }
  }

  lemma RefusedWhenFull(cfg: Config, s: State, id: nat)
    requires SystemInv(cfg, s) && Enabled(s, AskAdmission(id))
    ensures var provider := Current(s.requests[id].driver);
            !HoldsProvider(Gateway.Step(cfg, s, AskAdmission(id)).requests[id]) <==>
              provider in cfg.limits.providers
                  && CountOf(s.counters, Provider(provider)) >= cfg.limits.providers[provider]
  {
    var d := s.requests[id].driver;
    match AcquireProvider(cfg.limits, s.counters, Current(d)) {
      case Err(rejection) => DriveOk(d, Slotted(Some(rejection)));
      case Ok(_) => DriveOk(d, Slotted(None));
    }
  }

  /** A refusal by admission changes no counter and no guard. */
  lemma RefusalChangesNothing(cfg: Config, s: State, a: Action)
    requires SystemInv(cfg, s) && Enabled(s, a)
    ensures a.Arrive? && AcquireRequest(cfg.limits, s.counters, a.pool).Err? ==> Gateway.Step(cfg, s, a) == s
    ensures a.AskAdmission? && AcquireProvider(cfg.limits, s.counters, Current(s.requests[a.id].driver)).Err? ==>
              var t := Gateway.Step(cfg, s, a);
              t.counters == s.counters && t.guards == s.guards && !HoldsProvider(t.requests[a.id])
  {
    if a.AskAdmission? {
      var d := s.requests[a.id].driver;
      match AcquireProvider(cfg.limits, s.counters, Current(d)) {
        case Err(rejection) => DriveOk(d, Slotted(Some(rejection)));
        case Ok(_) =>
      }
    }
  }

  /** Every driver that has stopped in any run carries a truthful log of a finished walk. */
  lemma LogsTruthfulInEveryRun(cfg: Config, run: seq<Action>, id: nat)
    requires Runs(cfg, IDLE_STATE, run)
    requires var s := Exec(cfg, IDLE_STATE, run);
             id in s.requests && s.requests[id].Running? && Stopped(s.requests[id].driver)
    ensures var d := Exec(cfg, IDLE_STATE, run).requests[id].driver;
            && ValidRun(d.cands, d.streaming, d.visits) && Finished(d.cands, d.visits)
            && d.attempts == AttemptsOf(d.cands, d.visits) && d.records == RecordsOf(d.visits)
            && ResultOf(d.cands, d.visits) == if d.phase.Done? then d.phase.result else d.phase.streamed
  {
    IdleInv(cfg);
    InvAlongRun(cfg, IDLE_STATE, run);
  }

  // ---------------------------------------------------------------- leaving

  /** Where a request waits: for its driver to start, for a provider, for a pause to end, or for its
      client to read. */
  predicate Waits(r: Request) {
    match r
    case Queued(_, _) => true
    case Abandoned => false
    case Running(d) =>
      match d.phase
      case Calling => true
      case Sleeping => true
      case HandedOff(_) => true
      case _ => false
  }

  /** A client can leave exactly while its request waits, and then the request goes with all it holds:
      its own guard and its provider's, and nothing of the others. */
  lemma LeavesWhole(cfg: Config, s: State, id: nat)
    requires SystemInv(cfg, s) && id in s.requests
    ensures Enabled(s, Cancel(id)) <==> Waits(s.requests[id])
    ensures Waits(s.requests[id]) ==>
              var t := Gateway.Step(cfg, s, Cancel(id));
              && t.requests == s.requests[id := Abandoned] && Enabled(t, Finish(id))
              && var u := Gateway.Step(cfg, t, Finish(id));
                 && u.requests == s.requests - {id}
                 && u.guards == s.guards - {ProviderGuard(id), RequestGuard(id)}
                 && u.circuits == s.circuits && u.history == s.history && SystemInv(cfg, u)
  {
    if Waits(s.requests[id]) {
      var t := Gateway.Step(cfg, s, Cancel(id));
      StepKeepsInv(cfg, s, Cancel(id));
      StepKeepsInv(cfg, t, Finish(id));
      assert t.guards == s.guards - {ProviderGuard(id)};
      assert Gateway.Step(cfg, t, Finish(id)).guards == s.guards - {ProviderGuard(id), RequestGuard(id)};
    }
  }

  /** The breaker's answer is obeyed: the request goes on to admission exactly if the call is let
      through, and is at the next candidate or done otherwise; the question is remembered. */
  lemma BreakerObeyed(cfg: Config, s: State, id: nat)
    requires SystemInv(cfg, s) && Enabled(s, AskBreaker(id))
    ensures var d, t := s.requests[id].driver, Gateway.Step(cfg, s, AskBreaker(id));
            var provider := Current(d);
            && t.history == s.history + [Entry(provider, Allow(s.clock))] && Active(t, id)
            && (t.requests[id].driver.phase.Permitted? <==>
                  Resilience.Permitted(cfg.policy(provider), CircuitOf(s.circuits, provider), [Allow(s.clock)]) == 1)
            && (!t.requests[id].driver.phase.Permitted? ==>
                  t.requests[id].driver.visits == d.visits + [BreakerRefused])
  {
    var d := s.requests[id].driver;
    DriveReady(d, Verdict(true));
    assert [Allow(s.clock)][1..] == [];
  }

  /** And admission's: the request calls exactly if it gets a slot. */
  lemma AdmissionObeyed(cfg: Config, s: State, id: nat)
    requires SystemInv(cfg, s) && Enabled(s, AskAdmission(id))
    ensures var d, t := s.requests[id].driver, Gateway.Step(cfg, s, AskAdmission(id));
            && Active(t, id)
            && (t.requests[id].driver.phase.Calling? <==> RoomForProvider(cfg.limits, s.guards, Current(d)))
            && (!t.requests[id].driver.phase.Calling? ==>
                  t.requests[id].driver.visits == d.visits +
                    [AdmissionRefused(Rejection(ProviderInFlightLimit, Max(1, cfg.limits.retryAfterSeconds)))])
  {
    var d := s.requests[id].driver;
    ProviderRefusedIffFull(cfg.limits, s.counters, s.guards, Current(d));
    DriveReady(d, Slotted(None));
  }

  // ---------------------------------------------------------------- breakers along a run

  lemma {:induction false} ProjectSplit(h: seq<Entry>, k: nat, p: string)
    requires k <= |h|
    ensures Project(h, p) == Project(h[..k], p) + Project(h[k..], p)
    decreases |h|
  {
    if k == |h| {
      assert h[..k] == h && h[k..] == [];
    } else {
      var n := |h| - 1;
      ProjectSplit(h[..n], k, p);
      assert h[..n][..k] == h[..k];
      assert h[k..][..n - k] == h[..n][k..];
      assert h[k..][n - k] == h[n];
    }
  }

  lemma {:induction false} ProjectMembers(h: seq<Entry>, p: string, e: Event)
    requires e in Project(h, p)
    ensures exists i :: 0 <= i < |h| && h[i] == Entry(p, e)
    decreases |h|
  {
    var n := |h| - 1;
    if h[n] != Entry(p, e) {
      ProjectMembers(h[..n], p, e);
      var i :| 0 <= i < n && h[..n][i] == Entry(p, e);
      assert h[i] == Entry(p, e);
    }
  }

  lemma TimedSnoc(es: seq<Event>, e: Event, from: nat, mid: nat, to: nat)
    requires Timed(es, from, mid) && !e.Success? && mid <= e.at <= to
    ensures Timed(es + [e], from, to)
    decreases es
  {
    if es == [] {
      assert es + [e] == [e] && [e][1..] == [];
    } else {
      assert (es + [e])[1..] == es[1..] + [e];
      TimedSnoc(es[1..], e, Time(es[0], from), mid, to);
    }
  }

  lemma TimedWiden(es: seq<Event>, from: nat, mid: nat, to: nat)
    requires Timed(es, from, mid) && mid <= to
    ensures Timed(es, from, to)
    decreases es
  {
    if es != [] { TimedWiden(es[1..], Time(es[0], from), mid, to); }
  }

  /** A chronological history gives each provider a timed one. */
  lemma {:induction false} ProjectTimed(h: seq<Entry>, p: string, from: nat, clock: nat)
    requires Chronological(h, clock) && from <= clock
    requires forall i :: 0 <= i < |h| && !h[i].event.Success? ==> from <= h[i].event.at
    requires forall e :: e in Project(h, p) ==> !e.Success?
    ensures Timed(Project(h, p), from, clock)
    decreases |h|
  {
    if h != [] {
      var n := |h| - 1;
      var last := h[n];
      var mid := if last.event.Success? then clock else last.event.at;
      assert forall i :: 0 <= i < n ==> h[..n][i] == h[i];
      assert Chronological(h[..n], mid);
      ProjectTimed(h[..n], p, from, mid);
      if last.provider == p {
        assert last.event in Project(h, p);
        TimedSnoc(Project(h[..n], p), last.event, from, mid, clock);
      } else {
        TimedWiden(Project(h[..n], p), from, mid, clock);
      }
    }
  }

  /** In every run: from the moment a provider's circuit opened at `t0` (after the first `k` breaker
      events) to the present, if no success was recorded for it, all requests together were allowed
      at most `max(1, probes) * floor((now - t0) / open_duration)` calls to it. */
  lemma OpenCircuitBoundInEveryRun(cfg: Config, run: seq<Action>, provider: string, k: nat, t0: nat)
    requires Runs(cfg, IDLE_STATE, run)
    requires k <= |Exec(cfg, IDLE_STATE, run).history| && cfg.policy(provider).openDurationMs > 0
    requires var s := Exec(cfg, IDLE_STATE, run);
             var circuit := Run(cfg.policy(provider), INITIAL, Project(s.history[..k], provider));
             && circuit.state == Open && circuit.openedAt == Some(t0)
             && (forall e :: e in Project(s.history[k..], provider) ==> !e.Success?)
    ensures var s := Exec(cfg, IDLE_STATE, run);
            var c := Run(cfg.policy(provider), INITIAL, Project(s.history[..k], provider));
            && t0 <= s.clock
            && Resilience.Permitted(cfg.policy(provider), c, Project(s.history[k..], provider)) <=
               Max(1, cfg.policy(provider).halfOpenMaxProbes) *
                 ((s.clock - t0) / (cfg.policy(provider).openDurationMs * 1_000_000))
            && CircuitOf(s.circuits, provider) == Run(cfg.policy(provider), c, Project(s.history[k..], provider))
  {
    IdleInv(cfg);
    InvAlongRun(cfg, IDLE_STATE, run);
    var s := Exec(cfg, IDLE_STATE, run);
    var before, after := Project(s.history[..k], provider), Project(s.history[k..], provider);
    var policy := cfg.policy(provider);
    StateAgreesWithHistory(policy, before);
    TimedSinceOpening(s.history, provider, k, t0, s.clock);
    OpenCircuitBound(policy, before, after, t0, s.clock);
    ProjectSplit(s.history, k, provider);
    RunConcat(policy, INITIAL, before, after);
    assert CircuitOf(s.circuits, provider) == Run(policy, INITIAL, Project(s.history, provider));
  }

  lemma TimedSinceOpening(h: seq<Entry>, provider: string, k: nat, t0: nat, clock: nat)
    requires Chronological(h, clock) && k <= |h| && Failure(t0) in Project(h[..k], provider)
    requires forall e :: e in Project(h[k..], provider) ==> !e.Success?
    ensures t0 <= clock && Timed(Project(h[k..], provider), t0, clock)
  {
    var before, after := h[..k], h[k..];
    ProjectMembers(before, provider, Failure(t0));
    var j :| 0 <= j < k && before[j] == Entry(provider, Failure(t0));
    assert h[j].event.at == t0;
    assert forall i :: 0 <= i < |after| ==> after[i] == h[k + i];
    ProjectTimed(after, provider, t0, clock);
  }

  // ---------------------------------------------------------------- a lost probe is lost for ever

  /** Between permission and record for the provider. */
  predicate Probing(r: Request, provider: string) {
    && r.Running? && Current(r.driver) == provider
    && (r.driver.phase.Permitted? || r.driver.phase.Calling? || r.driver.phase.Sleeping? || r.driver.phase.Recording?)
  }

  /** The circuit is half-open, its probes are used up, and no live request will report on it. */
  ghost predicate Starved(cfg: Config, s: State, provider: string) {
    && CircuitOf(s.circuits, provider).state == HalfOpen
    && CircuitOf(s.circuits, provider).probesUsed >= MaxProbes(cfg.policy(provider))
    && (forall id :: id in s.requests ==> !Probing(s.requests[id], provider))
  }

  lemma NotProbing(d: Driver, input: Input, provider: string)
    requires Inv(d) && Expects(d, input) && !Probing(Running(d), provider)
    requires input.Verdict? && input.allowed ==> Current(d) != provider
    ensures !Probing(Running(Drive(d, input)), provider)
  {
    DriveReady(d, input);
  }

  /** A step that leaves the circuit alone and gives no request a probe. */
  lemma StarvedKept(cfg: Config, s: State, t: State, provider: string)
    requires Starved(cfg, s, provider) && CircuitOf(t.circuits, provider) == CircuitOf(s.circuits, provider)
    requires forall id :: id in t.requests ==>
               !Probing(t.requests[id], provider) || (id in s.requests && t.requests[id] == s.requests[id])
    ensures Starved(cfg, t, provider)
  {
  }

  lemma StarvedAskBreaker(cfg: Config, s: State, id: nat, provider: string)
    requires SystemInv(cfg, s) && Starved(cfg, s, provider) && Enabled(s, AskBreaker(id))
    ensures CircuitOf(Gateway.Step(cfg, s, AskBreaker(id)).circuits, provider) == CircuitOf(s.circuits, provider)
    ensures Starved(cfg, Gateway.Step(cfg, s, AskBreaker(id)), provider)
  {
    var d := s.requests[id].driver;
    var allowed := Permits(cfg.policy(Current(d)), CircuitOf(s.circuits, Current(d)), Allow(s.clock));
    NotProbing(d, Verdict(allowed), provider);
    StarvedKept(cfg, s, Gateway.Step(cfg, s, AskBreaker(id)), provider);
  }

  lemma StarvedAskAdmission(cfg: Config, s: State, id: nat, provider: string)
    requires SystemInv(cfg, s) && Starved(cfg, s, provider) && Enabled(s, AskAdmission(id))
    ensures CircuitOf(Gateway.Step(cfg, s, AskAdmission(id)).circuits, provider) == CircuitOf(s.circuits, provider)
    ensures Starved(cfg, Gateway.Step(cfg, s, AskAdmission(id)), provider)
  {
    var d := s.requests[id].driver;
    match AcquireProvider(cfg.limits, s.counters, Current(d)) {
      case Ok(_) => NotProbing(d, Slotted(None), provider);
      case Err(rejection) => NotProbing(d, Slotted(Some(rejection)), provider);
    }
    StarvedKept(cfg, s, Gateway.Step(cfg, s, AskAdmission(id)), provider);
  }

  lemma StarvedTellBreaker(cfg: Config, s: State, id: nat, provider: string)
    requires SystemInv(cfg, s) && Starved(cfg, s, provider) && Enabled(s, TellBreaker(id))
    ensures CircuitOf(Gateway.Step(cfg, s, TellBreaker(id)).circuits, provider) == CircuitOf(s.circuits, provider)
    ensures Starved(cfg, Gateway.Step(cfg, s, TellBreaker(id)), provider)
  {
    assert !Probing(s.requests[id], provider);
    NotProbing(s.requests[id].driver, Recorded, provider);
    StarvedKept(cfg, s, Gateway.Step(cfg, s, TellBreaker(id)), provider);
  }

  lemma StarvedMove(cfg: Config, s: State, a: Action, provider: string)
    requires SystemInv(cfg, s) && Starved(cfg, s, provider) && Enabled(s, a) && (a.Answer? || a.Wake? || a.DropSlot?)
    ensures CircuitOf(Gateway.Step(cfg, s, a).circuits, provider) == CircuitOf(s.circuits, provider)
    ensures Starved(cfg, Gateway.Step(cfg, s, a), provider)
  {
    NotProbing(s.requests[a.id].driver, if a.Answer? then Replied(a.reply) else if a.Wake? then Woken
        else Dropped, provider);
    StarvedKept(cfg, s, Gateway.Step(cfg, s, a), provider);
  }

  lemma StarvedOther(cfg: Config, s: State, a: Action, provider: string)
    requires Starved(cfg, s, provider) && Enabled(s, a)
    requires a.Tick? || a.Arrive? || a.Begin? || a.EndStream? || a.Cancel? || a.Finish?
    ensures CircuitOf(Gateway.Step(cfg, s, a).circuits, provider) == CircuitOf(s.circuits, provider)
    ensures Starved(cfg, Gateway.Step(cfg, s, a), provider)
  {
    StarvedKept(cfg, s, Gateway.Step(cfg, s, a), provider);
  }

  lemma StarvedStep(cfg: Config, s: State, a: Action, provider: string)
    requires SystemInv(cfg, s) && Starved(cfg, s, provider) && Enabled(s, a)
    ensures Starved(cfg, Gateway.Step(cfg, s, a), provider)
    ensures CircuitOf(Gateway.Step(cfg, s, a).circuits, provider) == CircuitOf(s.circuits, provider)
  {
    match a
    case AskBreaker(id) => StarvedAskBreaker(cfg, s, id, provider);
    case AskAdmission(id) => StarvedAskAdmission(cfg, s, id, provider);
    case TellBreaker(id) => StarvedTellBreaker(cfg, s, id, provider);
    case Answer(_, _) => StarvedMove(cfg, s, a, provider);
    case Wake(_) => StarvedMove(cfg, s, a, provider);
    case DropSlot(_) => StarvedMove(cfg, s, a, provider);
    case _ => StarvedOther(cfg, s, a, provider);
  }

  /** Once starved, a provider is never called again, whatever happens and however long one waits. */
  lemma {:induction false} StarvedForEver(cfg: Config, s: State, run: seq<Action>, provider: string)
    requires SystemInv(cfg, s) && Starved(cfg, s, provider) && Runs(cfg, s, run)
    ensures Starved(cfg, Exec(cfg, s, run), provider)
    decreases run
  {
    if run != [] {
      StarvedStep(cfg, s, run[0], provider);
      StepKeepsInv(cfg, s, run[0]);
      StarvedForEver(cfg, Gateway.Step(cfg, s, run[0]), run[1..], provider);
    }
  }

  /** The moves that lose the last probe: a non-retryable answer or an empty stream, a refusal by
      admission after the breaker's permission, and a client that goes away. */
  predicate LosesProbe(cfg: Config, s: State, a: Action)
    requires Enabled(s, a)
  {
    || (a.Answer? && !a.reply.outcome.Answer? && !RetryableReply(a.reply))
    || (a.AskAdmission? && AcquireProvider(cfg.limits, s.counters, Current(s.requests[a.id].driver)).Err?)
    || (a.Cancel? && s.requests[a.id].Running?)
  }

  /** If the only request probing an exhausted half-open circuit loses its probe, the provider is
      starved from then on: nothing returns the permit. */
  lemma LostProbeStarves(cfg: Config, s: State, a: Action, provider: string)
    requires SystemInv(cfg, s) && Enabled(s, a) && LosesProbe(cfg, s, a)
    requires CircuitOf(s.circuits, provider).state == HalfOpen
    requires CircuitOf(s.circuits, provider).probesUsed >= MaxProbes(cfg.policy(provider))
    requires forall id :: id in s.requests && Probing(s.requests[id], provider) ==> id == a.id
    ensures Starved(cfg, Gateway.Step(cfg, s, a), provider)
  {
    var d := s.requests[a.id].driver;
    match a {
      case Answer(_, reply) => DriveReady(d, Replied(reply));
      case AskAdmission(_) =>
        DriveReady(d, Slotted(Some(AcquireProvider(cfg.limits, s.counters, Current(d)).error)));
      case Cancel(_) =>
    }
  }

  ghost predicate Reachable(cfg: Config, s: State) {
    exists run :: Runs(cfg, IDLE_STATE, run) && Exec(cfg, IDLE_STATE, run) == s
  }

  lemma {:induction false} RunsSnoc(cfg: Config, s: State, run: seq<Action>, a: Action)
    requires Runs(cfg, s, run) && Enabled(Exec(cfg, s, run), a)
    ensures Runs(cfg, s, run + [a]) && Exec(cfg, s, run + [a]) == Gateway.Step(cfg, Exec(cfg, s, run), a)
    decreases run
  {
    if run == [] {
      assert run + [a] == [a] && [a][1..] == [];
    } else {
      assert (run + [a])[1..] == run[1..] + [a];
      RunsSnoc(cfg, Gateway.Step(cfg, s, run[0]), run[1..], a);
    }
  }

  lemma ReachNext(cfg: Config, s: State, a: Action) returns (t: State)
    requires Reachable(cfg, s) && Enabled(s, a)
    ensures Reachable(cfg, t) && t == Gateway.Step(cfg, s, a)
  {
    var run :| Runs(cfg, IDLE_STATE, run) && Exec(cfg, IDLE_STATE, run) == s;
    RunsSnoc(cfg, IDLE_STATE, run, a);
    t := Gateway.Step(cfg, s, a);
    assert Runs(cfg, IDLE_STATE, run + [a]) && Exec(cfg, IDLE_STATE, run + [a]) == t;
  }

  const DEMO := Config(Limits(None, map[], map[], 1), (p: string) => BreakerPolicy(1, 1, 1))
  const DEMO_CANDS := [Candidate("p", 0)]

  const DEMO_POLICY := BreakerPolicy(1, 1, 1)

  lemma DemoArrives(s: State) returns (t: State)
    requires Reachable(DEMO, s) && s.requests == map[]
    ensures Reachable(DEMO, t) && t.requests == map[0 := Running(Start(DEMO_CANDS, false))]
    ensures t.circuits == s.circuits && t.clock == s.clock
  {
    t := ReachNext(DEMO, s, Arrive(0, None, DEMO_CANDS, false));
    assert t.requests == map[0 := Queued(DEMO_CANDS, false)];
    t := ReachNext(DEMO, t, Begin(0));
  }

  lemma DemoPermitted(s: State) returns (t: State)
    requires Reachable(DEMO, s) && s.requests == map[0 := Running(Start(DEMO_CANDS, false))]
    requires Permits(DEMO_POLICY, CircuitOf(s.circuits, "p"), Allow(s.clock))
    ensures Reachable(DEMO, t) && t.requests == map[0 := Running(Start(DEMO_CANDS, false).(phase := Permitted))]
    ensures t.clock == s.clock
    ensures CircuitOf(t.circuits, "p") == Resilience.Step(DEMO_POLICY, CircuitOf(s.circuits, "p"), Allow(s.clock))
  {
    assert DEMO.policy("p") == DEMO_POLICY;
    t := ReachNext(DEMO, s, AskBreaker(0));
  }

  lemma DemoCalled(s: State, reply: Reply) returns (t: State)
    requires Reachable(DEMO, s) && s.requests == map[0 := Running(Start(DEMO_CANDS, false).(phase := Permitted))]
    requires !reply.outcome.EmptyStream?
    ensures Reachable(DEMO, t)
    ensures t.requests == map[0 := Running(OnReply(Start(DEMO_CANDS, false).(phase := Calling), reply))]
    ensures t.circuits == s.circuits && t.clock == s.clock
  {
    t := ReachNext(DEMO, s, AskAdmission(0));
    assert t.requests == map[0 := Running(Start(DEMO_CANDS, false).(phase := Calling))];
    t := ReachNext(DEMO, t, Action.Answer(0, reply));
  }

  lemma DemoLeaves(s: State, d: Driver) returns (t: State)
    requires Reachable(DEMO, s) && s.requests == map[0 := Running(d)]
    requires d.cands == DEMO_CANDS && d.visits == [] && d.replies != [] && d.phase.Leaving?
    requires d.lastRetryable.Some? || !RetryableReply(Last(d.replies))
    ensures Reachable(DEMO, t) && t.requests == map[] && t.circuits == s.circuits && t.clock == s.clock
  {
    t := ReachNext(DEMO, s, DropSlot(0));
    assert t.requests == map[0 := Running(OnDropped(d))];
    t := ReachNext(DEMO, t, Finish(0));
  }

  lemma DemoOpens() returns (s: State)
    ensures Reachable(DEMO, s) && s.requests == map[] && s.clock == 0
    ensures CircuitOf(s.circuits, "p") == Circuit(Open, 1, Some(0), 0)
  {
    assert Runs(DEMO, IDLE_STATE, []) && Exec(DEMO, IDLE_STATE, []) == IDLE_STATE;
    s := DemoArrives(IDLE_STATE);
    s := DemoPermitted(s);
    s := DemoCalled(s, Reply(Fail(Timeout), 1));
    var d := s.requests[0].driver;
    assert d.phase == Recording(false) && d.visits == [];
    s := ReachNext(DEMO, s, TellBreaker(0));
    assert DEMO.policy("p") == DEMO_POLICY;
    s := DemoLeaves(s, OnRecorded(d));
  }

  /** Starvation is reachable: a retryable failure opens the circuit, and the probe after the open
      interval ends in an authentication failure, which is not reported to the breaker. */
  lemma StarvationReachable() returns (s: State)
    ensures Reachable(DEMO, s) && Starved(DEMO, s, "p") && s.requests == map[]
  {
    s := DemoOpens();
    s := ReachNext(DEMO, s, Tick(NANOS_PER_MS));
    s := DemoArrives(s);
    s := DemoPermitted(s);
    s := DemoCalled(s, Reply(Fail(AuthenticationFailed), 1));
    s := DemoLeaves(s, s.requests[0].driver);
    assert DEMO.policy("p") == DEMO_POLICY;
  }
}
