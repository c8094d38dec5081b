/** When an exhausted half-open circuit can still recover. */
module Recovery {
  import opened Base
  import opened Admission
  import opened Resilience
  import opened Fallback
  import opened Gateway
  import opened GatewayRuns

  /** Some continuation takes the provider's circuit out of the half-open state. */
  ghost predicate Recovers(cfg: Config, s: State, provider: string) {
    exists run :: Runs(cfg, s, run) && CircuitOf(Exec(cfg, s, run).circuits, provider).state != HalfOpen
  }

  /** The circuit is half-open and has no probe left. */
  predicate Exhausted(cfg: Config, s: State, provider: string) {
    && CircuitOf(s.circuits, provider).state == HalfOpen
    && CircuitOf(s.circuits, provider).probesUsed >= MaxProbes(cfg.policy(provider))
  }

  lemma RecoversNow(cfg: Config, s: State, provider: string)
    requires CircuitOf(s.circuits, provider).state != HalfOpen
    ensures Recovers(cfg, s, provider)
  {
    assert Runs(cfg, s, []) && Exec(cfg, s, []) == s;
  }

  lemma RecoversAfter(cfg: Config, s: State, a: Action, provider: string)
    requires Enabled(s, a) && Recovers(cfg, Gateway.Step(cfg, s, a), provider)
    ensures Recovers(cfg, s, provider)
  {
    var t := Gateway.Step(cfg, s, a);
    var run :| Runs(cfg, t, run) && CircuitOf(Exec(cfg, t, run).circuits, provider).state != HalfOpen;
    assert ([a] + run)[1..] == run;
    assert Runs(cfg, s, [a] + run) && Exec(cfg, s, [a] + run) == Exec(cfg, t, run);
  }

  // ---------------------------------------------------------------- a probe that is still under way

  /** A request is at the provider in this phase. */
  predicate At(s: State, id: nat, provider: string) {
    Active(s, id) && Current(s.requests[id].driver) == provider
  }

  lemma RecordingRecovers(cfg: Config, s: State, id: nat, provider: string)
    requires SystemInv(cfg, s) && At(s, id, provider) && s.requests[id].driver.phase.Recording?
    requires CircuitOf(s.circuits, provider).state == HalfOpen
    ensures Recovers(cfg, s, provider)
  {
    RecoversNow(cfg, Gateway.Step(cfg, s, TellBreaker(id)), provider);
    RecoversAfter(cfg, s, TellBreaker(id), provider);
  }

  lemma AnsweredIsRecording(d: Driver)
    requires Inv(d) && d.phase.Calling?
    ensures var e := Drive(d, Replied(Reply(Outcome.Answer, 0))); e.phase == Recording(true) && Current(e) == Current(d)
  {
    DriveReady(d, Replied(Reply(Outcome.Answer, 0)));
  }

  lemma CallingRecovers(cfg: Config, s: State, id: nat, provider: string)
    requires SystemInv(cfg, s) && At(s, id, provider) && s.requests[id].driver.phase.Calling?
    requires CircuitOf(s.circuits, provider).state == HalfOpen
    ensures Recovers(cfg, s, provider)
  {
    var a := Action.Answer(id, Reply(Outcome.Answer, 0));
    AnsweredIsRecording(s.requests[id].driver);
    StepKeepsInv(cfg, s, a);
    RecordingRecovers(cfg, Gateway.Step(cfg, s, a), id, provider);
    RecoversAfter(cfg, s, a, provider);
  }

  lemma SleepingRecovers(cfg: Config, s: State, id: nat, provider: string)
    requires SystemInv(cfg, s) && At(s, id, provider) && s.requests[id].driver.phase.Sleeping?
    requires CircuitOf(s.circuits, provider).state == HalfOpen
    ensures Recovers(cfg, s, provider)
  {
    DriveReady(s.requests[id].driver, Woken);
    StepKeepsInv(cfg, s, Wake(id));
    CallingRecovers(cfg, Gateway.Step(cfg, s, Wake(id)), id, provider);
    RecoversAfter(cfg, s, Wake(id), provider);
  }

  lemma AdmittedRecovers(cfg: Config, s: State, id: nat, provider: string)
    requires SystemInv(cfg, s) && At(s, id, provider) && s.requests[id].driver.phase.Permitted?
    requires CircuitOf(s.circuits, provider).state == HalfOpen
    requires AcquireProvider(cfg.limits, s.counters, provider).Ok?
    ensures Recovers(cfg, s, provider)
  {
    DriveReady(s.requests[id].driver, Slotted(None));
    StepKeepsInv(cfg, s, AskAdmission(id));
    CallingRecovers(cfg, Gateway.Step(cfg, s, AskAdmission(id)), id, provider);
    RecoversAfter(cfg, s, AskAdmission(id), provider);
  }

  // ---------------------------------------------------------------- making room for it

  /** A full provider has a request that holds its slot. */
  lemma SomeoneHolds(cfg: Config, s: State, provider: string) returns (j: nat)
    requires SystemInv(cfg, s) && SlotsMatch(cfg, s) && PlainGuards(s)
    requires provider in cfg.limits.providers && CountOf(s.counters, Provider(provider)) >= 1
    ensures j in s.requests && HoldsProvider(s.requests[j]) && Engaged(s.requests[j].driver) == provider
    ensures ProviderGuard(j) in s.guards && s.guards[ProviderGuard(j)] == [Provider(provider)]
  {
    assert CountOf(s.counters, Provider(provider)) == |Holders(s.guards, Provider(provider))|;
    var g :| g in Holders(s.guards, Provider(provider));
    assert g in s.guards && Provider(provider) in s.guards[g];
    assert g.ProviderGuard? && Owned(s.requests, g);
    j := g.id;
    assert SlotsMatchAt(cfg, s, j);
  }

  /** Freeing the slot makes room, because no counter is above its limit. */
  lemma FreeMakesRoom(cfg: Config, s: State, j: nat, provider: string)
    requires Tracks(cfg.limits, s.counters, s.guards) && ProviderGuard(j) in s.guards
    requires s.guards[ProviderGuard(j)] == [Provider(provider)]
    ensures AcquireProvider(cfg.limits, Free(s, ProviderGuard(j)).counters, provider).Ok?
  {
    var slot := Provider(provider);
    HeldIsCounted(s.counters, s.guards, ProviderGuard(j), slot);
    ReleaseCounts(s.counters, [slot], slot);
    assert LimitOf(cfg.limits, slot).Some? ==> CountOf(s.counters, slot) <= LimitOf(cfg.limits, slot).value;
  }

  lemma RoomRecovers(cfg: Config, s: State, id: nat, j: nat, a: Action, provider: string)
    requires SystemInv(cfg, s) && At(s, id, provider) && s.requests[id].driver.phase.Permitted?
    requires CircuitOf(s.circuits, provider).state == HalfOpen
    requires j != id && Enabled(s, a) && (a == DropSlot(j) || a == EndStream(j))
    requires ProviderGuard(j) in s.guards && s.guards[ProviderGuard(j)] == [Provider(provider)]
    ensures Recovers(cfg, s, provider)
  {
    var t := Gateway.Step(cfg, s, a);
    FreeMakesRoom(cfg, s, j, provider);
    StepKeepsInv(cfg, s, a);
    AdmittedRecovers(cfg, t, id, provider);
    RecoversAfter(cfg, s, a, provider);
  }

  lemma PermittedRecovers(cfg: Config, s: State, id: nat, provider: string)
    requires SystemInv(cfg, s) && SlotsMatch(cfg, s) && PlainGuards(s)
    requires At(s, id, provider) && s.requests[id].driver.phase.Permitted?
    requires CircuitOf(s.circuits, provider).state == HalfOpen
    requires provider in cfg.limits.providers ==> cfg.limits.providers[provider] >= 1
    ensures Recovers(cfg, s, provider)
  {
    if AcquireProvider(cfg.limits, s.counters, provider).Ok? {
      AdmittedRecovers(cfg, s, id, provider);
    } else {
      var j := SomeoneHolds(cfg, s, provider);
      match s.requests[j].driver.phase {
        case Calling => CallingRecovers(cfg, s, j, provider);
        case Sleeping => SleepingRecovers(cfg, s, j, provider);
        case Recording(_) => RecordingRecovers(cfg, s, j, provider);
        case Leaving => RoomRecovers(cfg, s, id, j, DropSlot(j), provider);
        case HandedOff(_) => RoomRecovers(cfg, s, id, j, EndStream(j), provider);
      }
    }
  }

  lemma ProbingRecovers(cfg: Config, s: State, id: nat, provider: string)
    requires SystemInv(cfg, s) && SlotsMatch(cfg, s) && PlainGuards(s)
    requires id in s.requests && Probing(s.requests[id], provider)
    requires CircuitOf(s.circuits, provider).state == HalfOpen
    requires provider in cfg.limits.providers ==> cfg.limits.providers[provider] >= 1
    ensures Recovers(cfg, s, provider)
  {
    match s.requests[id].driver.phase {
      case Permitted => PermittedRecovers(cfg, s, id, provider);
      case Calling => CallingRecovers(cfg, s, id, provider);
      case Sleeping => SleepingRecovers(cfg, s, id, provider);
      case Recording(_) => RecordingRecovers(cfg, s, id, provider);
    }
  }

  /** In every reachable state with an exhausted half-open circuit: the circuit can still recover
      exactly when some live request is probing it. */
  lemma RecoversIffNotStarved(cfg: Config, s: State, provider: string)
    requires Reachable(cfg, s) && Exhausted(cfg, s, provider)
    requires provider in cfg.limits.providers ==> cfg.limits.providers[provider] >= 1
    ensures Recovers(cfg, s, provider) <==> !Starved(cfg, s, provider)
  {
    var before :| Runs(cfg, IDLE_STATE, before) && Exec(cfg, IDLE_STATE, before) == s;
    IdleInv(cfg);
    InvAlongRun(cfg, IDLE_STATE, before);
    PlainAlongRun(cfg, IDLE_STATE, before);
    if Starved(cfg, s, provider) {
      forall run | Runs(cfg, s, run) ensures CircuitOf(Exec(cfg, s, run).circuits, provider).state == HalfOpen {
        StarvedForEver(cfg, s, run, provider);
      }
    } else {
      var id :| id in s.requests && Probing(s.requests[id], provider);
      ProbingRecovers(cfg, s, id, provider);
    }
  }
}
