/** The calls in flight in the interleaved gateway: each request that is calling, backing off or
    streaming has one in-flight guard in the metrics registry, replaced when it calls again. */
module InFlight {
  import opened Base
  import opened Admission
  import opened Resilience
  import opened Fallback
  import opened Gateway
  import opened GatewayRuns
  import opened Metrics

  /** A request's live guard. */
  datatype Call = Call(id: nat, load: Load)

  /** The gateway, the registry's two gauges, and the live guards in the order they were made. */
  datatype World = World(s: State, inFlight: map<string, nat>, pressure: map<string, nat>, calls: seq<Call>)

  const QUIET := World(IDLE_STATE, map[], map[], [])

  function Loads(calls: seq<Call>): (loads: seq<Load>)
    ensures |loads| == |calls| && forall i :: 0 <= i < |calls| ==> loads[i] == calls[i].load
  {
    seq(|calls|, i requires 0 <= i < |calls| => calls[i].load)
  }

  /** `begin_provider_request`, by a new guard. */
  function BeginCall(w: World, id: nat, load: Load): World {
    w.(inFlight := w.inFlight[load.provider := Gauge(w.inFlight, load.provider) + 1],
       pressure := w.pressure[load.provider := Gauge(w.pressure, load.provider) + load.units],
       calls := w.calls + [Call(id, load)])
  }

  /** `end_provider_request`, when the guard with this position goes. */
  function EndAt(w: World, i: nat): World
    requires i < |w.calls|
  {
    var load := w.calls[i].load;
    w.(inFlight := Metrics.DecrementOrRemove(w.inFlight, load.provider, 1),
       pressure := Metrics.DecrementOrRemove(w.pressure, load.provider, load.units),
       calls := w.calls[..i] + w.calls[i + 1..])
  }

  function Find(calls: seq<Call>, id: nat): (i: nat)
    ensures i <= |calls| && (i < |calls| ==> calls[i].id == id)
    ensures i == |calls| ==> forall k :: 0 <= k < |calls| ==> calls[k].id != id
    ensures forall k :: 0 <= k < i ==> calls[k].id != id
  {
    if calls == [] then 0
    else if calls[0].id == id then 0
    else
      assert forall k :: 0 < k < |calls| ==> calls[k] == calls[1..][k - 1];
      1 + Find(calls[1..], id)
  }

  function EndCall(w: World, id: nat): World {
    var i := Find(w.calls, id);
    if i < |w.calls| then EndAt(w, i) else w
  }

  /** What an action does to the guards; `units` is the size of the call that it starts, if any. */
  function Account(cfg: Config, w: World, a: Action, units: nat): World
    requires Enabled(w.s, a)
  {
    match a
    case AskAdmission(id) =>
      var provider := Current(w.s.requests[id].driver);
      if AcquireProvider(cfg.limits, w.s.counters, provider).Ok? then BeginCall(w, id, Load(provider, units)) else w
    case Wake(id) => BeginCall(EndCall(w, id), id, Load(Current(w.s.requests[id].driver), units))
    case DropSlot(id) => EndCall(w, id)
    case EndStream(id) => EndCall(w, id)
    case Cancel(id) => EndCall(w, id)
    case _ => w
  }

  function Advance(cfg: Config, w: World, a: Action, units: nat): World
    requires Enabled(w.s, a)
  {
    Account(cfg, w, a, units).(s := Gateway.Step(cfg, w.s, a))
  }

  // ---------------------------------------------------------------- guards and requests

  /** Which provider a request is at, if any. */
  function PlaceOf(requests: map<nat, Request>, id: nat): Option<string> {
    if id in requests && HoldsProvider(requests[id]) then Some(Engaged(requests[id].driver)) else None
  }

  function Places(requests: map<nat, Request>): nat -> Option<string> {
    (id: nat) => PlaceOf(requests, id)
  }

  /** Which provider its guard is for. */
  function GuardOf(calls: seq<Call>, id: nat): Option<string> {
    if calls == [] then None
    else if Last(calls).id == id then Some(Last(calls).load.provider)
    else GuardOf(calls[..|calls| - 1], id)
  }

  ghost predicate OneEach(calls: seq<Call>) {
    forall i, j :: 0 <= i < j < |calls| ==> calls[i].id != calls[j].id
  }

  lemma GuardSnoc(calls: seq<Call>, c: Call, id: nat)
    ensures GuardOf(calls + [c], id) == if c.id == id then Some(c.load.provider) else GuardOf(calls, id)
  {
    assert (calls + [c])[..|calls|] == calls;
  }

  lemma {:induction false} GuardAt(calls: seq<Call>, id: nat)
    requires OneEach(calls)
    ensures var i := Find(calls, id);
            GuardOf(calls, id) == if i < |calls| then Some(calls[i].load.provider) else None
  {
    if calls != [] {
      var before, n := calls[..|calls| - 1], |calls| - 1;
      GuardAt(before, id);
      var i, k := Find(calls, id), Find(before, id);
      assert forall m :: 0 <= m < n ==> before[m] == calls[m];
      if i < n { assert before[i].id == id; }
    }
  }

  lemma {:induction false} GuardRemoved(calls: seq<Call>, i: nat, id: nat)
    requires OneEach(calls) && i < |calls|
    ensures OneEach(calls[..i] + calls[i + 1..])
    ensures GuardOf(calls[..i] + calls[i + 1..], id) == if id == calls[i].id then None else GuardOf(calls, id)
    decreases |calls|
  {
    var n := |calls| - 1;
    var before, last := calls[..n], calls[n];
    if i == n {
      assert calls[..i] + calls[i + 1..] == before;
      GuardAt(before, id);
    } else {
      GuardRemoved(before, i, id);
      assert calls[..i] + calls[i + 1..] == (before[..i] + before[i + 1..]) + [last];
      GuardSnoc(before[..i] + before[i + 1..], last, id);
    }
  }

  // ---------------------------------------------------------------- the gauges

  lemma BeginGauges(w: World, id: nat, load: Load)
    requires Gauges(w.inFlight, w.pressure, Loads(w.calls)) && load.units >= 1
    ensures var v := BeginCall(w, id, load); Gauges(v.inFlight, v.pressure, Loads(v.calls))
  {
    BeginKeepsGauges(w.inFlight, w.pressure, Loads(w.calls), load);
    assert Loads(w.calls + [Call(id, load)]) == Loads(w.calls) + [load];
  }

  lemma EndGauges(w: World, i: nat)
    requires Gauges(w.inFlight, w.pressure, Loads(w.calls)) && i < |w.calls|
    ensures var v := EndAt(w, i); Gauges(v.inFlight, v.pressure, Loads(v.calls))
  {
    EndKeepsGauges(w.inFlight, w.pressure, Loads(w.calls), i);
    assert Loads(w.calls[..i] + w.calls[i + 1..]) == Loads(w.calls)[..i] + Loads(w.calls)[i + 1..];
  }

  /** One guard for each request that is at a provider. */
  ghost predicate Guarded(calls: seq<Call>, place: nat -> Option<string>) {
    OneEach(calls) && forall id :: GuardOf(calls, id) == place(id)
  }

  ghost predicate Accounted(w: World, place: nat -> Option<string>) {
    Gauges(w.inFlight, w.pressure, Loads(w.calls)) && Guarded(w.calls, place)
  }

  ghost predicate WorldInv(cfg: Config, w: World) {
    && SystemInv(cfg, w.s) && SlotsMatch(cfg, w.s) && PlainGuards(w.s)
    && Accounted(w, Places(w.s.requests))
  }

  lemma GuardAdded(calls: seq<Call>, before: nat -> Option<string>, after: nat -> Option<string>, c: Call)
    requires Guarded(calls, before) && before(c.id) == None
    requires forall j :: after(j) == if j == c.id then Some(c.load.provider) else before(j)
    ensures Guarded(calls + [c], after)
  {
    forall j ensures GuardOf(calls + [c], j) == after(j) {
      GuardSnoc(calls, c, j);
    }
    GuardAt(calls, c.id);
  }

  lemma GuardTaken(calls: seq<Call>, before: nat -> Option<string>, after: nat -> Option<string>, i: nat)
    requires Guarded(calls, before) && i < |calls|
    requires forall j :: after(j) == if j == calls[i].id then None else before(j)
    ensures Guarded(calls[..i] + calls[i + 1..], after)
  {
    forall j ensures GuardOf(calls[..i] + calls[i + 1..], j) == after(j) {
      GuardRemoved(calls, i, j);
    }
    GuardRemoved(calls, i, 0);
  }

  lemma Occupied(w: World, before: nat -> Option<string>, after: nat -> Option<string>, id: nat, load: Load)
    requires Accounted(w, before) && before(id) == None && load.units >= 1
    requires forall j :: after(j) == if j == id then Some(load.provider) else before(j)
    ensures Accounted(BeginCall(w, id, load), after)
  {
    BeginGauges(w, id, load);
    GuardAdded(w.calls, before, after, Call(id, load));
  }

  /** The guard of a request that leaves its place goes; a request without a place has none. */
  lemma Vacated(w: World, before: nat -> Option<string>, after: nat -> Option<string>, id: nat)
    requires Accounted(w, before) && forall j :: after(j) == if j == id then None else before(j)
    ensures Accounted(EndCall(w, id), after)
  {
    var i := Find(w.calls, id);
    if i < |w.calls| {
      EndGauges(w, i);
      GuardTaken(w.calls, before, after, i);
    } else {
      GuardAt(w.calls, id);
    }
  }

  // ---------------------------------------------------------------- every step

  /** How places change: not at all, by a grant, or by a release. */
  lemma ElsewhereKept(cfg: Config, s: State, a: Action, id: nat)
    requires Enabled(s, a) && (a.Tick? || id != a.id)
    ensures PlaceOf(Gateway.Step(cfg, s, a).requests, id) == PlaceOf(s.requests, id)
  {
  }

  lemma PlaceStays(cfg: Config, s: State, a: Action)
    requires SystemInv(cfg, s) && Enabled(s, a) && !a.Tick?
    requires a.Arrive? || a.Begin? || a.AskBreaker? || a.Answer? || a.Wake? || a.TellBreaker? || a.Finish?
    ensures PlaceOf(Gateway.Step(cfg, s, a).requests, a.id) == PlaceOf(s.requests, a.id)
  {
    match a
    case AskBreaker(id) => NoPlaceYet(cfg, s, id);
    case Answer(id, reply) => StaysEngaged(s.requests[id].driver, Replied(reply));
    case Wake(id) => StaysEngaged(s.requests[id].driver, Woken);
    case TellBreaker(id) => StaysEngaged(s.requests[id].driver, Recorded);
    case _ =>
  }

  lemma NoPlaceYet(cfg: Config, s: State, id: nat)
    requires SystemInv(cfg, s) && Enabled(s, AskBreaker(id))
    ensures PlaceOf(s.requests, id) == PlaceOf(Gateway.Step(cfg, s, AskBreaker(id)).requests, id) == None
  {
    var d := s.requests[id].driver;
    DriveOk(d, Verdict(Permits(cfg.policy(Current(d)), CircuitOf(s.circuits, Current(d)), Allow(s.clock))));
  }

  lemma StaysEngaged(d: Driver, input: Input)
    requires Inv(d) && Expects(d, input) && (input.Replied? || input.Woken? || input.Recorded?)
    ensures Holding(d) && Holding(Drive(d, input)) && Engaged(Drive(d, input)) == Engaged(d)
  {
    DriveOk(d, input);
    EngagedKept(d, input);
  }

  lemma PlaceAfterAsking(cfg: Config, s: State, id: nat)
    requires SystemInv(cfg, s) && Enabled(s, AskAdmission(id))
    ensures PlaceOf(s.requests, id) == None
    ensures var provider := Current(s.requests[id].driver);
            PlaceOf(Gateway.Step(cfg, s, AskAdmission(id)).requests, id) ==
            if AcquireProvider(cfg.limits, s.counters, provider).Ok? then Some(provider) else None
  {
    var d := s.requests[id].driver;
    match AcquireProvider(cfg.limits, s.counters, Current(d)) {
      case Ok(_) =>
        DriveOk(d, Slotted(None));
        SlottedEngaged(d);
      case Err(r) => DriveOk(d, Slotted(Some(r)));
    }
  }

  lemma PlaceGone(cfg: Config, s: State, a: Action)
    requires SystemInv(cfg, s) && Enabled(s, a) && (a.DropSlot? || a.EndStream? || a.Cancel?)
    ensures PlaceOf(Gateway.Step(cfg, s, a).requests, a.id) == None
  {
    if a.DropSlot? { DriveOk(s.requests[a.id].driver, Dropped); }
  }

  /** Where the requests are after an action that puts the acting one at `place`. */
  lemma PlacesAfter(cfg: Config, s: State, a: Action, place: Option<string>)
    requires Enabled(s, a) && !a.Tick? && PlaceOf(Gateway.Step(cfg, s, a).requests, a.id) == place
    ensures forall j :: PlaceOf(Gateway.Step(cfg, s, a).requests, j) ==
                        if j == a.id then place else PlaceOf(s.requests, j)
  {
    var after := Gateway.Step(cfg, s, a).requests;
    forall j ensures PlaceOf(after, j) == if j == a.id then place else PlaceOf(s.requests, j) {
      if j != a.id { ElsewhereKept(cfg, s, a, j); }
    }
  }

  lemma EndAccounts(cfg: Config, w: World, a: Action, units: nat)
    requires WorldInv(cfg, w) && Enabled(w.s, a) && (a.DropSlot? || a.EndStream? || a.Cancel?)
    ensures var v := Advance(cfg, w, a, units); Accounted(v, Places(v.s.requests))
  {
    var v := Advance(cfg, w, a, units);
    PlaceGone(cfg, w.s, a);
    PlacesAfter(cfg, w.s, a, None);
    Vacated(w, Places(w.s.requests), Places(v.s.requests), a.id);
  }

  lemma BeginAccounts(cfg: Config, w: World, id: nat, units: nat)
    requires WorldInv(cfg, w) && Enabled(w.s, AskAdmission(id)) && units >= 1
    ensures var v := Advance(cfg, w, AskAdmission(id), units); Accounted(v, Places(v.s.requests))
  {
    var v := Advance(cfg, w, AskAdmission(id), units);
    var provider := Current(w.s.requests[id].driver);
    PlaceAfterAsking(cfg, w.s, id);
    if AcquireProvider(cfg.limits, w.s.counters, provider).Ok? {
      PlacesAfter(cfg, w.s, AskAdmission(id), Some(provider));
      Occupied(w, Places(w.s.requests), Places(v.s.requests), id, Load(provider, units));
    } else {
      PlacesAfter(cfg, w.s, AskAdmission(id), None);
    }
  }

  /** A retry's guard replaces the one of the call before it. */
  lemma Replaced(w: World, before: nat -> Option<string>, after: nat -> Option<string>, id: nat, load: Load)
    requires Accounted(w, before) && before(id) == Some(load.provider) && load.units >= 1
    requires forall j :: after(j) == before(j)
    ensures Accounted(BeginCall(EndCall(w, id), id, load), after)
  {
    var between := (j: nat) => if j == id then None else before(j);
    Vacated(w, before, between, id);
    Occupied(EndCall(w, id), between, after, id, load);
  }

  lemma ReplaceAccounts(cfg: Config, w: World, id: nat, units: nat)
    requires WorldInv(cfg, w) && Enabled(w.s, Wake(id)) && units >= 1
    ensures var v := Advance(cfg, w, Wake(id), units); Accounted(v, Places(v.s.requests))
  {
    var v := Advance(cfg, w, Wake(id), units);
    var provider := Current(w.s.requests[id].driver);
    PlaceStays(cfg, w.s, Wake(id));
    PlacesAfter(cfg, w.s, Wake(id), Some(provider));
    Replaced(w, Places(w.s.requests), Places(v.s.requests), id, Load(provider, units));
  }

  lemma OtherAccounts(cfg: Config, w: World, a: Action, units: nat)
    requires WorldInv(cfg, w) && Enabled(w.s, a)
    requires !a.AskAdmission? && !a.Wake? && !a.DropSlot? && !a.EndStream? && !a.Cancel?
    ensures var v := Advance(cfg, w, a, units); Accounted(v, Places(v.s.requests))
  {
    if !a.Tick? {
      PlaceStays(cfg, w.s, a);
      PlacesAfter(cfg, w.s, a, PlaceOf(w.s.requests, a.id));
    }
  }

  lemma AdvanceKeeps(cfg: Config, w: World, a: Action, units: nat)
    requires WorldInv(cfg, w) && Enabled(w.s, a) && units >= 1
    ensures WorldInv(cfg, Advance(cfg, w, a, units))
  {
    StepKeepsInv(cfg, w.s, a);
    StepKeepsSlots(cfg, w.s, a);
    StepKeepsPlain(cfg, w.s, a);
    match a
    case AskAdmission(id) => BeginAccounts(cfg, w, id, units);
    case Wake(id) => ReplaceAccounts(cfg, w, id, units);
    case DropSlot(_) => EndAccounts(cfg, w, a, units);
    case EndStream(_) => EndAccounts(cfg, w, a, units);
    case Cancel(_) => EndAccounts(cfg, w, a, units);
    case _ => OtherAccounts(cfg, w, a, units);
  }

  // ---------------------------------------------------------------- whole runs

  /** An action, and the size of the call that it may start. */
  datatype Move = Move(action: Action, units: nat)

  predicate Moves(cfg: Config, w: World, run: seq<Move>)
    decreases run
  {
    run == [] || (Enabled(w.s, run[0].action) && run[0].units >= 1
                  && Moves(cfg, Advance(cfg, w, run[0].action, run[0].units), run[1..]))
  }

  function After(cfg: Config, w: World, run: seq<Move>): World
    requires Moves(cfg, w, run)
    decreases run
  {
    if run == [] then w else After(cfg, Advance(cfg, w, run[0].action, run[0].units), run[1..])
  }

  function ActionsOf(run: seq<Move>): (actions: seq<Action>)
    ensures |actions| == |run| && forall i :: 0 <= i < |run| ==> actions[i] == run[i].action
  {
    seq(|run|, i requires 0 <= i < |run| => run[i].action)
  }

  /** The gateway underneath runs as it does without the gauges. */
  lemma {:induction false} SameRun(cfg: Config, w: World, run: seq<Move>)
    requires Moves(cfg, w, run)
    ensures Runs(cfg, w.s, ActionsOf(run)) && Exec(cfg, w.s, ActionsOf(run)) == After(cfg, w, run).s
    decreases run
  {
    if run != [] {
      SameRun(cfg, Advance(cfg, w, run[0].action, run[0].units), run[1..]);
      assert ActionsOf(run)[1..] == ActionsOf(run[1..]);
    }
  }

  lemma {:induction false} WorldAlongRun(cfg: Config, w: World, run: seq<Move>)
    requires WorldInv(cfg, w) && Moves(cfg, w, run)
    ensures WorldInv(cfg, After(cfg, w, run))
    decreases run
  {
    if run != [] {
      AdvanceKeeps(cfg, w, run[0].action, run[0].units);
      WorldAlongRun(cfg, Advance(cfg, w, run[0].action, run[0].units), run[1..]);
    }
  }

  ghost function IdsAt(calls: seq<Call>, provider: string): set<nat> {
    set i | 0 <= i < |calls| && calls[i].load.provider == provider :: calls[i].id
  }

  /** With one guard each, guards are counted by their requests. */
  lemma {:induction false} CountedByIds(calls: seq<Call>, provider: string)
    requires OneEach(calls)
    ensures CallsOf(Loads(calls), provider) == |IdsAt(calls, provider)|
  {
    if calls == [] {
      assert IdsAt(calls, provider) == {};
    } else {
      var before, last := calls[..|calls| - 1], calls[|calls| - 1];
      CountedByIds(before, provider);
      assert Loads(calls)[..|calls| - 1] == Loads(before);
      IdsSnoc(before, last, provider);
      assert calls == before + [last];
    }
  }

  lemma IdsSnoc(calls: seq<Call>, c: Call, provider: string)
    requires forall i :: 0 <= i < |calls| ==> calls[i].id != c.id
    ensures IdsAt(calls + [c], provider) ==
            IdsAt(calls, provider) + (if c.load.provider == provider then {c.id} else {})
    ensures c.id !in IdsAt(calls, provider)
  {
    var now := calls + [c];
    forall id ensures id in IdsAt(now, provider) <==>
                      id in IdsAt(calls, provider) || (c.load.provider == provider && id == c.id) {
      if id in IdsAt(calls, provider) {
        var i :| 0 <= i < |calls| && calls[i].load.provider == provider && calls[i].id == id;
        assert now[i] == calls[i];
      }
      if c.load.provider == provider && id == c.id { assert now[|calls|] == c; }
    }
  }

  lemma {:induction false} IdsByGuard(calls: seq<Call>, provider: string, id: nat)
    requires OneEach(calls)
    ensures id in IdsAt(calls, provider) <==> GuardOf(calls, id) == Some(provider)
  {
    if calls != [] {
      var before, last := calls[..|calls| - 1], Last(calls);
      IdsByGuard(before, provider, id);
      IdsSnoc(before, last, provider);
      assert calls == before + [last];
    }
  }

  lemma IdsAreUsing(w: World, provider: string)
    requires OneEach(w.calls) && forall id :: GuardOf(w.calls, id) == PlaceOf(w.s.requests, id)
    ensures IdsAt(w.calls, provider) == Using(w.s, provider)
  {
    forall id ensures id in IdsAt(w.calls, provider) <==> id in Using(w.s, provider) {
      IdsByGuard(w.calls, provider, id);
      assert GuardOf(w.calls, id) == PlaceOf(w.s.requests, id);
    }
  }

  lemma QuietInv(cfg: Config)
    ensures WorldInv(cfg, QUIET)
  {
    IdleInv(cfg);
  }

  /** In every run a provider's in-flight gauge is the number of requests calling, backing off or
      streaming there, and is listed only while positive; each of them weighs at least one unit in its
      queue pressure; and if the provider has a limit, the gauge is admission's counter and within it. */
  lemma GaugeExactInEveryRun(cfg: Config, run: seq<Move>, provider: string)
    requires Moves(cfg, QUIET, run)
    ensures var w := After(cfg, QUIET, run);
            && Gauge(w.inFlight, provider) == |Using(w.s, provider)|
            && (provider in w.inFlight <==> Using(w.s, provider) != {})
            && Gauge(w.pressure, provider) == UnitsOf(Loads(w.calls), provider) >= Gauge(w.inFlight, provider)
            && (provider in cfg.limits.providers ==>
                  Gauge(w.inFlight, provider) == CountOf(w.s.counters, Provider(provider))
                      <= cfg.limits.providers[provider])
  {
    QuietInv(cfg);
    WorldAlongRun(cfg, QUIET, run);
    var w := After(cfg, QUIET, run);
    CountedByIds(w.calls, provider);
    IdsAreUsing(w, provider);
    EachWeighs(Loads(w.calls), provider);
    if provider in cfg.limits.providers {
      HoldersAreUsing(cfg, w.s, provider);
      ImageSize(Using(w.s, provider), false);
      assert CountOf(w.s.counters, Provider(provider)) == |Holders(w.s.guards, Provider(provider))|;
      assert LimitOf(cfg.limits, Provider(provider)).Some?;
    }
  }

  lemma {:induction false} EachWeighs(live: seq<Load>, provider: string)
    requires forall l :: l in live ==> l.units >= 1
    ensures CallsOf(live, provider) <= UnitsOf(live, provider)
  {
    if live != [] {
      var before := live[..|live| - 1];
      assert forall l :: l in before ==> l in live;
      EachWeighs(before, provider);
    }
  }

  lemma NoGuards(calls: seq<Call>)
    requires forall id :: GuardOf(calls, id) == None
    ensures calls == []
  {
    assert |calls| == 0 || GuardOf(calls, Last(calls).id) == None;
  }

  /** With no request left both gauges are empty. */
  lemma QuietAgain(cfg: Config, run: seq<Move>)
    requires Moves(cfg, QUIET, run) && After(cfg, QUIET, run).s.requests == map[]
    ensures var w := After(cfg, QUIET, run); w.inFlight == map[] && w.pressure == map[] && w.calls == []
  {
    QuietInv(cfg);
    WorldAlongRun(cfg, QUIET, run);
    var w := After(cfg, QUIET, run);
    NoGuards(w.calls);
    assert Loads(w.calls) == [];
  }
}
