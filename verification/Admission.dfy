/** Admission control: in-flight slots held by guards (`src/routing/admission.rs`). */
module Admission {
  import opened Base

  datatype Reason =
    | GlobalInFlightLimit
    | PoolInFlightLimit
    | ProviderInFlightLimit

  datatype Rejection = Rejection(reason: Reason, retryAfterSeconds: nat)

  datatype Limits = Limits(
    maxGlobal: Option<u64>,
    pools: map<string, u64>,
    providers: map<string, u64>,
    retryAfterSeconds: nat)

  datatype Slot = Global | Pool(pool: string) | Provider(provider: string)

  datatype Counters = Counters(global: u64, pools: map<string, u64>, providers: map<string, u64>)

  const IDLE := Counters(0, map[], map[])

  function Reject(l: Limits, reason: Reason): Rejection {
    Rejection(reason, if l.retryAfterSeconds < 1 then 1 else l.retryAfterSeconds)
  }

  /** The configured limit of a slot; an unlimited slot is never counted. */
  function LimitOf(l: Limits, s: Slot): Option<u64> {
    match s
    case Global => l.maxGlobal
    case Pool(p) => if p in l.pools then Some(l.pools[p]) else None
    case Provider(p) => if p in l.providers then Some(l.providers[p]) else None
  }

  function CountOf(c: Counters, s: Slot): u64 {
    match s
    case Global => c.global
    case Pool(p) => CountAt(c.pools, p)
    case Provider(p) => CountAt(c.providers, p)
  }

  /** The slots a request asks for, in the order in which they are taken. */
  function Wanted(l: Limits, pool: Option<string>): seq<Slot> {
    (if l.maxGlobal.Some? then [Global] else []) +
    (if pool.Some? && pool.value in l.pools then [Pool(pool.value)] else [])
  }

  function WantedProvider(l: Limits, provider: string): seq<Slot> {
    if provider in l.providers then [Provider(provider)] else []
  }

  predicate Full(l: Limits, c: Counters, s: Slot) {
    LimitOf(l, s).Some? && CountOf(c, s) >= LimitOf(l, s).value
  }

  function Take(c: Counters, s: Slot): Counters
    requires CountOf(c, s) < U64_MAX
  {
    match s
    case Global => c.(global := c.global + 1)
    case Pool(p) => c.(pools := c.pools[p := CountAt(c.pools, p) + 1])
    case Provider(p) => c.(providers := c.providers[p := CountAt(c.providers, p) + 1])
  }

  /** `decrement_or_remove` */
  function DecrementOrRemove(m: map<string, u64>, key: string): map<string, u64> {
    if key !in m then m
    else if SatSub64(m[key], 1) == 0 then m - {key}
    else m[key := SatSub64(m[key], 1)]
  }

  function GiveBack(c: Counters, s: Slot): Counters {
    match s
    case Global => c.(global := SatSub64(c.global, 1))
    case Pool(p) => c.(pools := DecrementOrRemove(c.pools, p))
    case Provider(p) => c.(providers := DecrementOrRemove(c.providers, p))
  }

  function Release(c: Counters, slots: seq<Slot>): Counters
    decreases slots
  {
    if slots == [] then c else Release(GiveBack(c, slots[0]), slots[1..])
  }

  datatype Grant = Grant(counters: Counters, slots: seq<Slot>)

  /** `try_acquire_request`: the global limit is examined before the pool's. */
  function AcquireRequest(l: Limits, c: Counters, pool: Option<string>): Result<Grant, Rejection> {
    if Full(l, c, Global) then Err(Reject(l, GlobalInFlightLimit))
    else if pool.Some? && Full(l, c, Pool(pool.value)) then Err(Reject(l, PoolInFlightLimit))
    else
      var c1 := if l.maxGlobal.Some? then Take(c, Global) else c;
      var c2 := if pool.Some? && pool.value in l.pools then Take(c1, Pool(pool.value)) else c1;
      Ok(Grant(c2, Wanted(l, pool)))
  }

  /** `try_acquire_provider`: an unlimited provider yields a guard that holds nothing. */
  function AcquireProvider(l: Limits, c: Counters, provider: string): Result<Grant, Rejection> {
    if provider !in l.providers then Ok(Grant(c, []))
    else if Full(l, c, Provider(provider)) then Err(Reject(l, ProviderInFlightLimit))
    else Ok(Grant(Take(c, Provider(provider)), WantedProvider(l, provider)))
  }

  // ---------------------------------------------------------------- the invariant

  /** The live guards that hold a slot. */
  ghost function Holders<G>(guards: map<G, seq<Slot>>, s: Slot): set<G> {
    set g | g in guards && s in guards[g]
  }

  /** No map keeps an entry for a count of zero. */
  ghost predicate Compact(c: Counters) {
    && (forall p :: p in c.pools ==> c.pools[p] > 0)
    && (forall p :: p in c.providers ==> c.providers[p] > 0)
  }

  /** A guard holds each slot once and only slots that have a limit. */
  ghost predicate GuardOk(l: Limits, slots: seq<Slot>) {
    && Distinct(slots)
    && (forall s :: s in slots ==> LimitOf(l, s).Some?)
  }

  ghost predicate Exact<G>(c: Counters, guards: map<G, seq<Slot>>) {
    forall s :: CountOf(c, s) == |Holders(guards, s)|
  }

  ghost predicate Bounded(l: Limits, c: Counters) {
    forall s :: LimitOf(l, s).Some? ==> CountOf(c, s) <= LimitOf(l, s).value
  }

  /** Every counter is the number of live guards holding its slot, within its limit, and stored
      only while positive. */
  ghost predicate Tracks<G>(l: Limits, c: Counters, guards: map<G, seq<Slot>>) {
    && Exact(c, guards)
    && Bounded(l, c)
    && Compact(c)
    && (forall g :: g in guards ==> GuardOk(l, guards[g]))
  }

  lemma HoldersAdd<G>(guards: map<G, seq<Slot>>, g: G, slots: seq<Slot>, s: Slot)
    requires g !in guards
    ensures |Holders(guards[g := slots], s)| == |Holders(guards, s)| + (if s in slots then 1 else 0)
  {
    var after := guards[g := slots];
    if s in slots {
      assert Holders(after, s) == Holders(guards, s) + {g};
    } else {
      assert Holders(after, s) == Holders(guards, s);
    }
  }

  lemma HoldersRemove<G>(guards: map<G, seq<Slot>>, g: G, s: Slot)
    requires g in guards
    ensures |Holders(guards - {g}, s)| == |Holders(guards, s)| - (if s in guards[g] then 1 else 0)
  {
    assert (guards - {g})[g := guards[g]] == guards;
    HoldersAdd(guards - {g}, g, guards[g], s);
  }

  /** Compact counters are determined by the count of each slot. */
  lemma CountsDetermine(c: Counters, d: Counters)
    requires Compact(c) && Compact(d)
    requires forall s :: CountOf(c, s) == CountOf(d, s)
    ensures c == d
  {
    assert CountOf(c, Global) == CountOf(d, Global);
    forall p
      ensures p in c.pools <==> p in d.pools
      ensures p in c.pools ==> c.pools[p] == d.pools[p]
      ensures p in c.providers <==> p in d.providers
      ensures p in c.providers ==> c.providers[p] == d.providers[p]
    {
      assert CountOf(c, Pool(p)) == CountOf(d, Pool(p));
      assert CountOf(c, Provider(p)) == CountOf(d, Provider(p));
    }
    assert c.pools == d.pools;
    assert c.providers == d.providers;
  }

  lemma GiveBackCounts(c: Counters, x: Slot, s: Slot)
    requires Compact(c) && CountOf(c, x) >= 1
    ensures Compact(GiveBack(c, x)) && CountOf(GiveBack(c, x), s) == CountOf(c, s) - (if s == x then 1 else 0)
  {
  }

  /** Returning distinct, held slots takes exactly one from each and never saturates. */
  lemma {:induction false} ReleaseCounts(c: Counters, slots: seq<Slot>, s: Slot)
    requires Compact(c) && Distinct(slots)
    requires forall x :: x in slots ==> CountOf(c, x) >= 1
    ensures Compact(Release(c, slots))
    ensures CountOf(Release(c, slots), s) == CountOf(c, s) - (if s in slots then 1 else 0)
    decreases slots
  {
    if slots != [] {
      var rest := slots[1..];
      assert forall x :: x in rest ==> x in slots && x != slots[0];
      forall x | x in rest ensures CountOf(GiveBack(c, slots[0]), x) >= 1 { GiveBackCounts(c, slots[0], x); }
      GiveBackCounts(c, slots[0], s);
      ReleaseCounts(GiveBack(c, slots[0]), rest, s);
    }
  }

  /** Adding a guard for slots that have just been counted keeps the invariant. */
  lemma AddedGuardTracks<G>(l: Limits, c: Counters, d: Counters, guards: map<G, seq<Slot>>, g: G, slots: seq<Slot>)
    requires Tracks(l, c, guards) && g !in guards
    requires Granted(l, c, d, slots)
    ensures Tracks(l, d, guards[g := slots])
  {
    forall s ensures CountOf(d, s) == |Holders(guards[g := slots], s)| {
      HoldersAdd(guards, g, slots, s);
      assert CountOf(c, s) == |Holders(guards, s)|;
    }
  }

  /** Neither the global limit nor the pool's is used up by live guards. */
  ghost predicate RoomForRequest<G>(l: Limits, guards: map<G, seq<Slot>>, pool: Option<string>) {
    && (l.maxGlobal.Some? ==> |Holders(guards, Global)| < l.maxGlobal.value)
    && (pool.Some? && pool.value in l.pools ==> |Holders(guards, Pool(pool.value))| < l.pools[pool.value])
  }

  ghost predicate RoomForProvider<G>(l: Limits, guards: map<G, seq<Slot>>, provider: string) {
    provider in l.providers ==> |Holders(guards, Provider(provider))| < l.providers[provider]
  }

  /** A request holds the global slot and its pool's, each if it has a limit. */
  ghost predicate SlotsOfRequest(l: Limits, pool: Option<string>, slots: seq<Slot>) {
    && Distinct(slots)
    && (Global in slots <==> l.maxGlobal.Some?)
    && (forall p :: Pool(p) in slots <==> pool == Some(p) && p in l.pools)
    && (forall p :: Provider(p) !in slots)
  }

  /** A request is refused exactly when one of its limits is used up by live guards, for the first of
      them; a granted one holds exactly the slots that it is counted for. */
  lemma RequestRefusedIffFull<G>(l: Limits, c: Counters, guards: map<G, seq<Slot>>, pool: Option<string>)
    requires Exact(c, guards)
    ensures match AcquireRequest(l, c, pool)
            case Ok(grant) => RoomForRequest(l, guards, pool) && SlotsOfRequest(l, pool, grant.slots)
            case Err(r) =>
              && !RoomForRequest(l, guards, pool) && r.retryAfterSeconds == Max(1, l.retryAfterSeconds)
              && r.reason == (if l.maxGlobal.Some? && |Holders(guards, Global)| >= l.maxGlobal.value
                              then GlobalInFlightLimit else PoolInFlightLimit)
  {
    assert CountOf(c, Global) == |Holders(guards, Global)|;
    if pool.Some? {
      assert CountOf(c, Pool(pool.value)) == |Holders(guards, Pool(pool.value))|;
    }
  }

  lemma ProviderRefusedIffFull<G>(l: Limits, c: Counters, guards: map<G, seq<Slot>>, provider: string)
    requires Exact(c, guards)
    ensures match AcquireProvider(l, c, provider)
            case Ok(grant) =>
              && RoomForProvider(l, guards, provider)
              && grant.slots == (if provider in l.providers then [Provider(provider)] else [])
            case Err(r) =>
              && !RoomForProvider(l, guards, provider)
              && r == Rejection(ProviderInFlightLimit, Max(1, l.retryAfterSeconds))
  {
    assert CountOf(c, Provider(provider)) == |Holders(guards, Provider(provider))|;
  }

  /** A grant counts each granted slot once, within limits. */
  ghost predicate Granted(l: Limits, c: Counters, d: Counters, slots: seq<Slot>) {
    && GuardOk(l, slots) && Bounded(l, d) && Compact(d)
    && (forall s :: CountOf(d, s) == CountOf(c, s) + (if s in slots then 1 else 0))
  }

  lemma TakeCounts(c: Counters, x: Slot, s: Slot)
    requires CountOf(c, x) < U64_MAX
    ensures CountOf(Take(c, x), s) == CountOf(c, s) + (if s == x then 1 else 0)
  {
  }

  /** One more slot with room. */
  lemma GrantedTake(l: Limits, c: Counters, d: Counters, slots: seq<Slot>, x: Slot)
    requires Granted(l, c, d, slots) && x !in slots && LimitOf(l, x).Some? && CountOf(d, x) < LimitOf(l, x).value
    ensures Granted(l, c, Take(d, x), slots + [x])
  {
    var e := Take(d, x);
    forall s
      ensures CountOf(e, s) == CountOf(c, s) + (if s in slots + [x] then 1 else 0)
      ensures LimitOf(l, s).Some? ==> CountOf(e, s) <= LimitOf(l, s).value
    {
      TakeCounts(d, x, s);
    }
  }

  lemma RequestGranted(l: Limits, c: Counters, pool: Option<string>)
    requires Bounded(l, c) && Compact(c)
    ensures match AcquireRequest(l, c, pool)
            case Ok(grant) => Granted(l, c, grant.counters, grant.slots)
            case Err(_) => true
  {
    if AcquireRequest(l, c, pool).Ok? {
      assert Granted(l, c, c, []);
      var d, slots := c, [];
      if l.maxGlobal.Some? {
        GrantedTake(l, c, d, slots, Global);
        d, slots := Take(d, Global), slots + [Global];
      }
      if pool.Some? && pool.value in l.pools {
        if l.maxGlobal.Some? { TakeCounts(c, Global, Pool(pool.value)); }
        GrantedTake(l, c, d, slots, Pool(pool.value));
        d, slots := Take(d, Pool(pool.value)), slots + [Pool(pool.value)];
      }
      assert slots == Wanted(l, pool);
    }
  }

  lemma ProviderGranted(l: Limits, c: Counters, provider: string)
    requires Bounded(l, c) && Compact(c)
    ensures match AcquireProvider(l, c, provider)
            case Ok(grant) => Granted(l, c, grant.counters, grant.slots)
            case Err(_) => true
  {
    if AcquireProvider(l, c, provider).Ok? {
      assert Granted(l, c, c, []);
      if provider in l.providers {
        GrantedTake(l, c, c, [], Provider(provider));
        assert [] + [Provider(provider)] == WantedProvider(l, provider);
      }
    }
  }

  /** A granted request acquisition keeps the invariant for the enlarged guard set. */
  lemma AcquireRequestTracks<G>(l: Limits, c: Counters, guards: map<G, seq<Slot>>, g: G, pool: Option<string>)
    requires Tracks(l, c, guards) && g !in guards && AcquireRequest(l, c, pool).Ok?
    ensures var grant := AcquireRequest(l, c, pool).value;
            Tracks(l, grant.counters, guards[g := grant.slots])
  {
    var grant := AcquireRequest(l, c, pool).value;
    RequestGranted(l, c, pool);
    AddedGuardTracks(l, c, grant.counters, guards, g, grant.slots);
  }

  lemma AcquireProviderTracks<G>(l: Limits, c: Counters, guards: map<G, seq<Slot>>, g: G, provider: string)
    requires Tracks(l, c, guards) && g !in guards && AcquireProvider(l, c, provider).Ok?
    ensures var grant := AcquireProvider(l, c, provider).value;
            Tracks(l, grant.counters, guards[g := grant.slots])
  {
    var grant := AcquireProvider(l, c, provider).value;
    ProviderGranted(l, c, provider);
    AddedGuardTracks(l, c, grant.counters, guards, g, grant.slots);
  }

  /** Every slot of a live guard is counted at least once, so releasing it cannot clip at zero. */
  lemma HeldIsCounted<G>(c: Counters, guards: map<G, seq<Slot>>, g: G, s: Slot)
    requires Exact(c, guards) && g in guards && s in guards[g]
    ensures CountOf(c, s) >= 1
  {
    assert g in Holders(guards, s);
    assert CountOf(c, s) == |Holders(guards, s)|;
  }

  /** Dropping a live guard keeps the invariant for the remaining ones. */
  lemma ReleaseTracks<G>(l: Limits, c: Counters, guards: map<G, seq<Slot>>, g: G)
    requires Tracks(l, c, guards) && g in guards
    ensures Tracks(l, Release(c, guards[g]), guards - {g})
  {
    var slots := guards[g];
    forall x | x in slots ensures CountOf(c, x) >= 1 { HeldIsCounted(c, guards, g, x); }
    ReleaseCounts(c, slots, Global);
    var after := Release(c, slots);
    forall s
      ensures CountOf(after, s) == |Holders(guards - {g}, s)| && CountOf(after, s) <= CountOf(c, s)
    {
      ReleaseCounts(c, slots, s);
      HoldersRemove(guards, g, s);
      assert CountOf(c, s) == |Holders(guards, s)|;
    }
  }

  /** With no live guard every counter is back at its start and both maps are empty. */
  lemma NoGuardsIdle<G>(l: Limits, c: Counters, guards: map<G, seq<Slot>>)
    requires Tracks(l, c, guards) && guards == map[]
    ensures c == IDLE
  {
    forall s ensures CountOf(c, s) == CountOf(IDLE, s) {
      assert Holders(guards, s) == {};
      assert CountOf(c, s) == |Holders(guards, s)|;
    }
    CountsDetermine(c, IDLE);
  }

  lemma RequestCounts(l: Limits, c: Counters, pool: Option<string>, s: Slot)
    requires AcquireRequest(l, c, pool).Ok?
    ensures var grant := AcquireRequest(l, c, pool).value;
            CountOf(grant.counters, s) == CountOf(c, s) + (if s in grant.slots then 1 else 0)
  {
    var d := if l.maxGlobal.Some? then Take(c, Global) else c;
    if l.maxGlobal.Some? { TakeCounts(c, Global, s); }
    if pool.Some? && pool.value in l.pools {
      if l.maxGlobal.Some? { TakeCounts(c, Global, Pool(pool.value)); }
      TakeCounts(d, Pool(pool.value), s);
    }
  }

  lemma RequestUndone(l: Limits, c: Counters, pool: Option<string>)
    requires Compact(c) && AcquireRequest(l, c, pool).Ok?
    ensures var grant := AcquireRequest(l, c, pool).value; Release(grant.counters, grant.slots) == c
  {
    var grant := AcquireRequest(l, c, pool).value;
    forall s ensures CountOf(grant.counters, s) == CountOf(c, s) + (if s in grant.slots then 1 else 0) {
      RequestCounts(l, c, pool, s);
    }
    GrantThenRelease(c, grant);
  }

  /** Releasing what was just granted restores the counters exactly, map entries included. */
  lemma ReleaseUndoesAcquire(l: Limits, c: Counters, pool: Option<string>, provider: string)
    requires Compact(c)
    ensures AcquireRequest(l, c, pool).Ok? ==>
              Release(AcquireRequest(l, c, pool).value.counters, AcquireRequest(l, c, pool).value.slots) == c
    ensures AcquireProvider(l, c, provider).Ok? ==>
              Release(AcquireProvider(l, c, provider).value.counters, AcquireProvider(l, c, provider).value.slots) == c
  {
    if AcquireRequest(l, c, pool).Ok? { RequestUndone(l, c, pool); }
    if AcquireProvider(l, c, provider).Ok? { GrantThenRelease(c, AcquireProvider(l, c, provider).value); }
  }

  lemma GrantThenRelease(c: Counters, grant: Grant)
    requires Compact(c) && Compact(grant.counters) && Distinct(grant.slots)
    requires forall s :: CountOf(grant.counters, s) == CountOf(c, s) + (if s in grant.slots then 1 else 0)
    ensures Release(grant.counters, grant.slots) == c
  {
    ReleaseCounts(grant.counters, grant.slots, Global);
    forall s ensures CountOf(Release(grant.counters, grant.slots), s) == CountOf(c, s) {
      ReleaseCounts(grant.counters, grant.slots, s);
    }
    CountsDetermine(Release(grant.counters, grant.slots), c);
  }

  // ---------------------------------------------------------------- the objects

  /** The shared controller. Each method body is one critical section of the counters' mutex, so
      any interleaving of requests is some sequence of calls. */
  class AdmissionController {
    const limits: Limits
    var globalInFlight: u64
    var poolInFlight: map<string, u64>
    var providerInFlight: map<string, u64>
    ghost var live: set<AdmissionGuard>

    ghost function Value(): Counters
      reads this
    {
      Counters(globalInFlight, poolInFlight, providerInFlight)
    }

    ghost function LiveSlots(): map<AdmissionGuard, seq<Slot>>
      reads this
    {
      map g | g in live :: g.slots
    }

    ghost predicate Valid()
      reads this, live
    {
      && Tracks(limits, Value(), LiveSlots())
      && (forall g :: g in live ==> g.active && g.controller == this)
    }

    constructor (limits: Limits)
      ensures Valid() && this.limits == limits && live == {} && Value() == IDLE
    {
      this.limits := limits;
      globalInFlight, poolInFlight, providerInFlight := 0, map[], map[];
      live := {};
      new;
      forall s ensures |Holders(LiveSlots(), s)| == 0 {
        assert Holders(LiveSlots(), s) == {};
      }
    }

    /** Check the limits of a request and count it if there is room. */
    method TakeRequest(pool: Option<string>) returns (r: Result<seq<Slot>, Rejection>)
      modifies `globalInFlight, `poolInFlight
      ensures match r
              case Ok(slots) => AcquireRequest(limits, old(Value()), pool) == Ok(Grant(Value(), slots))
              case Err(e) => AcquireRequest(limits, old(Value()), pool) == Err(e) && unchanged(this)
    {
      if limits.maxGlobal.Some? && globalInFlight >= limits.maxGlobal.value {
        return Err(Reject(limits, GlobalInFlightLimit));
      }
      if pool.Some? && pool.value in limits.pools {
        var current := CountAt(poolInFlight, pool.value);
        if current >= limits.pools[pool.value] {
          return Err(Reject(limits, PoolInFlightLimit));
        }
      }
      var slots := [];
      if limits.maxGlobal.Some? {
        globalInFlight := SatAdd64(globalInFlight, 1);
        slots := slots + [Global];
      }
      if pool.Some? && pool.value in limits.pools {
        poolInFlight := poolInFlight[pool.value := CountAt(poolInFlight, pool.value) + 1];
        slots := slots + [Pool(pool.value)];
      }
      r := Ok(slots);
      assert slots == Wanted(limits, pool);
    }

    method TryAcquireRequest(pool: Option<string>) returns (r: Result<AdmissionGuard, Rejection>)
      requires Valid()
      modifies this
      ensures Valid()
      ensures r.Ok? <==> RoomForRequest(limits, old(LiveSlots()), pool)
      ensures r.Err? ==> unchanged(this) && AcquireRequest(limits, Value(), pool) == Err(r.error)
      ensures r.Ok? ==> fresh(r.value) && live == old(live) + {r.value} && r.value.Live()
      ensures r.Ok? ==> SlotsOfRequest(limits, pool, r.value.slots) && r.value.controller == this
      ensures providerInFlight == old(providerInFlight)
    {
      ghost var before := Value();
      RequestRefusedIffFull(limits, before, LiveSlots(), pool);
      RequestGranted(limits, before, pool);
      var taken := TakeRequest(pool);
      match taken {
        case Err(e) => r := Err(e);
        case Ok(slots) => r := Admit(slots, before);
      }
    }

    /** The same for a provider. */
    method TakeProvider(provider: string) returns (r: Result<seq<Slot>, Rejection>)
      modifies `providerInFlight
      ensures match r
              case Ok(slots) => AcquireProvider(limits, old(Value()), provider) == Ok(Grant(Value(), slots))
              case Err(e) => AcquireProvider(limits, old(Value()), provider) == Err(e) && unchanged(this)
    {
      if provider !in limits.providers {
        return Ok([]);
      }
      if CountAt(providerInFlight, provider) >= limits.providers[provider] {
        return Err(Reject(limits, ProviderInFlightLimit));
      }
      providerInFlight := providerInFlight[provider := CountAt(providerInFlight, provider) + 1];
      r := Ok([Provider(provider)]);
    }

    method TryAcquireProvider(provider: string) returns (r: Result<AdmissionGuard, Rejection>)
      requires Valid()
      modifies this
      ensures Valid()
      ensures r.Ok? <==> RoomForProvider(limits, old(LiveSlots()), provider)
      ensures r.Ok? <==> AcquireProvider(limits, old(Value()), provider).Ok?
      ensures r.Err? ==> unchanged(this) && AcquireProvider(limits, Value(), provider) == Err(r.error)
      ensures r.Ok? ==> fresh(r.value) && live == old(live) + {r.value} && r.value.Live()
      ensures r.Ok? ==> r.value.slots == WantedProvider(limits, provider) && r.value.controller == this
    {
      ghost var before := Value();
      ProviderRefusedIffFull(limits, before, LiveSlots(), provider);
      var taken := TakeProvider(provider);
      match taken {
        case Err(e) => r := Err(e);
        case Ok(slots) =>
          ProviderGranted(limits, before, provider);
          r := Admit(slots, before);
      }
    }

    /** Wrap freshly taken slots in a guard (`AdmissionGuard::new`). */
    method Admit(slots: seq<Slot>, ghost before: Counters) returns (r: Result<AdmissionGuard, Rejection>)
      requires Tracks(limits, before, LiveSlots())
      requires forall g :: g in live ==> g.active && g.controller == this
      requires Granted(limits, before, Value(), slots)
      modifies this`live
      ensures Valid() && r.Ok?
      ensures fresh(r.value) && live == old(live) + {r.value} && r.value.Live()
      ensures r.value.slots == slots && r.value.controller == this
    {
      var guard := new AdmissionGuard(this, slots);
      live := live + {guard};
      assert LiveSlots() == old(LiveSlots())[guard := slots];
      AddedGuardTracks(limits, before, Value(), old(LiveSlots()), guard, slots);
      r := Ok(guard);
    }

    method ReleaseAll(slots: seq<Slot>)
      modifies this
      ensures Value() == Release(old(Value()), slots)
      ensures live == old(live)
    {
      var i := 0;
      while i < |slots|
        invariant 0 <= i <= |slots|
        invariant Release(Value(), slots[i..]) == Release(old(Value()), slots)
        invariant live == old(live)
      {
        match slots[i] {
          case Global => globalInFlight := SatSub64(globalInFlight, 1);
          case Pool(p) => poolInFlight := DecrementOrRemove(poolInFlight, p);
          case Provider(p) => providerInFlight := DecrementOrRemove(providerInFlight, p);
        }
        assert slots[i..][1..] == slots[i + 1..];
        i := i + 1;
      }
    }
  }

  class AdmissionGuard {
    const controller: AdmissionController
    const slots: seq<Slot>
    var active: bool

    /** The flag agrees with the controller's set of live guards. */
    ghost predicate Live()
      reads this, controller
    {
      active && this in controller.live
    }

    constructor (controller: AdmissionController, slots: seq<Slot>)
      ensures this.controller == controller && this.slots == slots && active
    {
      this.controller, this.slots, active := controller, slots, true;
    }

    /** Explicit finish and drop alike: the first call gives back one unit of each slot, any later
        call does nothing. */
    method Finish()
      requires controller.Valid()
      requires active <==> this in controller.live
      modifies this, controller
      ensures controller.Valid() && !active
      ensures controller.live == old(controller.live) - {this}
      ensures forall s :: CountOf(controller.Value(), s) ==
                          old(CountOf(controller.Value(), s)) - (if old(active) && s in slots then 1 else 0)
      ensures controller.live == {} ==> controller.Value() == IDLE
    {
      ghost var before, guards := controller.Value(), controller.LiveSlots();
      if active {
        controller.ReleaseAll(slots);
        active := false;
        controller.live := controller.live - {this};
        ReleaseTracks(controller.limits, before, guards, this);
        assert controller.LiveSlots() == guards - {this};
        forall s
          ensures CountOf(controller.Value(), s) == CountOf(before, s) - (if s in slots then 1 else 0)
        {
          forall x | x in slots ensures CountOf(before, x) >= 1 { HeldIsCounted(before, guards, this, x); }
          ReleaseCounts(before, slots, s);
        }
      }
      if controller.live == {} {
        NoGuardsIdle(controller.limits, controller.Value(), controller.LiveSlots());
      }
    }
  }
}
