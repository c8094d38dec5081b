/** Which model names the gateway accepts and lists: configuration checks (`src/config.rs`), the pool
    index (`src/routing/model_pools.rs`) and model discovery (`src/routes/models.rs`). */
module Models {
  import opened Base
  import opened Resilience
  import opened Selection
  import opened Routing
  import opened Sse
  import Backoff

  datatype PoolConfig = PoolConfig(
    name: string,
    aliases: seq<string>,
    members: seq<string>,
    policy: Option<Policy>,
    maxInFlight: Option<u64>)

  /** A provider's settings that selection does not read. */
  datatype Settings = Settings(
    failureRate: real,
    baseUrl: Option<string>,
    needsKey: bool,
    apiKeyEnv: Option<string>,
    timeoutMs: Option<u64>,
    maxInFlight: Option<u64>,
    initialBackoffMs: Option<u64>,
    maxBackoffMs: Option<u64>,
    failureThreshold: Option<u32>,
    openDurationMs: Option<u64>,
    halfOpenMaxProbes: Option<u32>)

  /** The gateway's defaults for them. */
  datatype Defaults = Defaults(retry: RetryPolicy, breaker: BreakerPolicy)

  /** `settings` are by position in the list of providers. */
  datatype Config = Config(
    providers: seq<Provider>,
    settings: nat -> Settings,
    defaults: Defaults,
    pools: seq<PoolConfig>,
    aliases: map<string, string>)

  /** `str::trim` */
  function Trim(s: string): string {
    TrimEnd(TrimStart(s))
  }

  function TrimEnd(s: string): string {
    if s != "" && IsWhitespace(s[|s| - 1]) then TrimEnd(s[..|s| - 1]) else s
  }

  predicate Clean(s: string) {
    Trim(s) == s
  }

  function ProviderModels(c: Config): set<string> {
    set p | p in c.providers :: p.model
  }

  // ---------------------------------------------------------------- checking pools

  datatype Issue =
    | NoProviders | UnknownAliasTarget | EmptyAliasTarget | EmptyProviderName | DuplicateProvider
    | EmptyModel | ZeroPriority | NegativeCost | BadFailureRate | EmptyBaseUrl | ZeroTimeout | ZeroLimit
    | MissingKey | ZeroBackoff | BackoffOrder | ZeroBreaker
    | EmptyPoolName | DuplicatePool | ClashesWithModel | ClashesWithAlias | DuplicateId
    | NoMembers | EmptyMember | UnknownMember | EmptyPoolAlias

  /** What a name is checked against. */
  datatype Known = Known(names: set<string>, models: set<string>, keys: set<string>)

  function TrimAll(ss: seq<string>): seq<string> {
    if ss == [] then [] else TrimAll(ss[..|ss| - 1]) + [Trim(ss[|ss| - 1])]
  }

  /** The public IDs of a pool as the checks see them. */
  function CheckedIds(p: PoolConfig): seq<string> {
    [Trim(p.name)] + TrimAll(p.aliases)
  }

  function AllIds(pools: seq<PoolConfig>): seq<string> {
    if pools == [] then [] else AllIds(pools[..|pools| - 1]) + CheckedIds(pools[|pools| - 1])
  }

  predicate IdOk(id: string, k: Known) {
    id != "" && id !in k.models && id !in k.keys
  }

  predicate MemberOk(m: string, k: Known) {
    Trim(m) != "" && Trim(m) in k.names
  }

  ghost predicate PoolOk(p: PoolConfig, k: Known) {
    && p.members != [] && p.maxInFlight != Some(0)
    && (forall m :: m in p.members ==> MemberOk(m, k))
    && (forall id :: id in CheckedIds(p) ==> IdOk(id, k))
  }

  /** Every pool is well formed and no public ID is used twice. */
  ghost predicate PoolsOk(pools: seq<PoolConfig>, k: Known) {
    (forall p :: p in pools ==> PoolOk(p, k)) && Distinct(AllIds(pools))
  }

  lemma DistinctSnoc(ss: seq<string>, x: string)
    ensures Distinct(ss + [x]) <==> Distinct(ss) && x !in ss
  {
    var all := ss + [x];
    if Distinct(all) {
      assert forall i, j :: 0 <= i < j < |ss| ==> all[i] == ss[i] && all[j] == ss[j];
      forall i | 0 <= i < |ss| ensures ss[i] != x { assert all[i] != all[|ss|]; }
    }
  }

  lemma DistinctPrefix(ss: seq<string>, ts: seq<string>)
    requires Distinct(ss + ts)
    ensures Distinct(ss)
  {
    assert forall i :: 0 <= i < |ss| ==> (ss + ts)[i] == ss[i];
  }

  lemma TrimAllSnoc(ss: seq<string>, i: nat)
    requires i < |ss|
    ensures TrimAll(ss[..i + 1]) == TrimAll(ss[..i]) + [Trim(ss[i])]
  {
    assert ss[..i + 1][..i] == ss[..i];
  }

  method CheckMembers(p: PoolConfig, k: Known) returns (errors: seq<Issue>)
    ensures errors == [] <==> forall m :: m in p.members ==> MemberOk(m, k)
  {
    errors := [];
    for i := 0 to |p.members|
      invariant errors == [] <==> forall j :: 0 <= j < i ==> MemberOk(p.members[j], k)
    {
      var member := Trim(p.members[i]);
      if member == "" {
        errors := errors + [EmptyMember];
      } else if member !in k.names {
        errors := errors + [UnknownMember];
      }
    }
  }

  /** The part of a pool's check that every ID goes through. */
  method CheckId(id: string, k: Known, seen: set<string>) returns (errors: seq<Issue>)
    requires id != ""
    ensures errors == [] <==> IdOk(id, k) && id !in seen
  {
    errors := [];
    if id in k.models { errors := errors + [ClashesWithModel]; }
    if id in k.keys { errors := errors + [ClashesWithAlias]; }
    if id in seen { errors := errors + [DuplicateId]; }
  }

  /** The IDs seen so far, if nothing has gone wrong yet. */
  ghost predicate Tracks(seen: set<string>, ids: seq<string>) {
    Distinct(ids) && forall x :: x in seen <==> x in ids
  }

  method CheckAliases(p: PoolConfig, k: Known, ghost before: seq<string>, seen: set<string>)
    returns (errors: seq<Issue>, all: set<string>)
    ensures Tracks(seen, before) ==> (errors == [] <==> AliasesOk(before, p.aliases, k))
    ensures Tracks(seen, before) && errors == [] ==> Tracks(all, before + TrimAll(p.aliases))
  {
    errors, all := [], seen;
    assert before + TrimAll(p.aliases[..0]) == before;
    for i := 0 to |p.aliases|
      invariant Tracks(seen, before) ==> (errors == [] <==> AliasesOk(before, p.aliases[..i], k))
      invariant Tracks(seen, before) && errors == [] ==> Tracks(all, before + TrimAll(p.aliases[..i]))
    {
      var id := Trim(p.aliases[i]);
      AliasesOkSnoc(before, p.aliases, i, k);
      if id == "" {
        errors := errors + [EmptyPoolAlias];
      } else {
        var more := CheckId(id, k, all);
        errors := errors + more;
        all := all + {id};
      }
    }
    assert p.aliases[..|p.aliases|] == p.aliases;
  }

  ghost predicate AliasesOk(before: seq<string>, aliases: seq<string>, k: Known) {
    (forall id :: id in TrimAll(aliases) ==> IdOk(id, k)) && Distinct(before + TrimAll(aliases))
  }

  lemma AliasesOkSnoc(before: seq<string>, aliases: seq<string>, i: nat, k: Known)
    requires i < |aliases|
    ensures var ids, x := before + TrimAll(aliases[..i]), Trim(aliases[i]);
            && (AliasesOk(before, aliases[..i + 1], k) <==>
                AliasesOk(before, aliases[..i], k) && IdOk(x, k) && x !in ids)
            && before + TrimAll(aliases[..i + 1]) == ids + [x]
  {
    TrimAllSnoc(aliases, i);
    var ids, x := TrimAll(aliases[..i]), Trim(aliases[i]);
    assert before + (ids + [x]) == (before + ids) + [x];
    DistinctSnoc(before + ids, x);
    assert forall id :: id in ids + [x] <==> id in ids || id == x;
  }

  lemma PoolsOkSnoc(pools: seq<PoolConfig>, i: nat, k: Known)
    requires i < |pools|
    ensures var before, x := AllIds(pools[..i]), Trim(pools[i].name);
            && AllIds(pools[..i + 1]) == (before + [x]) + TrimAll(pools[i].aliases)
            && (PoolsOk(pools[..i + 1], k) <==>
                  && PoolsOk(pools[..i], k) && IdOk(x, k) && x !in before
                  && pools[i].members != [] && pools[i].maxInFlight != Some(0)
                  && (forall m :: m in pools[i].members ==> MemberOk(m, k))
                  && AliasesOk(before + [x], pools[i].aliases, k))
  {
    var before, p := AllIds(pools[..i]), pools[i];
    var x, ids := Trim(p.name), TrimAll(p.aliases);
    assert pools[..i + 1][..i] == pools[..i];
    assert before + ([x] + ids) == (before + [x]) + ids;
    assert pools[..i + 1] == pools[..i] + [p];
    assert (forall q :: q in pools[..i + 1] ==> PoolOk(q, k)) <==>
           (forall q :: q in pools[..i] ==> PoolOk(q, k)) && PoolOk(p, k) by {
      assert forall q :: q in pools[..i] + [p] <==> q in pools[..i] || q == p;
    }
    assert (forall id :: id in CheckedIds(p) ==> IdOk(id, k)) <==>
           IdOk(x, k) && (forall id :: id in ids ==> IdOk(id, k)) by {
      assert forall id :: id in [x] + ids <==> id == x || id in ids;
    }
    DistinctSnoc(before, x);
    if Distinct((before + [x]) + ids) { DistinctPrefix(before + [x], ids); }
  }

  /** `validate_model_pools`: no complaint means exactly that the pools are in order, and then the
      result is the set of their public IDs. */
  method ValidateModelPools(pools: seq<PoolConfig>, k: Known) returns (errors: seq<Issue>, publicModels: set<string>)
    ensures errors == [] <==> PoolsOk(pools, k)
    ensures errors == [] ==> forall x :: x in publicModels <==> x in AllIds(pools)
  {
    var seenPoolNames: set<string> := {};
    errors, publicModels := [], {};
    for i := 0 to |pools|
      invariant errors == [] <==> PoolsOk(pools[..i], k)
      invariant errors == [] ==> Tracks(publicModels, AllIds(pools[..i])) && seenPoolNames <= publicModels
    {
      var p := pools[i];
      ghost var before := AllIds(pools[..i]);
      PoolsOkSnoc(pools, i, k);
      var name := Trim(p.name);
      if name == "" {
        errors := errors + [EmptyPoolName];
      } else if name in seenPoolNames {
        errors := errors + [DuplicatePool];
      } else {
        seenPoolNames := seenPoolNames + {name};
        var more := CheckId(name, k, publicModels);
        publicModels := publicModels + {name};
        DistinctSnoc(before, name);
        var members: seq<Issue> := if p.members == [] then [NoMembers] else [];
        if p.maxInFlight == Some(0) { members := members + [ZeroLimit]; }
        var unknown := CheckMembers(p, k);
        var aliases;
        aliases, publicModels := CheckAliases(p, k, before + [name], publicModels);
        errors := errors + more + members + unknown + aliases;
      }
    }
    assert pools[..|pools|] == pools;
  }

  // ---------------------------------------------------------------- checking the rest

  function KnownOf(c: Config): Known {
    Known(NamesOf(c.providers), ProviderModels(c), c.aliases.Keys)
  }

  predicate ProviderOk(p: Provider) {
    Trim(p.name) != "" && Trim(p.model) != "" && p.priority > 0 && p.inputCost >= 0.0 && p.outputCost >= 0.0
  }

  predicate TargetOk(c: Config, target: string) {
    Trim(target) != "" && (target in ProviderModels(c) || target in AllIds(c.pools))
  }

  ghost predicate ConfigOk(c: Config) {
    && c.providers != []
    && ProvidersOk(c.providers) && AllSettingsOk(|c.providers|, c.settings, c.defaults)
    && PoolsOk(c.pools, KnownOf(c))
    && (forall key :: key in c.aliases ==> TargetOk(c, c.aliases[key]))
  }

  /** The retry and breaker policies a provider ends up with. */
  function EffectiveRetry(s: Settings, d: Defaults): RetryPolicy {
    d.retry.(initialBackoffMs := s.initialBackoffMs.UnwrapOr(d.retry.initialBackoffMs),
             maxBackoffMs := s.maxBackoffMs.UnwrapOr(d.retry.maxBackoffMs))
  }

  function EffectiveBreaker(s: Settings, d: Defaults): BreakerPolicy {
    BreakerPolicy(s.failureThreshold.UnwrapOr(d.breaker.failureThreshold),
                  s.openDurationMs.UnwrapOr(d.breaker.openDurationMs),
                  s.halfOpenMaxProbes.UnwrapOr(d.breaker.halfOpenMaxProbes))
  }

  predicate Blank(s: Option<string>) {
    s.Some? && Trim(s.value) == ""
  }

  predicate SettingsOk(s: Settings, d: Defaults) {
    var retry, breaker := EffectiveRetry(s, d), EffectiveBreaker(s, d);
    && 0.0 <= s.failureRate <= 1.0 && !Blank(s.baseUrl)
    && (s.needsKey ==> s.apiKeyEnv.Some? && !Blank(s.apiKeyEnv))
    && s.timeoutMs != Some(0) && s.maxInFlight != Some(0)
    && s.initialBackoffMs != Some(0) && s.maxBackoffMs != Some(0) && retry.initialBackoffMs <= retry.maxBackoffMs
    && breaker.failureThreshold > 0 && breaker.openDurationMs > 0 && breaker.halfOpenMaxProbes > 0
  }

  method CheckSettings(s: Settings, d: Defaults) returns (errors: seq<Issue>)
    ensures errors == [] <==> SettingsOk(s, d)
  {
    errors := [];
    if s.failureRate < 0.0 || s.failureRate > 1.0 { errors := errors + [BadFailureRate]; }
    if Blank(s.baseUrl) { errors := errors + [EmptyBaseUrl]; }
    if s.timeoutMs == Some(0) { errors := errors + [ZeroTimeout]; }
    if s.maxInFlight == Some(0) { errors := errors + [ZeroLimit]; }
    if s.needsKey && (s.apiKeyEnv.None? || Blank(s.apiKeyEnv)) { errors := errors + [MissingKey]; }
    if s.initialBackoffMs == Some(0) { errors := errors + [ZeroBackoff]; }
    if s.maxBackoffMs == Some(0) { errors := errors + [ZeroBackoff]; }
    var retry, breaker := EffectiveRetry(s, d), EffectiveBreaker(s, d);
    if retry.maxBackoffMs < retry.initialBackoffMs { errors := errors + [BackoffOrder]; }
    if s.failureThreshold == Some(0) { errors := errors + [ZeroBreaker]; }
    if s.openDurationMs == Some(0) { errors := errors + [ZeroBreaker]; }
    if s.halfOpenMaxProbes == Some(0) { errors := errors + [ZeroBreaker]; }
    if breaker.failureThreshold == 0 { errors := errors + [ZeroBreaker]; }
    if breaker.openDurationMs == 0 { errors := errors + [ZeroBreaker]; }
    if breaker.halfOpenMaxProbes == 0 { errors := errors + [ZeroBreaker]; }
  }

  /** What acceptance means further on: the breaker and the backoff use their settings as they are,
      without the corrections for zero or reversed values, and a provider's limit leaves room. */
  lemma AcceptedPolicies(s: Settings, d: Defaults)
    requires SettingsOk(s, d)
    ensures var breaker := EffectiveBreaker(s, d);
            && Threshold(breaker) == breaker.failureThreshold && MaxProbes(breaker) == breaker.halfOpenMaxProbes
            && OpenNanos(breaker) > 0
    ensures Backoff.Cap(EffectiveRetry(s, d)) == EffectiveRetry(s, d).maxBackoffMs
    ensures s.maxInFlight.Some? ==> s.maxInFlight.value >= 1
  {
  }

  /** An accepted provider's pause before retry `k` lies between the configured first pause and the
      configured longest one plus jitter, and fails only for the largest jitter setting. */
  lemma AcceptedBackoff(s: Settings, d: Defaults, k: u32, name: seq<Backoff.byte>)
    requires SettingsOk(s, d) && k >= 1
    ensures var p := EffectiveRetry(s, d);
            match Backoff.RetryBackoff(p, k, name)
            case None => p.jitterMs == U64_MAX
            case Some(ms) => p.initialBackoffMs <= ms <= p.maxBackoffMs + p.jitterMs
  {
    var p := EffectiveRetry(s, d);
    AcceptedPolicies(s, d);
    Backoff.BackoffBounds(p, k, name);
    Backoff.BackoffMonotone(p, 1, k);
    Backoff.BackoffExact(p, 1);
    assert p.initialBackoffMs * Backoff.Pow2(0) == p.initialBackoffMs;
  }

  /** An accepted provider's open circuit lets at most the configured number of probes through in each
      full configured open duration, with no further condition. */
  lemma AcceptedBreaker(s: Settings, d: Defaults, before: seq<Resilience.Event>, after: seq<Resilience.Event>,
                        t0: nat, t1: nat)
    requires SettingsOk(s, d)
    requires var c := Resilience.Run(EffectiveBreaker(s, d), INITIAL, before); c.state == Open && c.openedAt == Some(t0)
    requires Timed(after, t0, t1) && forall e :: e in after ==> !e.Success?
    ensures var p := EffectiveBreaker(s, d);
            && t0 <= t1 && p.openDurationMs > 0
            && Resilience.Permitted(p, Resilience.Run(p, INITIAL, before), after) <=
               p.halfOpenMaxProbes * ((t1 - t0) / (p.openDurationMs * 1_000_000))
  {
    AcceptedPolicies(s, d);
    OpenCircuitBound(EffectiveBreaker(s, d), before, after, t0, t1);
  }

  method CheckProvider(p: Provider, names: set<string>) returns (errors: seq<Issue>)
    ensures errors == [] <==> ProviderOk(p) && p.name !in names
  {
    errors := [];
    if Trim(p.name) == "" {
      errors := errors + [EmptyProviderName];
    } else if p.name in names {
      errors := errors + [DuplicateProvider];
    }
    if Trim(p.model) == "" { errors := errors + [EmptyModel]; }
    if p.priority == 0 { errors := errors + [ZeroPriority]; }
    if p.inputCost < 0.0 { errors := errors + [NegativeCost]; }
    if p.outputCost < 0.0 { errors := errors + [NegativeCost]; }
  }

  ghost predicate ProvidersOk(ps: seq<Provider>) {
    DistinctNames(ps) && forall p :: p in ps ==> ProviderOk(p)
  }

  function NamesOf(ps: seq<Provider>): set<string> {
    set p | p in ps :: p.name
  }

  lemma ProvidersOkSnoc(ps: seq<Provider>, p: Provider)
    ensures ProvidersOk(ps + [p]) <==> ProvidersOk(ps) && ProviderOk(p) && p.name !in NamesOf(ps)
    ensures NamesOf(ps + [p]) == NamesOf(ps) + {p.name}
  {
    var all := ps + [p];
    assert forall q :: q in all <==> q in ps || q == p;
    if ProvidersOk(all) {
      forall i, j | 0 <= i < j < |ps| ensures ps[i].name != ps[j].name { assert all[i] == ps[i] && all[j] == ps[j]; }
      forall q | q in ps ensures q.name != p.name {
        var i :| 0 <= i < |ps| && ps[i] == q;
        assert all[i].name != all[|ps|].name;
      }
    }
  }

  ghost predicate AllSettingsOk(n: nat, settings: nat -> Settings, d: Defaults) {
    forall i :: 0 <= i < n ==> SettingsOk(settings(i), d)
  }

  method CheckProviders(ps: seq<Provider>, settings: nat -> Settings, d: Defaults) returns (errors: seq<Issue>)
    ensures errors == [] <==> ProvidersOk(ps) && AllSettingsOk(|ps|, settings, d)
  {
    errors := [];
    var names: set<string> := {};
    for i := 0 to |ps|
      invariant errors == [] <==> ProvidersOk(ps[..i]) && AllSettingsOk(i, settings, d)
      invariant errors == [] ==> names == NamesOf(ps[..i])
    {
      var more := CheckProvider(ps[i], names);
      var rest := CheckSettings(settings(i), d);
      assert ps[..i + 1] == ps[..i] + [ps[i]];
      ProvidersOkSnoc(ps[..i], ps[i]);
      errors := errors + more + rest;
      names := names + {ps[i].name};
    }
    assert ps[..|ps|] == ps;
  }

  method CheckTargets(c: Config, publicModels: set<string>) returns (errors: seq<Issue>)
    ensures errors == [] <==> forall key :: key in c.aliases ==>
              Trim(c.aliases[key]) != "" && (c.aliases[key] in ProviderModels(c) || c.aliases[key] in publicModels)
  {
    errors := [];
    var left := c.aliases.Keys;
    while left != {}
      invariant left <= c.aliases.Keys
      invariant errors == [] <==> forall key :: key in c.aliases && key !in left ==>
                  Trim(c.aliases[key]) != "" && (c.aliases[key] in ProviderModels(c) || c.aliases[key] in publicModels)
    {
      var key :| key in left;
      var target := c.aliases[key];
      if Trim(target) == "" {
        errors := errors + [EmptyAliasTarget];
      } else if target !in ProviderModels(c) && target !in publicModels {
        errors := errors + [UnknownAliasTarget];
      }
      left := left - {key};
    }
  }

  /** `validate_providers`: no complaint means exactly that the configuration is in order. */
  method ValidateProviders(c: Config) returns (errors: seq<Issue>)
    ensures errors == [] <==> ConfigOk(c)
  {
    var none: seq<Issue> := if c.providers == [] then [NoProviders] else [];
    var pools, publicModels := ValidateModelPools(c.pools, KnownOf(c));
    var targets := CheckTargets(c, publicModels);
    var providers := CheckProviders(c.providers, c.settings, c.defaults);
    errors := none + pools + targets + providers;
  }

  // ---------------------------------------------------------------- the pool index

  datatype PoolIndex = PoolIndex(byName: map<string, Pool>, byId: map<string, string>)

  function PublicIds(p: PoolConfig): set<string> {
    {p.name} + (set a | a in p.aliases)
  }

  function PoolOf(p: PoolConfig): Pool {
    Pool((set m | m in p.members), p.policy)
  }

  function IndexOf(pools: seq<PoolConfig>): PoolIndex {
    if pools == [] then PoolIndex(map[], map[])
    else
      var before, p := IndexOf(pools[..|pools| - 1]), pools[|pools| - 1];
      PoolIndex(before.byName[p.name := PoolOf(p)], before.byId + map id | id in PublicIds(p) :: p.name)
  }

  function PoolFor(x: PoolIndex, id: string): Option<Pool> {
    if id in x.byId && x.byId[id] in x.byName then Some(x.byName[x.byId[id]]) else None
  }

  method AddIds(byId: map<string, string>, p: PoolConfig) returns (ids: map<string, string>)
    ensures ids == byId + map id | id in PublicIds(p) :: p.name
  {
    ids := byId[p.name := p.name];
    for j := 0 to |p.aliases|
      invariant forall id :: id in ids <==> id in byId || id == p.name || id in p.aliases[..j]
      invariant forall id :: id in ids ==> ids[id] == if id == p.name || id in p.aliases[..j] then p.name else byId[id]
    {
      ids := ids[p.aliases[j] := p.name];
      assert forall id :: id in p.aliases[..j + 1] <==> id in p.aliases[..j] || id == p.aliases[j];
    }
    assert p.aliases[..|p.aliases|] == p.aliases;
  }

  /** `from_configs` */
  method FromConfigs(pools: seq<PoolConfig>) returns (x: PoolIndex)
    ensures x == IndexOf(pools)
  {
    x := PoolIndex(map[], map[]);
    for i := 0 to |pools|
      invariant x == IndexOf(pools[..i])
    {
      var ids := AddIds(x.byId, pools[i]);
      assert pools[..i + 1][..i] == pools[..i];
      x := PoolIndex(x.byName[pools[i].name := PoolOf(pools[i])], ids);
    }
    assert pools[..|pools|] == pools;
  }

  ghost predicate Apart(pools: seq<PoolConfig>) {
    forall k, m :: 0 <= k < m < |pools| ==> PublicIds(pools[k]) !! PublicIds(pools[m])
  }

  lemma {:induction false} IndexFinds(pools: seq<PoolConfig>, k: nat, id: string)
    requires Apart(pools) && k < |pools| && id in PublicIds(pools[k])
    ensures PoolFor(IndexOf(pools), id) == Some(PoolOf(pools[k])) && IndexOf(pools).byId[id] == pools[k].name
    decreases |pools|
  {
    var n := |pools| - 1;
    var before := pools[..n];
    if k < n {
      assert before[k] == pools[k];
      assert PublicIds(pools[k]) !! PublicIds(pools[n]);
      IndexFinds(before, k, id);
      assert pools[n].name in PublicIds(pools[n]);
      assert pools[k].name in PublicIds(pools[k]);
    }
  }

  lemma {:induction false} IndexOnlyFinds(pools: seq<PoolConfig>, id: string) returns (k: nat)
    requires id in IndexOf(pools).byId
    ensures k < |pools| && id in PublicIds(pools[k])
  {
    var n := |pools| - 1;
    if id in PublicIds(pools[n]) {
      k := n;
    } else {
      k := IndexOnlyFinds(pools[..n], id);
    }
  }

  lemma {:induction false} TrimmedMember(ss: seq<string>, x: string)
    requires x in ss
    ensures Trim(x) in TrimAll(ss)
  {
    var n := |ss| - 1;
    if ss[n] != x {
      assert ss == ss[..n] + [ss[n]];
      TrimmedMember(ss[..n], x);
    }
  }

  lemma {:induction false} IdsOfPool(pools: seq<PoolConfig>, k: nat, x: string)
    requires k < |pools| && x in CheckedIds(pools[k])
    ensures x in AllIds(pools)
    decreases |pools|
  {
    var n := |pools| - 1;
    if k < n {
      assert pools[..n][k] == pools[k];
      IdsOfPool(pools[..n], k, x);
    }
  }

  lemma DistinctParts(ss: seq<string>, ts: seq<string>, x: string)
    requires Distinct(ss + ts) && x in ss
    ensures x !in ts
  {
    var i :| 0 <= i < |ss| && ss[i] == x;
    forall j | 0 <= j < |ts| ensures ts[j] != x { assert (ss + ts)[i] != (ss + ts)[|ss| + j]; }
  }

  lemma CheckedId(p: PoolConfig, id: string)
    requires id in PublicIds(p)
    ensures Trim(id) in CheckedIds(p)
  {
    if id in p.aliases { TrimmedMember(p.aliases, id); }
  }

  /** Accepted pools never share a public ID. */
  lemma {:induction false} AcceptedApart(pools: seq<PoolConfig>)
    requires Distinct(AllIds(pools))
    ensures Apart(pools)
  {
    if pools != [] {
      var n := |pools| - 1;
      var before := pools[..n];
      DistinctPrefix(AllIds(before), CheckedIds(pools[n]));
      AcceptedApart(before);
      forall k, id | 0 <= k < n && id in PublicIds(pools[k]) ensures id !in PublicIds(pools[n]) {
        assert before[k] == pools[k];
        CheckedId(pools[k], id);
        IdsOfPool(before, k, Trim(id));
        DistinctParts(AllIds(before), CheckedIds(pools[n]), Trim(id));
        if id in PublicIds(pools[n]) { CheckedId(pools[n], id); }
      }
      assert forall k, m :: 0 <= k < m < n ==> before[k] == pools[k] && before[m] == pools[m];
    }
  }

  /** In an accepted configuration a public ID belongs to one pool and the index finds that pool. */
  lemma PoolIdUnique(c: Config, k: nat, id: string)
    requires ConfigOk(c) && k < |c.pools| && id in PublicIds(c.pools[k])
    ensures PoolFor(IndexOf(c.pools), id) == Some(PoolOf(c.pools[k]))
    ensures forall m :: 0 <= m < |c.pools| && id in PublicIds(c.pools[m]) ==> m == k
  {
    AcceptedApart(c.pools);
    IndexFinds(c.pools, k, id);
  }

  // ---------------------------------------------------------------- discovery

  /** `resolve_model_alias` */
  function Resolve(c: Config, id: string): string {
    if id in c.aliases then c.aliases[id] else id
  }

  /** The providers that a request for this ID may be sent to. */
  function CandidatesFor(c: Config, id: string): seq<Provider> {
    Eligible(c.providers, PoolFor(IndexOf(c.pools), Resolve(c, id)), Resolve(c, id))
  }

  datatype Listing = Listing(resolved: string, providers: set<string>)

  function Serving(c: Config, model: string): set<string> {
    set p | p in c.providers && p.model == model :: p.name
  }

  predicate Pooled(x: PoolIndex, name: string) {
    exists n :: n in x.byName && name in x.byName[n].members
  }

  /** A model whose providers all work for pools, unless it is a public name itself. */
  predicate Hidden(c: Config, x: PoolIndex, model: string) {
    (forall name :: name in Serving(c, model) ==> Pooled(x, name)) && model !in x.byId && model !in c.aliases
  }

  /** The entry of `/v1/models` for an ID, if it has one. */
  function EntryFor(c: Config, x: PoolIndex, id: string): Option<Listing> {
    if id in ProviderModels(c) && !Hidden(c, x, id) then Some(Listing(id, Serving(c, id)))
    else if PoolFor(x, id).Some? then Some(Listing(id, PoolFor(x, id).value.members))
    else if id in c.aliases then TargetEntry(c, x, c.aliases[id])
    else None
  }

  /** An alias shows what it stands for. */
  function TargetEntry(c: Config, x: PoolIndex, target: string): Option<Listing> {
    if target in ProviderModels(c) then Some(Listing(target, Serving(c, target)))
    else if PoolFor(x, target).Some? then Some(Listing(target, PoolFor(x, target).value.members))
    else None
  }

  ghost predicate CleanPools(c: Config) {
    forall p :: p in c.pools ==>
      Clean(p.name) && (forall a :: a in p.aliases ==> Clean(a)) && (forall m :: m in p.members ==> Clean(m))
  }

  lemma EligibleHas(c: Config, pool: Option<Pool>, model: string, p: Provider)
    requires DistinctNames(c.providers)
    ensures p in Eligible(c.providers, pool, model) <==> p in c.providers && Serves(pool, model, p)
  {
    FilterDistinct(c.providers, (q: Provider) => Serves(pool, model, q));
  }

  /** The names of a pool's candidates are its members, of which there is at least one. */
  lemma PoolServed(c: Config, k: nat, id: string)
    requires ConfigOk(c) && CleanPools(c) && k < |c.pools| && id in PublicIds(c.pools[k])
    ensures PoolFor(IndexOf(c.pools), id) == Some(PoolOf(c.pools[k]))
    ensures NamesOf(Eligible(c.providers, PoolFor(IndexOf(c.pools), id), id)) == PoolOf(c.pools[k]).members != {}
  {
    PoolIdUnique(c, k, id);
    var p, found := c.pools[k], PoolFor(IndexOf(c.pools), id);
    assert p in c.pools && PoolOk(p, KnownOf(c));
    var cs := Eligible(c.providers, found, id);
    forall m | m in p.members ensures m in NamesOf(cs) {
      assert MemberOk(m, KnownOf(c)) && Clean(m);
      var q :| q in c.providers && q.name == m;
      EligibleHas(c, found, id, q);
    }
    forall m | m in NamesOf(cs) ensures m in p.members {
      var q :| q in cs && q.name == m;
      EligibleHas(c, found, id, q);
    }
    assert p.members[0] in PoolOf(p).members;
  }

  /** The names of a model's candidates are the providers that serve it, if no pool has its name. */
  lemma ModelServed(c: Config, model: string)
    requires ConfigOk(c) && model in ProviderModels(c) && PoolFor(IndexOf(c.pools), model).None?
    ensures NamesOf(Eligible(c.providers, None, model)) == Serving(c, model) != {}
  {
    var cs := Eligible(c.providers, None, model);
    forall m ensures m in NamesOf(cs) <==> m in Serving(c, model) {
      if m in NamesOf(cs) {
        var q :| q in cs && q.name == m;
        EligibleHas(c, None, model, q);
      }
      if m in Serving(c, model) {
        var q :| q in c.providers && q.model == model && q.name == m;
        EligibleHas(c, None, model, q);
      }
    }
    var q :| q in c.providers && q.model == model;
    assert q.name in Serving(c, model);
  }

  /** A pool's IDs are names of their own. */
  lemma NoClash(c: Config, k: nat, id: string)
    requires ConfigOk(c) && CleanPools(c) && k < |c.pools| && id in PublicIds(c.pools[k])
    ensures id !in ProviderModels(c) && id !in c.aliases
  {
    var p := c.pools[k];
    assert p in c.pools && PoolOk(p, KnownOf(c));
    CheckedId(p, id);
    assert IdOk(Trim(id), KnownOf(c)) && Clean(id);
  }

  lemma {:induction false} CleanIds(ss: seq<string>, x: string)
    requires x in TrimAll(ss) && forall s :: s in ss ==> Clean(s)
    ensures x in ss
  {
    if ss != [] {
      var n := |ss| - 1;
      assert ss[n] in ss && Clean(ss[n]);
      if x != ss[n] {
        assert forall s :: s in ss[..n] ==> s in ss;
        CleanIds(ss[..n], x);
      }
    }
  }

  lemma {:induction false} IdsArePublic(pools: seq<PoolConfig>, x: string) returns (k: nat)
    requires x in AllIds(pools)
    requires forall p :: p in pools ==> Clean(p.name) && forall a :: a in p.aliases ==> Clean(a)
    ensures k < |pools| && x in PublicIds(pools[k])
  {
    var n := |pools| - 1;
    var before, p := pools[..n], pools[n];
    if x in AllIds(before) {
      assert forall q :: q in before ==> q in pools;
      k := IdsArePublic(before, x);
    } else {
      assert p in pools;
      k := n;
      if x != Trim(p.name) { CleanIds(p.aliases, x); }
    }
  }

  /** A configured model or a pool's ID always has a candidate. */
  lemma NameServed(c: Config, r: string)
    requires ConfigOk(c) && CleanPools(c)
        && (r in ProviderModels(c) || r in AllIds(c.pools) || r in IndexOf(c.pools).byId)
    ensures Eligible(c.providers, PoolFor(IndexOf(c.pools), r), r) != []
  {
    var x := IndexOf(c.pools);
    if r in x.byId {
      var k := IndexOnlyFinds(c.pools, r);
      PoolServed(c, k, r);
    } else if r in ProviderModels(c) {
      ModelServed(c, r);
    } else {
      var k := IdsArePublic(c.pools, r);
      PoolServed(c, k, r);
    }
  }

  /** Every listed model, and every alias, leads to at least one provider. */
  lemma ListedResolves(c: Config, id: string)
    requires ConfigOk(c) && CleanPools(c)
    requires EntryFor(c, IndexOf(c.pools), id).Some? || id in c.aliases
    ensures CandidatesFor(c, id) != []
  {
    if id in c.aliases { assert TargetOk(c, c.aliases[id]); }
    NameServed(c, Resolve(c, id));
  }

  /** An alias sends requests for the ID elsewhere although the ID is a name of its own: a provider's
      model or a pool's ID. */
  predicate Redirected(c: Config, id: string) {
    id in c.aliases && c.aliases[id] != id && (id in ProviderModels(c) || PoolFor(IndexOf(c.pools), id).Some?)
  }

  /** What an entry shows: a model's providers, or a pool's members as they are written. */
  lemma EntryShows(c: Config, id: string)
    requires EntryFor(c, IndexOf(c.pools), id).Some?
    ensures var e := EntryFor(c, IndexOf(c.pools), id).value;
            if e.resolved in ProviderModels(c) then e.providers == Serving(c, e.resolved)
            else
              var pool := PoolFor(IndexOf(c.pools), e.resolved);
              pool.Some? && e.providers == pool.value.members
  {
  }

  /** The candidates of a pool are its members that are literally names of providers. */
  lemma PoolCandidates(c: Config, pool: Pool, model: string)
    requires DistinctNames(c.providers)
    ensures NamesOf(Eligible(c.providers, Some(pool), model)) == pool.members * NamesOf(c.providers)
  {
    var cs := Eligible(c.providers, Some(pool), model);
    forall m ensures m in NamesOf(cs) <==> m in pool.members && m in NamesOf(c.providers) {
      if m in NamesOf(cs) {
        var q :| q in cs && q.name == m;
        EligibleHas(c, Some(pool), model, q);
      }
      if m in pool.members && m in NamesOf(c.providers) {
        var q :| q in c.providers && q.name == m;
        EligibleHas(c, Some(pool), model, q);
      }
    }
  }

  /** In any accepted configuration, the providers shown for an entry are the candidates of the model
      it names, unless that is a pool's ID and the pool has a member that is no provider's name, or
      it is also some provider's model and other providers serve it. */
  lemma ShownIff(c: Config, id: string)
    requires ConfigOk(c) && EntryFor(c, IndexOf(c.pools), id).Some?
    ensures var e := EntryFor(c, IndexOf(c.pools), id).value;
            var pool := PoolFor(IndexOf(c.pools), e.resolved);
            NamesOf(Eligible(c.providers, pool, e.resolved)) == e.providers <==>
              || pool.None?
              || (e.resolved !in ProviderModels(c) && pool.value.members <= NamesOf(c.providers))
              || (e.resolved in ProviderModels(c)
                  && Serving(c, e.resolved) == pool.value.members * NamesOf(c.providers))
  {
    EntryShows(c, id);
    var r := EntryFor(c, IndexOf(c.pools), id).value.resolved;
    match PoolFor(IndexOf(c.pools), r) {
      case None => ModelServed(c, r);
      case Some(pool) => PoolCandidates(c, pool, r);
    }
  }

  /** In any configuration, the model that a listed ID is shown to stand for is the one its requests
      are sent to, except when the ID is redirected. In an accepted one whose pools are written without
      stray spaces, the providers shown are that model's candidates, and there is at least one. */
  lemma ListingTruthful(c: Config, id: string)
    requires EntryFor(c, IndexOf(c.pools), id).Some?
    ensures var e := EntryFor(c, IndexOf(c.pools), id).value;
            var pool := PoolFor(IndexOf(c.pools), e.resolved);
            && (e.resolved == Resolve(c, id) <==> !Redirected(c, id))
            && (ConfigOk(c) && CleanPools(c) ==>
                  NamesOf(Eligible(c.providers, pool, e.resolved)) == e.providers != {})
  {
    EntryShows(c, id);
    var r := EntryFor(c, IndexOf(c.pools), id).value.resolved;
    if ConfigOk(c) && CleanPools(c) {
      if PoolFor(IndexOf(c.pools), r).Some? {
        var k := IndexOnlyFinds(c.pools, r);
        PoolServed(c, k, r);
        NoClash(c, k, r);
      } else {
        ModelServed(c, r);
      }
    }
  }

  /** For any accepted configuration, spaces or not: a name has a candidate exactly when it is a
      pool's ID and one of the pool's members is literally a provider's name, or it is no pool's ID
      and literally a provider's model. */
  lemma ServedIff(c: Config, id: string)
    requires ConfigOk(c)
    ensures CandidatesFor(c, id) != [] <==>
            var r := Resolve(c, id);
            || (exists k, m ::
                  && 0 <= k < |c.pools| && r in PublicIds(c.pools[k])
                  && m in c.pools[k].members && m in NamesOf(c.providers))
            || ((forall k :: 0 <= k < |c.pools| ==> r !in PublicIds(c.pools[k])) && r in ProviderModels(c))
  {
    var r := Resolve(c, id);
    var x := IndexOf(c.pools);
    var found := PoolFor(x, r);
    var cs := Eligible(c.providers, found, r);
    if k :| 0 <= k < |c.pools| && r in PublicIds(c.pools[k]) {
      PoolIdUnique(c, k, r);
      if m :| m in c.pools[k].members && m in NamesOf(c.providers) {
        var q :| q in c.providers && q.name == m;
        EligibleHas(c, found, r, q);
      }
      if cs != [] {
        EligibleHas(c, found, r, cs[0]);
        assert cs[0].name in c.pools[k].members && cs[0].name in NamesOf(c.providers);
      }
    } else {
      if r in x.byId { var k := IndexOnlyFinds(c.pools, r); }
      if cs != [] { EligibleHas(c, found, r, cs[0]); }
      if q :| q in c.providers && q.model == r { EligibleHas(c, found, r, q); }
    }
  }

  /** A configuration whose other settings are left alone. */
  function Plain(providers: seq<Provider>, pools: seq<PoolConfig>, aliases: map<string, string>): Config {
    var quiet := Settings(0.0, None, false, None, None, None, None, None, None, None, None);
    Config(providers, _ => quiet, Defaults(RetryPolicy(0, 100, 1_000, 0), BreakerPolicy(5, 30_000, 1)), pools, aliases)
  }

  const REDIRECTED: Config :=
    Plain([Provider("p", "a", 1, 0.0, 0.0), Provider("q", "b", 1, 0.0, 0.0)], [], map["a" := "b"])

  lemma RedirectedAccepted()
    ensures ConfigOk(REDIRECTED)
  {
    var c := REDIRECTED;
    var p, q := Provider("p", "a", 1, 0.0, 0.0), Provider("q", "b", 1, 0.0, 0.0);
    assert c.providers == [p, q] && q in c.providers && "b" in ProviderModels(c);
    assert Trim("p") == "p" && Trim("q") == "q" && Trim("a") == "a" && Trim("b") == "b";
    assert ProvidersOk(c.providers);
    assert AllIds(c.pools) == [];
  }

  /** Such a redirected model is listed, in an accepted configuration, with providers that its
      requests never reach. */
  lemma RedirectedListing()
    ensures ConfigOk(REDIRECTED)
    ensures EntryFor(REDIRECTED, IndexOf(REDIRECTED.pools), "a") == Some(Listing("a", {"p"}))
    ensures CandidatesFor(REDIRECTED, "a") == [Provider("q", "b", 1, 0.0, 0.0)]
  {
    RedirectedAccepted();
    var c := REDIRECTED;
    var p, q := Provider("p", "a", 1, 0.0, 0.0), Provider("q", "b", 1, 0.0, 0.0);
    assert c.providers == [p, q] && p in c.providers;
    assert c.providers[1..] == [q] && [q][1..] == [];
    assert p.name in Serving(c, "a") && Serving(c, "a") == {"p"};
    assert "a" in ProviderModels(c);
  }

  const SPACED_POOL := PoolConfig(" x", [], ["p"], None, None)
  const SPACED: Config :=
    Plain([Provider("p", "a", 1, 0.0, 0.0), Provider("q", "b", 1, 0.0, 0.0)], [SPACED_POOL], map[" x" := "b"])

  lemma SpacedAccepted()
    ensures ConfigOk(SPACED)
  {
    var c, p, q := SPACED, Provider("p", "a", 1, 0.0, 0.0), Provider("q", "b", 1, 0.0, 0.0);
    assert c.providers == [p, q] && p in c.providers && q in c.providers && "b" in ProviderModels(c);
    assert Trim("p") == "p" && Trim("q") == "q" && Trim("a") == "a" && Trim("b") == "b";
    assert TrimStart(" x") == "x" by { assert " x"[1..] == "x"; }
    assert Trim(" x") == "x" && c.pools[..0] == [];
    assert AllIds(c.pools) == ["x"] by { assert AllIds([]) == [] && CheckedIds(SPACED_POOL) == ["x"]; }
    assert PoolOk(SPACED_POOL, KnownOf(c));
    assert ProvidersOk(c.providers);
  }

  lemma SpacedIndex()
    ensures PoolFor(IndexOf(SPACED.pools), " x") == Some(PoolOf(SPACED_POOL))
    ensures PoolFor(IndexOf(SPACED.pools), "b") == None && PoolOf(SPACED_POOL).members == {"p"}
  {
    assert SPACED.pools[..0] == [];
  }

  /** A pool's ID can be redirected too, if the spaces around it hide the clash from the checks. */
  lemma SpacedListing()
    ensures ConfigOk(SPACED) && " x" !in ProviderModels(SPACED)
    ensures EntryFor(SPACED, IndexOf(SPACED.pools), " x") == Some(Listing(" x", {"p"}))
    ensures CandidatesFor(SPACED, " x") == [Provider("q", "b", 1, 0.0, 0.0)]
  {
    SpacedAccepted();
    SpacedIndex();
    var c, p, q := SPACED, Provider("p", "a", 1, 0.0, 0.0), Provider("q", "b", 1, 0.0, 0.0);
    assert c.providers == [p, q] && c.providers[1..] == [q] && [q][1..] == [];
  }

  const STRAY_POOL := PoolConfig("pool", [], [" p"], None, None)
  const STRAY: Config := Plain([Provider("p", "m", 1, 0.0, 0.0)], [STRAY_POOL], map[])

  lemma StrayAccepted()
    ensures ConfigOk(STRAY)
  {
    var c, p := STRAY, Provider("p", "m", 1, 0.0, 0.0);
    assert c.providers == [p] && p in c.providers && c.pools[..0] == [];
    assert TrimStart(" p") == "p" by { assert " p"[1..] == "p"; }
    assert Trim(" p") == "p" && Trim("p") == "p" && Trim("m") == "m" && Trim("pool") == "pool";
    assert AllIds(c.pools) == ["pool"] by { assert AllIds([]) == [] && CheckedIds(STRAY_POOL) == ["pool"]; }
    assert PoolOk(STRAY_POOL, KnownOf(c));
  }

  /** Checks trim a member's name but lookups do not: a stray space leaves a pool without providers,
      while the listing shows one. */
  lemma StraySpace()
    ensures ConfigOk(STRAY) && CandidatesFor(STRAY, "pool") == []
    ensures EntryFor(STRAY, IndexOf(STRAY.pools), "pool") == Some(Listing("pool", {" p"}))
  {
    StrayAccepted();
    var c, p := STRAY, Provider("p", "m", 1, 0.0, 0.0);
    assert c.providers == [p] && c.providers[1..] == [] && c.pools[..0] == [];
    assert PoolFor(IndexOf(c.pools), "pool") == Some(PoolOf(STRAY_POOL));
    assert !Serves(Some(PoolOf(STRAY_POOL)), "pool", p) by { assert "p" != " p"; }
    assert PoolOf(STRAY_POOL).members == {" p"} && "pool" !in ProviderModels(c);
  }

  // ---------------------------------------------------------------- listing

  method GroupByModel(ps: seq<Provider>) returns (groups: map<string, set<string>>)
    ensures forall m :: m in groups <==> exists p :: p in ps && p.model == m
    ensures forall m :: m in groups ==> groups[m] == set p | p in ps && p.model == m :: p.name
  {
    groups := map[];
    for i := 0 to |ps|
      invariant forall m :: m in groups <==> exists p :: p in ps[..i] && p.model == m
      invariant forall m :: m in groups ==> groups[m] == set p | p in ps[..i] && p.model == m :: p.name
    {
      var m := ps[i].model;
      assert ps[..i + 1] == ps[..i] + [ps[i]];
      var old' := if m in groups then groups[m] else {};
      assert m !in groups ==> (set p | p in ps[..i] && p.model == m :: p.name) == {};
      groups := groups[m := old' + {ps[i].name}];
    }
    assert ps[..|ps|] == ps;
  }

  method ListDirect(c: Config, x: PoolIndex, groups: map<string, set<string>>) returns (models: map<string, Listing>)
    ensures forall id :: id in models <==> id in groups && !Hidden(c, x, id)
    ensures forall id :: id in models ==> models[id] == Listing(id, groups[id])
  {
    models := map[];
    var left := groups.Keys;
    while left != {}
      invariant left <= groups.Keys
      invariant forall id :: id in models <==> id in groups && id !in left && !Hidden(c, x, id)
      invariant forall id :: id in models ==> models[id] == Listing(id, groups[id])
    {
      var id :| id in left;
      if !Hidden(c, x, id) { models := models[id := Listing(id, groups[id])]; }
      left := left - {id};
    }
  }

  method ListPools(x: PoolIndex, before: map<string, Listing>) returns (models: map<string, Listing>)
    ensures forall id :: id in models <==> id in before || PoolFor(x, id).Some?
    ensures forall id :: id in models ==>
              models[id] == if id in before then before[id] else Listing(id, PoolFor(x, id).value.members)
  {
    models := before;
    var left := x.byId.Keys;
    while left != {}
      invariant left <= x.byId.Keys
      invariant forall id :: id in models <==> id in before || (id !in left && PoolFor(x, id).Some?)
      invariant forall id :: id in models ==>
                  models[id] == if id in before then before[id] else Listing(id, PoolFor(x, id).value.members)
    {
      var id :| id in left;
      if id !in models && PoolFor(x, id).Some? {
        models := models[id := Listing(id, PoolFor(x, id).value.members)];
      }
      left := left - {id};
    }
  }

  method ListAliases(c: Config, x: PoolIndex, groups: map<string, set<string>>, before: map<string, Listing>)
    returns (models: map<string, Listing>)
    requires groups.Keys == ProviderModels(c) && forall m :: m in groups ==> groups[m] == Serving(c, m)
    ensures forall id :: id in models <==> id in before || (id in c.aliases && TargetEntry(c, x, c.aliases[id]).Some?)
    ensures forall id :: id in models ==>
              models[id] == if id in before then before[id] else TargetEntry(c, x, c.aliases[id]).value
  {
    models := before;
    var left := c.aliases.Keys;
    while left != {}
      invariant left <= c.aliases.Keys
      invariant forall id :: id in models <==>
                  id in before || (id in c.aliases && id !in left && TargetEntry(c, x, c.aliases[id]).Some?)
      invariant forall id :: id in models ==>
                  models[id] == if id in before then before[id] else TargetEntry(c, x, c.aliases[id]).value
    {
      var id :| id in left;
      if id !in models {
        var target := c.aliases[id];
        if target in groups {
          models := models[id := Listing(target, groups[target])];
        } else if PoolFor(x, target).Some? {
          models := models[id := Listing(target, PoolFor(x, target).value.members)];
        }
      }
      left := left - {id};
    }
  }

  /** `list_models`: direct models, then pools, then aliases, each ID once. */
  method ListModels(c: Config, x: PoolIndex) returns (models: map<string, Listing>)
    ensures forall id :: id in models <==> EntryFor(c, x, id).Some?
    ensures forall id :: id in models ==> models[id] == EntryFor(c, x, id).value
  {
    var groups := GroupByModel(c.providers);
    assert groups.Keys == ProviderModels(c);
    models := ListDirect(c, x, groups);
    models := ListPools(x, models);
    models := ListAliases(c, x, groups, models);
  }
}
