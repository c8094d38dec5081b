/** The in-process rate limiter (`src/rate_limit.rs`): one global bucket and a bounded LRU cache of
    per-key buckets. */
module RateLimiter {
  import opened Base
  import opened Lru
  import opened TokenBucket

  datatype Limiter = Limiter(
    global: Bucket,
    keys: seq<Slot<Bucket>>,
    maxKeys: nat,
    keyCapacity: real,
    keyRate: real,
    evictions: u64)

  /** `requests_per_minute_to_refill_rate` */
  function RatePerSecond(requestsPerMinute: u32): real {
    (Max(requestsPerMinute, 1) as real) / 60.0
  }

  ghost predicate LimiterOk(l: Limiter) {
    && BucketOk(l.global) && l.maxKeys >= 1
    && Unique(l.keys) && |l.keys| <= l.maxKeys
    && (forall k :: Find(l.keys, k).Some? ==> BucketOk(Find(l.keys, k).value))
  }

  /** The calls of the public interface. `Both` is `check`, which needs a token from both buckets. */
  datatype Call =
    | Global(at: real)
    | Key(key: string, requestsPerMinute: Option<u32>, burst: Option<u32>, at: real)
    | Both(key: string, at: real)

  function NewKeyBucket(l: Limiter, c: Call): Bucket
    requires !c.Global?
  {
    match c
    case Key(_, rpm, burst, at) =>
      NewBucket(RMax(if burst.Some? then burst.value as real else l.keyCapacity, 1.0),
                if rpm.Some? then RatePerSecond(rpm.value) else l.keyRate, at)
    case Both(_, at) => NewBucket(l.keyCapacity, l.keyRate, at)
  }

  /** The key's bucket, created full if the key is not tracked. */
  function KeyBucket(l: Limiter, c: Call): Bucket
    requires !c.Global?
  {
    match Find(l.keys, c.key)
    case Some(b) => b
    case None => NewKeyBucket(l, c)
  }

  predicate Granted(l: Limiter, c: Call)
    requires BucketOk(l.global) && (!c.Global? ==> BucketOk(KeyBucket(l, c)))
  {
    match c
    case Global(at) => Grants(l.global, at)
    case Key(_, _, _, at) => Grants(KeyBucket(l, c), at)
    case Both(_, at) => Grants(l.global, at) && Grants(KeyBucket(l, c), at)
  }

  function Spend(b: Bucket, at: real, granted: bool): Bucket
    requires BucketOk(b)
  {
    if granted then Consume(Refill(b, at), at) else Refill(b, at)
  }

  /** A new key evicts the least recently used one when the cache is full. */
  predicate Evicts(l: Limiter, key: string) {
    Find(l.keys, key).None? && |l.keys| == l.maxKeys
  }

  function StoreKey(l: Limiter, c: Call, b: Bucket): Limiter
    requires !c.Global? && |l.keys| <= l.maxKeys && 1 <= l.maxKeys
  {
    l.(keys := Put(l.keys, c.key, b, l.maxKeys),
       evictions := if Evicts(l, c.key) then SatAdd64(l.evictions, 1) else l.evictions)
  }

  function Perform(l: Limiter, c: Call): Limiter
    requires BucketOk(l.global) && (!c.Global? ==> BucketOk(KeyBucket(l, c)))
    requires |l.keys| <= l.maxKeys && 1 <= l.maxKeys
  {
    var granted := Granted(l, c);
    match c
    case Global(at) => l.(global := Spend(l.global, at, granted))
    case Key(_, _, _, at) => StoreKey(l, c, Spend(KeyBucket(l, c), at, granted))
    case Both(_, at) => StoreKey(l, c, Spend(KeyBucket(l, c), at, granted)).(global := Spend(l.global, at, granted))
  }

  lemma PerformOk(l: Limiter, c: Call)
    requires LimiterOk(l)
    ensures !c.Global? ==> BucketOk(KeyBucket(l, c))
    ensures LimiterOk(Perform(l, c))
  {
    if !c.Global? {
      var b := Spend(KeyBucket(l, c), c.at, Granted(l, c));
      forall k ensures Find(Perform(l, c).keys, k).Some? ==> BucketOk(Find(Perform(l, c).keys, k).value) {
        PutFacts(l.keys, c.key, b, l.maxKeys, k);
      }
      PutFacts(l.keys, c.key, b, l.maxKeys, c.key);
    }
  }

  /** Entries are conserved: those tracked afterwards and those counted as evicted are those tracked
      before and the new one. Calls of tracked keys and global calls evict nothing. */
  lemma EvictionCounted(l: Limiter, c: Call)
    requires LimiterOk(l) && (!c.Global? ==> BucketOk(KeyBucket(l, c)))
    ensures var after := Perform(l, c);
            var isNew := !c.Global? && Find(l.keys, c.key) == None;
            var lost := if isNew && |l.keys| == l.maxKeys then 1 else 0;
            && |after.keys| + lost == |l.keys| + (if isNew then 1 else 0)
            && after.evictions == Min(l.evictions + lost, 18_446_744_073_709_551_615)
  {
    if !c.Global? { PutLength(l.keys, c.key, Spend(KeyBucket(l, c), c.at, Granted(l, c)), l.maxKeys); }
  }

  // ---------------------------------------------------------------- runs

  ghost predicate Ordered(cs: seq<Call>, from: real)
    decreases cs
  {
    cs == [] || (from <= cs[0].at && Ordered(cs[1..], cs[0].at))
  }

  /** The calls of a run that passed the global bucket in [from, to]. */
  ghost function GlobalGrants(l: Limiter, cs: seq<Call>, from: real, to: real): nat
    requires LimiterOk(l)
    decreases cs
  {
    if cs == [] then 0
    else
      PerformOk(l, cs[0]);
      (if !cs[0].Key? && Granted(l, cs[0]) && from <= cs[0].at <= to then 1 else 0) +
      GlobalGrants(Perform(l, cs[0]), cs[1..], from, to)
  }

  /** What one call does to the global bucket. */
  function GlobalMove(l: Limiter, c: Call): Move
    requires BucketOk(l.global) && (!c.Global? ==> BucketOk(KeyBucket(l, c)))
  {
    if c.Key? then Skip else if Granted(l, c) then Take(c.at) else Touch(c.at)
  }

  ghost function GlobalMoves(l: Limiter, cs: seq<Call>): seq<Move>
    requires LimiterOk(l)
    decreases cs
  {
    if cs == [] then []
    else
      PerformOk(l, cs[0]);
      [GlobalMove(l, cs[0])] + GlobalMoves(Perform(l, cs[0]), cs[1..])
  }

  lemma {:induction false} GlobalMovesLegal(l: Limiter, cs: seq<Call>, clock: real, lo: real, hi: real)
    requires LimiterOk(l) && l.global.last <= clock && Ordered(cs, clock)
    ensures Legal(l.global, GlobalMoves(l, cs))
    ensures TakesIn(GlobalMoves(l, cs), lo, hi) == GlobalGrants(l, cs, lo, hi)
    decreases cs
  {
    if cs != [] {
      PerformOk(l, cs[0]);
      var l' := Perform(l, cs[0]);
      assert l'.global == Apply(l.global, GlobalMove(l, cs[0]));
      assert l'.global.last <= cs[0].at by { if !cs[0].Key? { CheckTakesOne(l.global, cs[0].at); } }
      GlobalMovesLegal(l', cs[1..], cs[0].at, lo, hi);
      assert GlobalMoves(l, cs)[1..] == GlobalMoves(l', cs[1..]);
    }
  }

  /** Whatever mix of keys and calls, in any window at most `capacity + rate * length` calls pass the
      global bucket. */
  lemma GlobalWindowBound(l: Limiter, cs: seq<Call>, from: real, to: real)
    requires LimiterOk(l) && Ordered(cs, l.global.last) && from <= to
    ensures GlobalGrants(l, cs, from, to) as real <= l.global.capacity + l.global.rate * (to - from)
  {
    GlobalWithin(l, cs, from, to, l.global.rate * (to - from));
  }

  lemma GlobalWithin(l: Limiter, cs: seq<Call>, from: real, to: real, flow: real)
    requires LimiterOk(l) && Ordered(cs, l.global.last) && from <= to && flow == l.global.rate * (to - from)
    ensures GlobalGrants(l, cs, from, to) as real <= l.global.capacity + flow
  {
    GlobalMovesLegal(l, cs, l.global.last, from, to);
    WindowBoundBy(l.global, GlobalMoves(l, cs), from, to, flow);
  }

  // ---------------------------------------------------------------- one key

  function KeysUsed(cs: seq<Call>): set<string>
    decreases cs
  {
    if cs == [] then {} else (if cs[0].Global? then {} else {cs[0].key}) + KeysUsed(cs[1..])
  }

  predicate Concerns(c: Call, key: string) {
    !c.Global? && c.key == key
  }

  ghost function KeyGrants(l: Limiter, cs: seq<Call>, key: string, from: real, to: real): nat
    requires LimiterOk(l)
    decreases cs
  {
    if cs == [] then 0
    else
      PerformOk(l, cs[0]);
      (if Concerns(cs[0], key) && Granted(l, cs[0]) && from <= cs[0].at <= to then 1 else 0) +
      KeyGrants(Perform(l, cs[0]), cs[1..], key, from, to)
  }

  ghost function KeyMoves(l: Limiter, cs: seq<Call>, key: string): seq<Move>
    requires LimiterOk(l)
    decreases cs
  {
    if cs == [] then []
    else
      PerformOk(l, cs[0]);
      [if !Concerns(cs[0], key) then Skip else if Granted(l, cs[0]) then Take(cs[0].at) else Touch(cs[0].at)] +
      KeyMoves(Perform(l, cs[0]), cs[1..], key)
  }

  /** The bucket that the first call for a key creates; overrides count only then. */
  function FirstBucket(l: Limiter, cs: seq<Call>, key: string): Option<Bucket>
    decreases cs
  {
    if cs == [] then None
    else if Concerns(cs[0], key) then Some(NewKeyBucket(l, cs[0]))
    else FirstBucket(l, cs[1..], key)
  }

  /** The bucket that governs a key during a run: the tracked one, or else the first one created. */
  function Governing(l: Limiter, cs: seq<Call>, key: string): Option<Bucket> {
    match Find(l.keys, key)
    case Some(b) => Some(b)
    case None => FirstBucket(l, cs, key)
  }

  function KeyMove(l: Limiter, c: Call, key: string): Move
    requires BucketOk(l.global) && (!c.Global? ==> BucketOk(KeyBucket(l, c)))
  {
    if !Concerns(c, key) then Skip else if Granted(l, c) then Take(c.at) else Touch(c.at)
  }

  /** The key's bucket, tracked or about to be created by the call at hand. */
  predicate Ready(l: Limiter, cs: seq<Call>, key: string, b: Bucket) {
    || Find(l.keys, key) == Some(b)
    || (Find(l.keys, key) == None && cs != [] && Concerns(cs[0], key) && b == NewKeyBucket(l, cs[0]))
  }

  /** While all keys fit, a call leaves the other keys' buckets alone and its own one where it was. */
  lemma CallKeepsKey(l: Limiter, c: Call, key: string, all: set<string>)
    requires LimiterOk(l) && Keys(l.keys) <= all && (!c.Global? ==> c.key in all) && |all| <= l.maxKeys
    ensures LimiterOk(Perform(l, c)) && Keys(Perform(l, c).keys) <= all && (!c.Global? ==> BucketOk(KeyBucket(l, c)))
    ensures Find(Perform(l, c).keys, key) ==
            if Concerns(c, key) then Some(Spend(KeyBucket(l, c), c.at, Granted(l, c))) else Find(l.keys, key)
    ensures Perform(l, c).maxKeys == l.maxKeys
    ensures Perform(l, c).keyCapacity == l.keyCapacity && Perform(l, c).keyRate == l.keyRate
  {
    PerformOk(l, c);
    if !c.Global? {
      SubsetSize({c.key} + Keys(l.keys), all);
      PutFits(l.keys, c.key, Spend(KeyBucket(l, c), c.at, Granted(l, c)), l.maxKeys, key);
    }
  }

  lemma MoveSpends(l: Limiter, c: Call, key: string, b: Bucket)
    requires LimiterOk(l) && Concerns(c, key) && BucketOk(b) && KeyBucket(l, c) == b && b.last <= c.at
    ensures Spend(b, c.at, Granted(l, c)) == Apply(b, KeyMove(l, c, key))
    ensures KeyMove(l, c, key).Take? ==> Grants(b, c.at)
    ensures Apply(b, KeyMove(l, c, key)).last == c.at
  {
    CheckTakesOne(b, c.at);
  }

  lemma {:induction false} KeyMovesLegal(l: Limiter, cs: seq<Call>, key: string, b: Bucket, clock: real,
                                         all: set<string>, from: real, to: real)
    requires LimiterOk(l) && BucketOk(b) && Ready(l, cs, key, b) && Ordered(cs, clock)
    requires cs != [] ==> b.last <= cs[0].at
    requires Keys(l.keys) + KeysUsed(cs) <= all && |all| <= l.maxKeys
    ensures Legal(b, KeyMoves(l, cs, key))
    ensures TakesIn(KeyMoves(l, cs, key), from, to) == KeyGrants(l, cs, key, from, to)
    decreases cs
  {
    if cs != [] {
      var c := cs[0];
      CallKeepsKey(l, c, key, all);
      if Concerns(c, key) { MoveSpends(l, c, key, b); }
      KeyMovesLegal(Perform(l, c), cs[1..], key, Apply(b, KeyMove(l, c, key)), c.at, all, from, to);
      assert KeyMoves(l, cs, key)[1..] == KeyMoves(Perform(l, c), cs[1..], key);
    }
  }

  /** Calls for other keys come first: nothing is granted until the key's bucket is created. */
  lemma {:induction false} KeyTakes(l: Limiter, cs: seq<Call>, key: string, clock: real, all: set<string>,
                                    from: real, to: real, b: Bucket) returns (ms: seq<Move>)
    requires LimiterOk(l) && Ordered(cs, clock) && Governing(l, cs, key) == Some(b)
    requires Keys(l.keys) + KeysUsed(cs) <= all && |all| <= l.maxKeys
    requires Find(l.keys, key).Some? ==> b.last <= clock
    ensures BucketOk(b) && Legal(b, ms) && TakesIn(ms, from, to) == KeyGrants(l, cs, key, from, to)
    decreases cs
  {
    if Ready(l, cs, key, b) {
      KeyMovesLegal(l, cs, key, b, clock, all, from, to);
      ms := KeyMoves(l, cs, key);
    } else {
      CallKeepsKey(l, cs[0], key, all);
      SameFirst(l, Perform(l, cs[0]), cs[1..], key);
      ms := KeyTakes(Perform(l, cs[0]), cs[1..], key, cs[0].at, all, from, to, b);
    }
  }

  lemma {:induction false} SameFirst(l: Limiter, l': Limiter, cs: seq<Call>, key: string)
    requires l.keyCapacity == l'.keyCapacity && l.keyRate == l'.keyRate
    ensures FirstBucket(l, cs, key) == FirstBucket(l', cs, key)
    decreases cs
  {
    if cs != [] { SameFirst(l, l', cs[1..], key); }
  }

  lemma {:induction false} UnusedGetsNothing(l: Limiter, cs: seq<Call>, key: string, from: real, to: real)
    requires LimiterOk(l) && FirstBucket(l, cs, key) == None
    ensures KeyGrants(l, cs, key, from, to) == 0
    decreases cs
  {
    if cs != [] {
      PerformOk(l, cs[0]);
      SameFirst(l, Perform(l, cs[0]), cs[1..], key);
      UnusedGetsNothing(Perform(l, cs[0]), cs[1..], key, from, to);
    }
  }

  lemma GoverningWithin(l: Limiter, cs: seq<Call>, key: string, clock: real, from: real, to: real, b: Bucket,
                        flow: real)
    requires LimiterOk(l) && Ordered(cs, clock) && from <= to
    requires |Keys(l.keys) + KeysUsed(cs)| <= l.maxKeys
    requires Governing(l, cs, key) == Some(b) && (Find(l.keys, key).Some? ==> b.last <= clock)
    requires flow == b.rate * (to - from)
    ensures KeyGrants(l, cs, key, from, to) as real <= b.capacity + flow
  {
    var ms := KeyTakes(l, cs, key, clock, Keys(l.keys) + KeysUsed(cs), from, to, b);
    WindowBoundBy(b, ms, from, to, flow);
  }

  /** A number of grants within what a bucket allows in a window; without a bucket there are none. */
  predicate Within(g: Option<Bucket>, n: nat, from: real, to: real) {
    match g
    case None => n == 0
    case Some(b) => n as real <= b.capacity + b.rate * (to - from)
  }

  lemma WithinBy(b: Bucket, n: nat, from: real, to: real, flow: real)
    requires flow == b.rate * (to - from) && n as real <= b.capacity + flow
    ensures Within(Some(b), n, from, to)
  {
  }

  /** A key gets at most what its governing bucket allows in the window. */
  ghost predicate KeyBound(l: Limiter, cs: seq<Call>, key: string, from: real, to: real)
    requires LimiterOk(l)
  {
    Within(Governing(l, cs, key), KeyGrants(l, cs, key, from, to), from, to)
  }

  lemma GoverningBound(l: Limiter, cs: seq<Call>, key: string, clock: real, from: real, to: real, b: Bucket, n: nat)
    requires LimiterOk(l) && Ordered(cs, clock) && from <= to
    requires |Keys(l.keys) + KeysUsed(cs)| <= l.maxKeys
    requires Governing(l, cs, key) == Some(b) && (Find(l.keys, key).Some? ==> b.last <= clock)
    requires n == KeyGrants(l, cs, key, from, to)
    ensures Within(Some(b), n, from, to)
  {
    var flow := b.rate * (to - from);
    GoverningWithin(l, cs, key, clock, from, to, b, flow);
    WithinBy(b, n, from, to, flow);
  }

  /** While no more distinct keys than `max_tracked_keys` are in use, in any window any key, with
      whatever overrides, gets at most the `capacity + rate * length` of its bucket. */
  lemma KeyWindowBound(l: Limiter, cs: seq<Call>, key: string, clock: real, from: real, to: real)
    requires LimiterOk(l) && Ordered(cs, clock) && from <= to
    requires |Keys(l.keys) + KeysUsed(cs)| <= l.maxKeys
    requires Find(l.keys, key).Some? ==> Find(l.keys, key).value.last <= clock
    ensures KeyBound(l, cs, key, from, to)
  {
    match Governing(l, cs, key)
    case None => UnusedGetsNothing(l, cs, key, from, to);
    case Some(b) => GoverningBound(l, cs, key, clock, from, to, b, KeyGrants(l, cs, key, from, to));
  }

  // ---------------------------------------------------------------- retry-after

  function MaxWait(a: Option<real>, b: Option<real>): Option<real> {
    match (a, b)
    case (Some(x), Some(y)) => Some(RMax(x, y))
    case (Some(x), None) => Some(x)
    case (None, _) => b
  }

  /** How long a refused call is told to wait. */
  function CallWait(l: Limiter, c: Call): Option<real>
    requires BucketOk(l.global) && (!c.Global? ==> BucketOk(KeyBucket(l, c)))
  {
    match c
    case Global(at) => Wait(Refill(l.global, at))
    case Key(_, _, _, at) => Wait(Refill(KeyBucket(l, c), at))
    case Both(_, at) => MaxWait(Wait(Refill(l.global, at)), Wait(Refill(KeyBucket(l, c), at)))
  }

  lemma RefusedIffWait(l: Limiter, c: Call)
    requires BucketOk(l.global) && (!c.Global? ==> BucketOk(KeyBucket(l, c)))
    ensures Granted(l, c) <==> CallWait(l, c).None?
  {
  }

  lemma RefilledGrantsLater(b: Bucket, at: real, wait: real, x: real)
    requires BucketOk(b) && x >= wait >= 0.0
    requires Wait(Refill(b, at)).Some? ==> wait >= Wait(Refill(b, at)).value
    ensures Grants(Refill(b, at), at + x)
  {
    var f := Refill(b, at);
    if Wait(f).Some? { WaitSuffices(f, x); }
  }

  /** A refused `check` that is repeated, undisturbed, after the computed wait is granted by both
      buckets, even if only one of them had refused. */
  lemma RepeatAfterWait(l: Limiter, key: string, at: real, x: real)
    requires LimiterOk(l) && BucketOk(KeyBucket(l, Both(key, at))) && !Granted(l, Both(key, at))
    requires x >= CallWait(l, Both(key, at)).value
    ensures LimiterOk(Perform(l, Both(key, at))) && BucketOk(KeyBucket(Perform(l, Both(key, at)), Both(key, at + x)))
    ensures Granted(Perform(l, Both(key, at)), Both(key, at + x))
  {
    var c := Both(key, at);
    PerformOk(l, c);
    var w := CallWait(l, c).value;
    RefilledGrantsLater(l.global, at, w, x);
    RefilledGrantsLater(KeyBucket(l, c), at, w, x);
    PutFacts(l.keys, key, Refill(KeyBucket(l, c), at), l.maxKeys, key);
  }

  // ---------------------------------------------------------------- too many keys

  /** One call per key, all at the same instant. */
  function Visits(keys: seq<string>, at: real): seq<Call> {
    if keys == [] then [] else [Key(keys[0], None, None, at)] + Visits(keys[1..], at)
  }

  ghost function After(l: Limiter, cs: seq<Call>): Limiter
    requires LimiterOk(l)
    ensures LimiterOk(After(l, cs)) && After(l, cs).maxKeys == l.maxKeys
    ensures After(l, cs).keyCapacity == l.keyCapacity && After(l, cs).keyRate == l.keyRate
    decreases cs
  {
    if cs == [] then l
    else
      PerformOk(l, cs[0]);
      After(Perform(l, cs[0]), cs[1..])
  }

  /** The `n` most recent entries stay the most recent when a key that is not among them is used. */
  lemma {:induction false} FrontKept(c: seq<Slot<Bucket>>, k: string, n: nat)
    requires n <= |c| && k !in Keys(c[..n])
    ensures n <= |Without(c, k)| && Without(c, k)[..n] == c[..n]
    decreases n
  {
    if n > 0 {
      assert c[..n][1..] == c[1..][..n - 1];
      FrontKept(c[1..], k, n - 1);
    }
  }

  lemma PutFront(c: seq<Slot<Bucket>>, k: string, b: Bucket, cap: nat, n: nat)
    requires Unique(c) && n <= |c| <= cap && n < cap && k !in Keys(c[..n])
    ensures var d := Put(c, k, b, cap); n < |d| && Keys(d[..n + 1]) == {k} + Keys(c[..n])
  {
    FrontKept(c, k, n);
    var d := Put(c, k, b, cap);
    assert d[..n + 1] == [Slot(k, b)] + c[..n];
    assert d[..n + 1][1..] == c[..n];
  }

  function SetOf(keys: seq<string>): set<string> {
    set k | k in keys
  }

  /** After as many distinct keys as fit have been used, only they are tracked. */
  lemma {:induction false} VisitsFill(l: Limiter, keys: seq<string>, at: real, n: nat, before: set<string>)
    requires LimiterOk(l) && n <= |l.keys| && n + |keys| == l.maxKeys && before == Keys(l.keys[..n])
    requires Distinct(keys) && SetOf(keys) !! before
    ensures Keys(After(l, Visits(keys, at)).keys) == before + SetOf(keys)
    decreases keys
  {
    if keys == [] {
      assert l.keys[..n] == l.keys;
    } else {
      var c := Key(keys[0], None, None, at);
      PerformOk(l, c);
      assert keys[0] in SetOf(keys);
      PutFront(l.keys, keys[0], Spend(KeyBucket(l, c), at, Granted(l, c)), l.maxKeys, n);
      assert SetOf(keys) == {keys[0]} + SetOf(keys[1..]);
      assert Visits(keys, at)[1..] == Visits(keys[1..], at);
      forall k | k in SetOf(keys[1..]) ensures k !in {keys[0]} + before {
        var i :| 0 <= i < |keys[1..]| && keys[1..][i] == k;
        assert keys[i + 1] == k && k in SetOf(keys);
      }
      VisitsFill(Perform(l, c), keys[1..], at, n + 1, {keys[0]} + before);
    }
  }

  /** One key too many and the bound is lost: however much a key has just spent, it starts again with
      a full burst at the same instant once `max_tracked_keys` other keys have been used. */
  lemma EvictionRefills(l: Limiter, key: string, others: seq<string>, at: real)
    requires LimiterOk(l) && |others| == l.maxKeys && Distinct(others) && key !in others
    ensures var l' := After(l, Visits(others, at));
            var again := Key(key, None, None, at);
            && Find(l'.keys, key).None? && BucketOk(KeyBucket(l', again)) && Granted(l', again)
            && KeyBucket(l', again).tokens == RMax(l.keyCapacity, 1.0)
  {
    assert l.keys[..0] == [];
    VisitsFill(l, others, at, 0, {});
    var l' := After(l, Visits(others, at));
    FindIffKey(l'.keys, key);
    var again := Key(key, None, None, at);
    var b := NewKeyBucket(l', again);
    assert Refill(b, at) == b;
  }

  // ---------------------------------------------------------------- what a new key gets

  function Repeat(c: Call, n: nat): (cs: seq<Call>)
    ensures |cs| == n
  {
    if n == 0 then [] else [c] + Repeat(c, n - 1)
  }

  /** One call at the instant of the bucket's last refill. */
  lemma OneCall(l: Limiter, c: Call)
    requires LimiterOk(l) && c.Key? && KeyBucket(l, c).last == c.at
    ensures LimiterOk(Perform(l, c)) && BucketOk(KeyBucket(l, c))
    ensures Granted(l, c) <==> KeyBucket(l, c).tokens >= 1.0
    ensures var b := KeyBucket(l, c);
            KeyBucket(Perform(l, c), c) == b.(tokens := b.tokens - (if b.tokens >= 1.0 then 1.0 else 0.0))
  {
    var b := KeyBucket(l, c);
    PerformOk(l, c);
    assert Refill(b, c.at) == b;
    CheckTakesOne(b, c.at);
    PutFacts(l.keys, c.key, Spend(b, c.at, Granted(l, c)), l.maxKeys, c.key);
  }

  /** Of `n` calls at one instant as many are granted as the bucket holds whole tokens. */
  lemma {:induction false} RepeatGrants(l: Limiter, c: Call, n: nat)
    requires LimiterOk(l) && c.Key? && KeyBucket(l, c).last == c.at
    ensures BucketOk(KeyBucket(l, c))
    ensures var b := KeyBucket(l, c);
            var m := Min(n, b.tokens.Floor);
            && KeyGrants(l, Repeat(c, n), c.key, c.at, c.at) == m
            && KeyBucket(After(l, Repeat(c, n)), c) == b.(tokens := b.tokens - m as real)
    decreases n
  {
    OneCall(l, c);
    if n > 0 {
      assert Repeat(c, n)[1..] == Repeat(c, n - 1);
      RepeatGrants(Perform(l, c), c, n - 1);
      OneFewer(KeyBucket(l, c).tokens, n);
    }
  }

  lemma OneFewer(tokens: real, n: nat)
    requires n > 0 && tokens >= 0.0
    ensures tokens >= 1.0 ==> Min(n, tokens.Floor) == 1 + Min(n - 1, (tokens - 1.0).Floor)
    ensures tokens < 1.0 ==> Min(n, tokens.Floor) == Min(n - 1, tokens.Floor) == 0
  {
  }

  lemma RateExact(rpm: u32)
    ensures RMax(RatePerSecond(rpm), 0.1) == Max(6, rpm) as real / 60.0
  {
  }

  lemma OwnBucket(l: Limiter, key: string, rpm: u32, burst: u32, at: real)
    requires Find(l.keys, key) == None
    ensures var full := Max(1, burst) as real;
            KeyBucket(l, Key(key, Some(rpm), Some(burst), at)) == Bucket(full, full, Max(6, rpm) as real / 60.0, at)
  {
    RateExact(rpm);
  }

  /** An empty bucket's next token, at so many a minute. */
  lemma NextToken(b: Bucket, rpm: nat, x: real)
    requires BucketOk(b) && b.tokens == 0.0 && rpm > 0 && b.rate == rpm as real / 60.0 && x >= 0.0
    ensures Grants(b, b.last + x) <==> x * rpm as real >= 60.0
  {
    GrantsIffWaited(b, x);
    WaitInMinutes(b.rate, rpm, x);
  }

  /** The burst of a new key, spent at once. */
  lemma BurstSpent(l: Limiter, c: Call, n: nat, rate: real)
    requires LimiterOk(l) && c.Key? && c.requestsPerMinute.Some? && c.burst.Some? && Find(l.keys, c.key) == None
    requires n >= Max(1, c.burst.value) && rate == Max(6, c.requestsPerMinute.value) as real / 60.0
    ensures KeyGrants(l, Repeat(c, n), c.key, c.at, c.at) == Max(1, c.burst.value)
    ensures Find(After(l, Repeat(c, n)).keys, c.key) == Some(Bucket(Max(1, c.burst.value) as real, 0.0, rate, c.at))
  {
    OwnBucket(l, c.key, c.requestsPerMinute.value, c.burst.value, c.at);
    RepeatGrants(l, c, n);
    TrackedAfter(l, c, n);
  }

  lemma EmptyKeyWaits(l: Limiter, later: Call, b: Bucket, rpm: nat, x: real, flow: real)
    requires LimiterOk(l) && later.Key? && Find(l.keys, later.key) == Some(b) && later.at == b.last + x && x >= 0.0
    requires b.tokens == 0.0 && rpm > 0 && b.rate == rpm as real / 60.0 && flow == x * rpm as real
    ensures BucketOk(KeyBucket(l, later)) && (Granted(l, later) <==> flow >= 60.0)
  {
    NextToken(b, rpm, x);
  }

  /** A new key with its own burst gets that many calls at once, or one, and not the configured number;
      and after that the next one when its own rate, at least six a minute, has filled a token. */
  lemma NewKeyExact(l: Limiter, c: Call, n: nat, later: Call, x: real, rpm: nat, flow: real)
    requires LimiterOk(l) && c.Key? && c.requestsPerMinute.Some? && c.burst.Some? && Find(l.keys, c.key) == None
    requires n >= Max(1, c.burst.value) && later.Key? && later.key == c.key && later.at == c.at + x && x >= 0.0
    requires rpm == Max(6, c.requestsPerMinute.value) && flow == x * rpm as real
    ensures KeyGrants(l, Repeat(c, n), c.key, c.at, c.at) == Max(1, c.burst.value)
    ensures BucketOk(KeyBucket(After(l, Repeat(c, n)), later))
    ensures Granted(After(l, Repeat(c, n)), later) <==> flow >= 60.0
  {
    var cs, rate := Repeat(c, n), rpm as real / 60.0;
    BurstSpent(l, c, n, rate);
    var after := After(l, cs);
    EmptyKeyWaits(after, later, Bucket(Max(1, c.burst.value) as real, 0.0, rate, c.at), rpm, x, flow);
  }

  lemma WaitInMinutes(rate: real, rpm: nat, x: real)
    requires rpm > 0 && rate == rpm as real / 60.0
    ensures x >= (1.0 - 0.0) / rate <==> x * rpm as real >= 60.0
  {
    var need := 1.0 / rate;
    assert need * rate == 1.0;
    ScaleOrder(need, x, rate);
    assert x * rate * 60.0 == x * rpm as real;
  }

  lemma {:induction false} TrackedAfter(l: Limiter, c: Call, n: nat)
    requires LimiterOk(l) && c.Key? && n > 0
    ensures Find(After(l, Repeat(c, n)).keys, c.key).Some?
    decreases n
  {
    PerformOk(l, c);
    PutFacts(l.keys, c.key, Spend(KeyBucket(l, c), c.at, Granted(l, c)), l.maxKeys, c.key);
    assert Repeat(c, n)[1..] == Repeat(c, n - 1);
    if n > 1 { TrackedAfter(Perform(l, c), c, n - 1); }
  }

  /** Without settings of its own a key gets the configured burst and rate, with `check` as with
      `check_key`. */
  lemma DefaultKeyExact(l: Limiter, key: string, at: real)
    requires LimiterOk(l) && Find(l.keys, key) == None
    ensures KeyBucket(l, Key(key, None, None, at)) == KeyBucket(l, Both(key, at)) ==
            Bucket(RMax(l.keyCapacity, 1.0), RMax(l.keyCapacity, 1.0), RMax(l.keyRate, 0.1), at)
  {
  }

  // ---------------------------------------------------------------- exactly how many keys are safe

  lemma {:induction false} KeyGrantsConcat(l: Limiter, a: seq<Call>, b: seq<Call>, key: string, from: real, to: real)
    requires LimiterOk(l)
    ensures KeyGrants(l, a + b, key, from, to) == KeyGrants(l, a, key, from, to)
        + KeyGrants(After(l, a), b, key, from, to)
    decreases a
  {
    if a == [] {
      assert a + b == b;
    } else {
      PerformOk(l, a[0]);
      assert (a + b)[1..] == a[1..] + b;
      KeyGrantsConcat(Perform(l, a[0]), a[1..], b, key, from, to);
    }
  }

  lemma {:induction false} KeysUsedConcat(a: seq<Call>, b: seq<Call>)
    ensures KeysUsed(a + b) == KeysUsed(a) + KeysUsed(b)
    decreases a
  {
    if a == [] {
      assert a + b == b;
    } else {
      assert (a + b)[1..] == a[1..] + b;
      KeysUsedConcat(a[1..], b);
    }
  }

  /** All calls at one instant. */
  predicate AtOnce(cs: seq<Call>, at: real) {
    forall i :: 0 <= i < |cs| ==> cs[i].at == at
  }

  lemma {:induction false} AtOnceOrdered(cs: seq<Call>, at: real)
    requires AtOnce(cs, at)
    ensures Ordered(cs, at)
    decreases cs
  {
    if cs != [] { AtOnceOrdered(cs[1..], at); }
  }

  /** The same key again and again. */
  function Repeats(key: string, at: real, n: nat): (cs: seq<Call>)
    ensures |cs| == n && AtOnce(cs, at)
  {
    if n == 0 then [] else [Key(key, None, None, at)] + Repeats(key, at, n - 1)
  }

  lemma {:induction false} RepeatsKeys(key: string, at: real, n: nat)
    ensures KeysUsed(Repeats(key, at, n)) <= {key}
  {
    if n > 0 { RepeatsKeys(key, at, n - 1); }
  }

  /** A bucket grants as many calls at one instant as it holds whole tokens. */
  lemma {:induction false} RepeatsGranted(l: Limiter, key: string, at: real, n: nat)
    requires LimiterOk(l)
    requires var b := KeyBucket(l, Key(key, None, None, at)); b.last == at && b.tokens >= n as real
    ensures KeyGrants(l, Repeats(key, at, n), key, at, at) == n
    decreases n
  {
    if n > 0 {
      var c := Key(key, None, None, at);
      var b := KeyBucket(l, c);
      PerformOk(l, c);
      assert Refill(b, at) == b;
      CheckTakesOne(b, at);
      PutFacts(l.keys, key, Spend(b, at, true), l.maxKeys, key);
      assert KeyBucket(Perform(l, c), c) == Spend(b, at, true);
      RepeatsGranted(Perform(l, c), key, at, n - 1);
    }
  }

  /** Names of different lengths. */
  function Name(n: nat): (s: string)
    ensures |s| == n
  {
    seq(n, _ => 'k')
  }

  function NamesFrom(first: nat, n: nat): (names: seq<string>)
    ensures |names| == n && forall i :: 0 <= i < n ==> names[i] == Name(first + i)
  {
    seq(n, i requires 0 <= i < n => Name(first + i))
  }

  lemma NamesDistinct(first: nat, n: nat)
    ensures Distinct(NamesFrom(first, n)) && (first > 0 ==> Name(0) !in NamesFrom(first, n))
  {
    var names := NamesFrom(first, n);
    forall i, j | 0 <= i < j < n ensures names[i] != names[j] {
      assert |names[i]| == first + i && |names[j]| == first + j;
    }
    forall i | 0 <= i < n ensures first > 0 ==> names[i] != Name(0) { assert |names[i]| == first + i; }
  }

  lemma {:induction false} VisitsFacts(keys: seq<string>, at: real)
    ensures AtOnce(Visits(keys, at), at) && KeysUsed(Visits(keys, at)) == SetOf(keys)
  {
    if keys != [] {
      VisitsFacts(keys[1..], at);
      assert SetOf(keys) == {keys[0]} + SetOf(keys[1..]);
      assert Visits(keys, at)[1..] == Visits(keys[1..], at);
    }
  }

  lemma {:induction false} SetOfSize(keys: seq<string>)
    requires Distinct(keys)
    ensures |SetOf(keys)| == |keys|
  {
    if keys != [] {
      assert forall i, j :: 0 <= i < j < |keys[1..]| ==> keys[1..][i] == keys[i + 1] && keys[1..][j] == keys[j + 1];
      SetOfSize(keys[1..]);
      assert SetOf(keys) == {keys[0]} + SetOf(keys[1..]);
      forall k | k in SetOf(keys[1..]) ensures k != keys[0] {
        var i :| 0 <= i < |keys[1..]| && keys[1..][i] == k;
        assert keys[i + 1] == k;
      }
    }
  }

  /** Spend a full burst, use as many other keys as fit, and come back. */
  ghost function Comeback(l: Limiter, at: real): seq<Call> {
    var burst := RMax(l.keyCapacity, 1.0).Floor;
    (if burst < 0 then [] else Repeats(Name(0), at, burst)) + Visits(NamesFrom(1, l.maxKeys), at)
    + [Key(Name(0), None, None, at)]
  }

  lemma ComebackUses(l: Limiter, at: real)
    requires LimiterOk(l)
    ensures Ordered(Comeback(l, at), at) && |KeysUsed(Comeback(l, at))| <= l.maxKeys + 1
  {
    var burst := RMax(l.keyCapacity, 1.0).Floor;
    var others := NamesFrom(1, l.maxKeys);
    var first, rest, last := Repeats(Name(0), at, burst), Visits(others, at), [Key(Name(0), None, None, at)];
    VisitsFacts(others, at);
    AtOnceOrdered(first + rest + last, at);
    RepeatsKeys(Name(0), at, burst);
    KeysUsedConcat(first, rest);
    KeysUsedConcat(first + rest, last);
    assert last[1..] == [] && KeysUsed(last) == {Name(0)};
    NamesDistinct(1, l.maxKeys);
    SetOfSize(others);
    SubsetSize(KeysUsed(Comeback(l, at)), {Name(0)} + SetOf(others));
  }

  /** That run gives the key one call more than its bucket ever holds, all at one instant. */
  lemma ComebackExceeds(l: Limiter, at: real)
    requires LimiterOk(l) && l.keys == []
    ensures !KeyBound(l, Comeback(l, at), Name(0), at, at)
  {
    var key, burst := Name(0), RMax(l.keyCapacity, 1.0).Floor;
    var others := NamesFrom(1, l.maxKeys);
    var first, rest, last := Repeats(key, at, burst), Visits(others, at), [Key(key, None, None, at)];
    var b := NewKeyBucket(l, last[0]);
    assert KeyBucket(l, last[0]) == b && b.tokens >= burst as real;
    RepeatsGranted(l, key, at, burst);
    KeyGrantsConcat(l, first + rest, last, key, at, at);
    KeyGrantsConcat(l, first, rest, key, at, at);
    AfterConcat(l, first, rest);
    NamesDistinct(1, l.maxKeys);
    EvictionRefills(After(l, first), key, others, at);
    LastGranted(After(After(l, first), rest), key, at);
    assert first[0] == last[0] && FirstBucket(l, Comeback(l, at), key) == Some(b);
    assert b.rate * (at - at) == 0.0;
  }

  lemma {:induction false} AfterConcat(l: Limiter, a: seq<Call>, b: seq<Call>)
    requires LimiterOk(l)
    ensures After(l, a + b) == After(After(l, a), b)
    decreases a
  {
    if a == [] {
      assert a + b == b;
    } else {
      PerformOk(l, a[0]);
      assert (a + b)[1..] == a[1..] + b;
      AfterConcat(Perform(l, a[0]), a[1..], b);
    }
  }

  lemma LastGranted(l: Limiter, key: string, at: real)
    requires LimiterOk(l) && BucketOk(KeyBucket(l, Key(key, None, None, at))) && Granted(l, Key(key, None, None, at))
    ensures KeyGrants(l, [Key(key, None, None, at)], key, at, at) == 1
  {
    var cs := [Key(key, None, None, at)];
    PerformOk(l, cs[0]);
    assert cs[1..] == [];
  }

  /** Runs of a new limiter that use at most `n` distinct keys. */
  ghost predicate SafeFor(l: Limiter, n: nat)
    requires LimiterOk(l)
  {
    forall cs, key, clock, from, to ::
      Ordered(cs, clock) && |KeysUsed(cs)| <= n && from <= to ==> KeyBound(l, cs, key, from, to)
  }

  /** Every key is kept to its bucket in all runs with at most `n` keys exactly when that many keys
      can be tracked. */
  lemma SafeIffTracked(l: Limiter, n: nat)
    requires LimiterOk(l) && l.keys == []
    ensures SafeFor(l, n) <==> n <= l.maxKeys
  {
    if n <= l.maxKeys {
      forall cs, key, clock, from, to | Ordered(cs, clock) && |KeysUsed(cs)| <= n && from <= to
        ensures KeyBound(l, cs, key, from, to)
      {
        assert Keys(l.keys) + KeysUsed(cs) == KeysUsed(cs);
        KeyWindowBound(l, cs, key, clock, from, to);
      }
    } else {
      ComebackUses(l, 0.0);
      ComebackExceeds(l, 0.0);
    }
  }

  // ---------------------------------------------------------------- the object

  class RateLimiterState {
    var globalBucket: Bucket
    var perKeyBuckets: seq<Slot<Bucket>>
    const maxTrackedKeys: nat
    const perKeyCapacity: real
    const perKeyRate: real
    var perKeyEvictions: u64

    ghost function Value(): Limiter
      reads this
    {
      Limiter(globalBucket, perKeyBuckets, maxTrackedKeys, perKeyCapacity, perKeyRate, perKeyEvictions)
    }

    constructor (globalBurst: u32, globalPerMinute: u32, keyBurst: u32, keyPerMinute: u32, maxTrackedKeys: nat,
                 now: real)
      requires maxTrackedKeys >= 1
      ensures LimiterOk(Value()) && perKeyBuckets == [] && perKeyEvictions == 0
      ensures globalBucket == NewBucket(globalBurst as real, RatePerSecond(globalPerMinute), now)
    {
      globalBucket := NewBucket(globalBurst as real, RatePerSecond(globalPerMinute), now);
      perKeyBuckets := [];
      this.maxTrackedKeys := maxTrackedKeys;
      perKeyCapacity := keyBurst as real;
      perKeyRate := RatePerSecond(keyPerMinute);
      perKeyEvictions := 0;
    }

    method CheckGlobal(now: real) returns (r: Result<(), int>)
      requires LimiterOk(Value())
      modifies this
      ensures LimiterOk(Value()) && Value() == Perform(old(Value()), Global(now))
      ensures r.Ok? == Granted(old(Value()), Global(now))
      ensures r.Err? ==> r.error == RetryAfter(CallWait(old(Value()), Global(now)).value)
    {
      PerformOk(Value(), Global(now));
      globalBucket := Refill(globalBucket, now);
      var wait := Wait(globalBucket);
      if wait.Some? {
        return Err(RetryAfter(wait.value));
      }
      globalBucket := Consume(globalBucket, now);
      r := Ok(());
    }

    method CheckKeyWithOverride(key: string, requestsPerMinute: Option<u32>, burst: Option<u32>, now: real)
      returns (r: Result<(), int>)
      requires LimiterOk(Value())
      modifies this
      ensures LimiterOk(Value())
      ensures var call := Key(key, requestsPerMinute, burst, now);
              && Value() == Perform(old(Value()), call)
              && r.Ok? == Granted(old(Value()), call)
              && (r.Err? ==> r.error == RetryAfter(CallWait(old(Value()), call).value))
    {
      PerformOk(Value(), Key(key, requestsPerMinute, burst, now));
      var capacity := RMax(if burst.Some? then burst.value as real else perKeyCapacity, 1.0);
      var rate := if requestsPerMinute.Some? then RatePerSecond(requestsPerMinute.value) else perKeyRate;
      var found := Find(perKeyBuckets, key);
      if found.None? && |perKeyBuckets| == maxTrackedKeys {
        perKeyEvictions := SatAdd64(perKeyEvictions, 1);
      }
      var bucket := if found.Some? then found.value else NewBucket(capacity, rate, now);
      bucket := Refill(bucket, now);
      var wait := Wait(bucket);
      if wait.Some? {
        perKeyBuckets := Put(perKeyBuckets, key, bucket, maxTrackedKeys);
        return Err(RetryAfter(wait.value));
      }
      perKeyBuckets := Put(perKeyBuckets, key, Consume(bucket, now), maxTrackedKeys);
      r := Ok(());
    }

    method CheckBoth(key: string, now: real) returns (r: Result<(), int>)
      requires LimiterOk(Value())
      modifies this
      ensures LimiterOk(Value()) && Value() == Perform(old(Value()), Both(key, now))
      ensures r.Ok? == Granted(old(Value()), Both(key, now))
      ensures r.Err? ==> r.error == RetryAfter(CallWait(old(Value()), Both(key, now)).value)
    {
      PerformOk(Value(), Both(key, now));
      RefusedIffWait(Value(), Both(key, now));
      var found := Find(perKeyBuckets, key);
      if found.None? && |perKeyBuckets| == maxTrackedKeys {
        perKeyEvictions := SatAdd64(perKeyEvictions, 1);
      }
      var bucket := if found.Some? then found.value else NewBucket(perKeyCapacity, perKeyRate, now);
      bucket := Refill(bucket, now);
      globalBucket := Refill(globalBucket, now);
      var wait := MaxWait(Wait(globalBucket), Wait(bucket));
      if wait.Some? {
        perKeyBuckets := Put(perKeyBuckets, key, bucket, maxTrackedKeys);
        return Err(RetryAfter(wait.value));
      }
      globalBucket := Consume(globalBucket, now);
      perKeyBuckets := Put(perKeyBuckets, key, Consume(bucket, now), maxTrackedKeys);
      r := Ok(());
    }
  }
}
