/** The prefix-affinity index (`src/routing/prefix_affinity.rs`): which provider last served a
    prompt-prefix fingerprint. Instants are nanoseconds. */
module PrefixAffinity {
  import opened Base
  import opened Lru

  datatype Entry = Entry(provider: string, updatedAt: nat)

  type Cache = seq<Slot<Entry>>

  datatype Limits = Limits(ttl: nat, maxEntries: nat)

  function Capacity(l: Limits): nat {
    if l.maxEntries < 1 then 1 else l.maxEntries
  }

  function Age(now: nat, at: nat): nat {
    if at <= now then now - at else 0
  }

  predicate Expired(l: Limits, e: Entry, now: nat) {
    Age(now, e.updatedAt) > l.ttl
  }

  datatype Answer = Answer(cache: Cache, provider: Option<string>)

  /** `lookup`: a hit is promoted even when it turns out to be expired and is then removed. */
  function Lookup(l: Limits, c: Cache, fingerprint: string, now: nat): Answer {
    match Find(c, fingerprint)
    case None => Answer(c, None)
    case Some(e) =>
      if Expired(l, e, now) then Answer(Without(Promote(c, fingerprint), fingerprint), None)
      else Answer(Promote(Promote(c, fingerprint), fingerprint), Some(e.provider))
  }

  function Record(l: Limits, c: Cache, fingerprint: string, provider: string, now: nat): Cache
    requires |c| <= Capacity(l)
  {
    Put(c, fingerprint, Entry(provider, now), Capacity(l))
  }

  // ---------------------------------------------------------------- the unbounded meaning

  /** What has happened to the index: records, and lookups that were answered. */
  datatype Event = Recorded(key: string, entry: Entry) | Answered(key: string)

  /** The latest record for a fingerprint, however old. */
  function Latest(h: seq<Event>, f: string): Option<Entry> {
    if h == [] then None
    else
      var last := h[|h| - 1];
      if last.Recorded? && last.key == f then Some(last.entry) else Latest(h[..|h| - 1], f)
  }

  /** Other fingerprints recorded or answered since `f` last was. */
  function TouchedSince(h: seq<Event>, f: string): set<string> {
    if h == [] || h[|h| - 1].key == f then {}
    else TouchedSince(h[..|h| - 1], f) + {h[|h| - 1].key}
  }

  /** The bounded cache against the unbounded map, for one fingerprint: it holds the latest record,
      or that record is expired, or enough others have been used since. */
  ghost predicate RefinesAt(l: Limits, c: Cache, h: seq<Event>, now: nat, f: string) {
    match Latest(h, f)
    case None => Find(c, f) == None
    case Some(e) =>
      && e.updatedAt <= now
      && (if Find(c, f).Some? then Find(c, f) == Some(e) && Ahead(c, f) <= TouchedSince(h, f)
          else Expired(l, e, now) || |TouchedSince(h, f)| >= Capacity(l))
  }

  ghost predicate Refines(l: Limits, c: Cache, h: seq<Event>, now: nat) {
    && Unique(c) && |c| <= Capacity(l)
    && (forall f :: RefinesAt(l, c, h, now, f))
  }

  lemma HistorySnoc(h: seq<Event>, e: Event, f: string)
    ensures Latest(h + [e], f) == if e.Recorded? && e.key == f then Some(e.entry) else Latest(h, f)
    ensures TouchedSince(h + [e], f) == if e.key == f then {} else TouchedSince(h, f) + {e.key}
  {
    assert (h + [e])[..|h|] == h;
  }

  lemma RecordRefines(l: Limits, c: Cache, h: seq<Event>, clock: nat, f: string, provider: string, now: nat)
    requires Refines(l, c, h, clock) && clock <= now
    ensures Refines(l, Record(l, c, f, provider, now), h + [Recorded(f, Entry(provider, now))], now)
  {
    var d, e := Record(l, c, f, provider, now), Recorded(f, Entry(provider, now));
    PutFacts(c, f, e.entry, Capacity(l), f);
    forall j ensures RefinesAt(l, d, h + [e], now, j) {
      HistorySnoc(h, e, j);
      assert RefinesAt(l, c, h, clock, j);
      if j != f {
        PutFacts(c, f, e.entry, Capacity(l), j);
        if Find(c, j).Some? && Find(d, j) == None {
          SubsetSize({f} + Ahead(c, j), TouchedSince(h + [e], j));
        } else if Find(c, j) == None && Latest(h, j).Some? {
          SubsetSize(TouchedSince(h, j), TouchedSince(h + [e], j));
        }
      }
    }
  }

  /** An answer is the latest record and within its time to live; no answer means there is no
      record, or it has expired, or at least `max_entries` other fingerprints were used since. So a
      record that is young enough, with fewer others used since, is answered. */
  lemma LookupIsLatest(l: Limits, c: Cache, h: seq<Event>, clock: nat, f: string, now: nat)
    requires Refines(l, c, h, clock) && clock <= now
    ensures match Lookup(l, c, f, now).provider
            case Some(p) =>
              Latest(h, f).Some? && Latest(h, f).value.provider == p && now - Latest(h, f).value.updatedAt <= l.ttl
            case None =>
              || Latest(h, f) == None || now - Latest(h, f).value.updatedAt > l.ttl
              || |TouchedSince(h, f)| >= Max(1, l.maxEntries)
    ensures Latest(h, f).Some? && now - Latest(h, f).value.updatedAt <= l.ttl
            && |TouchedSince(h, f)| < Max(1, l.maxEntries) ==>
              Lookup(l, c, f, now).provider == Some(Latest(h, f).value.provider)
  {
    assert RefinesAt(l, c, h, clock, f);
  }

  lemma LookupHitRefines(l: Limits, c: Cache, h: seq<Event>, clock: nat, f: string, now: nat)
    requires Refines(l, c, h, clock) && clock <= now && Lookup(l, c, f, now).provider.Some?
    ensures Refines(l, Lookup(l, c, f, now).cache, h + [Answered(f)], now)
  {
    var d := Promote(Promote(c, f), f);
    PromoteFacts(c, f, f);
    PromoteFacts(Promote(c, f), f, f);
    forall j ensures RefinesAt(l, d, h + [Answered(f)], now, j) {
      HistorySnoc(h, Answered(f), j);
      PromoteFacts(c, f, j);
      PromoteFacts(Promote(c, f), f, j);
      assert RefinesAt(l, c, h, clock, j);
      SubsetSize(TouchedSince(h, j), TouchedSince(h, j) + {f});
    }
  }

  lemma LookupMissRefines(l: Limits, c: Cache, h: seq<Event>, clock: nat, f: string, now: nat)
    requires Refines(l, c, h, clock) && clock <= now && Lookup(l, c, f, now).provider.None?
    ensures Refines(l, Lookup(l, c, f, now).cache, h, now)
  {
    var d := Lookup(l, c, f, now).cache;
    PromoteFacts(c, f, f);
    WithoutFacts(Promote(c, f), f, f);
    forall j ensures RefinesAt(l, d, h, now, j) {
      assert RefinesAt(l, c, h, clock, j);
      PromoteFacts(c, f, j);
      WithoutFacts(Promote(c, f), f, j);
      if Find(c, f).Some? && j != f {
        ConsFacts(f, Find(c, f).value, Without(c, f), j);
        WithoutFacts(c, f, j);
        WithoutFacts(c, f, f);
        assert Without(Promote(c, f), f) == Without(c, f);
      }
    }
  }

  // ---------------------------------------------------------------- the object

  class PrefixAffinityIndex {
    const limits: Limits
    var entries: Cache
    ghost var history: seq<Event>
    ghost var clock: nat

    ghost predicate Valid()
      reads this
    {
      Refines(limits, entries, history, clock)
    }

    constructor (limits: Limits)
      ensures Valid() && this.limits == limits && history == []
    {
      this.limits, entries, history, clock := limits, [], [], 0;
    }

    method LookupProvider(fingerprint: string, now: nat) returns (provider: Option<string>)
      requires Valid() && clock <= now
      modifies this
      ensures Valid() && clock == now
      ensures history == old(history) + (if provider.Some? then [Answered(fingerprint)] else [])
      ensures provider.Some? ==> Latest(history, fingerprint).Some?
                                 && Latest(history, fingerprint).value.provider == provider.value
                                 && Age(now, Latest(history, fingerprint).value.updatedAt) <= limits.ttl
      ensures provider.None? ==> Latest(history, fingerprint) == None
                                 || Expired(limits, Latest(history, fingerprint).value, now)
                                 || |TouchedSince(history, fingerprint)| >= Capacity(limits)
    {
      LookupIsLatest(limits, entries, history, clock, fingerprint, now);
      ghost var before := entries;
      var entry := Find(entries, fingerprint);
      entries := Promote(entries, fingerprint);
      if entry.Some? && Expired(limits, entry.value, now) {
        LookupMissRefines(limits, before, history, clock, fingerprint, now);
        entries := Without(entries, fingerprint);
        clock := now;
        return None;
      }
      entries := Promote(entries, fingerprint);
      if entry.Some? {
        LookupHitRefines(limits, before, history, clock, fingerprint, now);
        HistorySnoc(history, Answered(fingerprint), fingerprint);
        history := history + [Answered(fingerprint)];
        provider := Some(entry.value.provider);
      } else {
        LookupMissRefines(limits, before, history, clock, fingerprint, now);
        provider := None;
      }
      clock := now;
    }

    method RecordProvider(fingerprint: string, provider: string, now: nat)
      requires Valid() && clock <= now
      modifies this
      ensures Valid() && clock == now
      ensures history == old(history) + [Recorded(fingerprint, Entry(provider, now))]
    {
      RecordRefines(limits, entries, history, clock, fingerprint, provider, now);
      entries := Put(entries, fingerprint, Entry(provider, now), Capacity(limits));
      history := history + [Recorded(fingerprint, Entry(provider, now))];
      clock := now;
    }
  }
}
