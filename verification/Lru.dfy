/** A bounded least-recently-used cache, as the `lru` crate keeps it: most recent entry first. */
module Lru {
  import opened Base

  datatype Slot<+V> = Slot(key: string, value: V)

  ghost predicate Unique<V>(c: seq<Slot<V>>) {
    forall i, j :: 0 <= i < j < |c| ==> c[i].key != c[j].key
  }

  function Find<V>(c: seq<Slot<V>>, k: string): Option<V> {
    if c == [] then None else if c[0].key == k then Some(c[0].value) else Find(c[1..], k)
  }

  function Without<V>(c: seq<Slot<V>>, k: string): (r: seq<Slot<V>>)
    ensures |r| <= |c|
  {
    if c == [] then [] else if c[0].key == k then c[1..] else [c[0]] + Without(c[1..], k)
  }

  /** `get`: a hit becomes the most recent entry. */
  function Promote<V>(c: seq<Slot<V>>, k: string): seq<Slot<V>> {
    match Find(c, k)
    case None => c
    case Some(v) => [Slot(k, v)] + Without(c, k)
  }

  /** `put`: insert or replace at the front; a full cache drops its last entry. */
  function Put<V>(c: seq<Slot<V>>, k: string, v: V, cap: nat): seq<Slot<V>>
    requires |c| <= cap && 1 <= cap
  {
    var rest := Without(c, k);
    if |rest| < cap then [Slot(k, v)] + rest else [Slot(k, v)] + rest[..cap - 1]
  }

  /** Keys more recent than `k`. */
  function Ahead<V>(c: seq<Slot<V>>, k: string): set<string> {
    if c == [] || c[0].key == k then {} else {c[0].key} + Ahead(c[1..], k)
  }

  function Keys<V>(c: seq<Slot<V>>): set<string> {
    if c == [] then {} else {c[0].key} + Keys(c[1..])
  }

  lemma {:induction false} FindIffKey<V>(c: seq<Slot<V>>, k: string)
    ensures Find(c, k).Some? <==> k in Keys(c)
    ensures k in Keys(c) <==> exists i :: 0 <= i < |c| && c[i].key == k
  {
    if c != [] {
      FindIffKey(c[1..], k);
      if k in Keys(c[1..]) {
        var i :| 0 <= i < |c[1..]| && c[1..][i].key == k;
        assert c[i + 1].key == k;
      }
      if i :| 0 <= i < |c| && c[i].key == k {
        if i > 0 { assert c[1..][i - 1].key == k; }
      }
    }
  }

  lemma {:induction false} AheadInKeys<V>(c: seq<Slot<V>>, k: string)
    ensures Ahead(c, k) <= Keys(c) && k !in Ahead(c, k)
  {
    if c != [] && c[0].key != k { AheadInKeys(c[1..], k); }
  }

  /** Removing a key affects no other key and keeps the order of the rest. */
  lemma {:induction false} WithoutFacts<V>(c: seq<Slot<V>>, k: string, j: string)
    requires Unique(c)
    ensures Unique(Without(c, k))
    ensures |Without(c, k)| == |c| - (if Find(c, k).Some? then 1 else 0)
    ensures Find(Without(c, k), j) == if j == k then None else Find(c, j)
    ensures j != k ==> Ahead(Without(c, k), j) <= Ahead(c, j)
    ensures Keys(Without(c, k)) == Keys(c) - {k}
  {
    if c != [] {
      var tail := c[1..];
      assert Unique(tail);
      FindIffKey(tail, c[0].key);
      FindIffKey(c, j);
      if c[0].key == k {
        FindIffKey(tail, k);
      } else {
        WithoutFacts(tail, k, j);
        WithoutFacts(tail, k, c[0].key);
        var rest := Without(tail, k);
        FindIffKey(rest, c[0].key);
        assert c[0].key !in Keys(rest);
        forall i, l | 0 <= i < l < |[c[0]] + rest| ensures ([c[0]] + rest)[i].key != ([c[0]] + rest)[l].key {
          if i == 0 { assert rest[l - 1].key != c[0].key; }
        }
      }
    }
  }

  /** Dropping the last entry loses only that one key. */
  lemma {:induction false} DropLast<V>(c: seq<Slot<V>>, j: string)
    requires Unique(c) && c != []
    ensures var last := c[|c| - 1].key;
            && Unique(c[..|c| - 1])
            && (j != last ==> Find(c[..|c| - 1], j) == Find(c, j) && Ahead(c[..|c| - 1], j) <= Ahead(c, j))
            && (j == last ==> Find(c[..|c| - 1], j) == None && |Ahead(c, j)| == |c| - 1)
  {
    var n := |c| - 1;
    if n == 0 {
      assert c[..0] == [];
    } else {
      var tail := c[1..];
      assert Unique(tail);
      DropLast(tail, j);
      assert c[..n][1..] == tail[..n - 1];
      assert tail[n - 1] == c[n];
      AheadInKeys(tail, j);
      if j == c[n].key && c[0].key in Ahead(tail, j) {
        FindIffKey(tail, c[0].key);
        assert false;
      }
    }
  }

  lemma ConsFacts<V>(k: string, v: V, rest: seq<Slot<V>>, j: string)
    requires Unique(rest) && k !in Keys(rest)
    ensures Unique([Slot(k, v)] + rest)
    ensures Find([Slot(k, v)] + rest, j) == if j == k then Some(v) else Find(rest, j)
    ensures Ahead([Slot(k, v)] + rest, j) == if j == k then {} else {k} + Ahead(rest, j)
    ensures Keys([Slot(k, v)] + rest) == {k} + Keys(rest)
  {
    var c := [Slot(k, v)] + rest;
    assert c[1..] == rest;
    FindIffKey(rest, k);
    forall i, l | 0 <= i < l < |c| ensures c[i].key != c[l].key {
      if i == 0 { assert rest[l - 1].key != k; }
    }
  }

  /** A hit changes no answer and moves only `k` ahead of the others. */
  lemma PromoteFacts<V>(c: seq<Slot<V>>, k: string, j: string)
    requires Unique(c)
    ensures Unique(Promote(c, k)) && |Promote(c, k)| == |c|
    ensures Find(Promote(c, k), j) == Find(c, j)
    ensures Find(c, k).Some? ==>
              Ahead(Promote(c, k), k) == {} && (j != k ==> Ahead(Promote(c, k), j) <= {k} + Ahead(c, j))
    ensures Keys(Promote(c, k)) == Keys(c)
  {
    if Find(c, k).Some? {
      WithoutFacts(c, k, j);
      WithoutFacts(c, k, k);
      ConsFacts(k, Find(c, k).value, Without(c, k), j);
      ConsFacts(k, Find(c, k).value, Without(c, k), k);
      FindIffKey(c, k);
    }
  }

  /** What inserting `k` does: the bound is kept; another key `j` keeps its value unless it is lost,
      and then `cap` other keys are now more recent than its last use. */
  ghost predicate PutOk<V>(c: seq<Slot<V>>, d: seq<Slot<V>>, k: string, v: V, cap: nat, j: string) {
    && Unique(d) && |d| <= cap
    && Find(d, k) == Some(v) && Ahead(d, k) == {}
    && (j != k ==>
          && (Find(d, j) == Find(c, j) || (Find(d, j) == None && Find(c, j).Some? && |{k} + Ahead(c, j)| >= cap))
          && (Find(d, j).Some? ==> Ahead(d, j) <= {k} + Ahead(c, j)))
  }

  lemma PutWithRoom<V>(c: seq<Slot<V>>, k: string, v: V, cap: nat, j: string)
    requires Unique(c) && |c| <= cap && 1 <= cap && |Without(c, k)| < cap
    ensures PutOk(c, Put(c, k, v, cap), k, v, cap, j)
    ensures Keys(Put(c, k, v, cap)) == {k} + Keys(c)
    ensures j != k ==> Find(Put(c, k, v, cap), j) == Find(c, j)
  {
    var rest := Without(c, k);
    WithoutFacts(c, k, j);
    WithoutFacts(c, k, k);
    ConsFacts(k, v, rest, j);
    ConsFacts(k, v, rest, k);
  }

  lemma PutWhenFull<V>(c: seq<Slot<V>>, k: string, v: V, cap: nat, j: string)
    requires Unique(c) && |c| <= cap && 1 <= cap && |Without(c, k)| == cap
    ensures k !in Keys(c) && PutOk(c, Put(c, k, v, cap), k, v, cap, j)
  {
    WithoutFacts(c, k, j);
    FindIffKey(c, k);
    WithoutAbsent(c, k);
    var kept := c[..cap - 1];
    DropLast(c, j);
    KeysPrefix(c, cap - 1);
    ConsFacts(k, v, kept, j);
    ConsFacts(k, v, kept, k);
    AheadInKeys(c, j);
    FindIffKey(c, j);
    if j == c[cap - 1].key {
      assert |{k} + Ahead(c, j)| == |Ahead(c, j)| + 1;
    }
  }

  lemma PutFacts<V>(c: seq<Slot<V>>, k: string, v: V, cap: nat, j: string)
    requires Unique(c) && |c| <= cap && 1 <= cap
    ensures PutOk(c, Put(c, k, v, cap), k, v, cap, j)
  {
    if |Without(c, k)| < cap { PutWithRoom(c, k, v, cap, j); } else { PutWhenFull(c, k, v, cap, j); }
  }

  lemma {:induction false} WithoutLength<V>(c: seq<Slot<V>>, k: string)
    ensures |Without(c, k)| == |c| - (if Find(c, k).Some? then 1 else 0)
  {
    if c != [] { WithoutLength(c[1..], k); }
  }

  /** An insertion adds an entry for a new key, and loses one exactly if the cache was full. */
  lemma PutLength<V>(c: seq<Slot<V>>, k: string, v: V, cap: nat)
    requires |c| <= cap && 1 <= cap
    ensures |Put(c, k, v, cap)| ==
            |c| + (if Find(c, k).None? then 1 else 0) - (if Find(c, k).None? && |c| == cap then 1 else 0)
  {
    WithoutLength(c, k);
  }

  /** If all keys fit, nothing is lost. */
  lemma PutFits<V>(c: seq<Slot<V>>, k: string, v: V, cap: nat, j: string)
    requires Unique(c) && |c| <= cap && 1 <= cap && |{k} + Keys(c)| <= cap
    ensures Keys(Put(c, k, v, cap)) == {k} + Keys(c)
    ensures Find(Put(c, k, v, cap), j) == if j == k then Some(v) else Find(c, j)
  {
    KeysSize(c);
    if |Without(c, k)| == cap {
      PutWhenFull(c, k, v, cap, j);
      assert false;
    } else {
      PutWithRoom(c, k, v, cap, j);
    }
  }

  lemma {:induction false} WithoutAbsent<V>(c: seq<Slot<V>>, k: string)
    requires k !in Keys(c)
    ensures Without(c, k) == c
  {
    if c != [] { WithoutAbsent(c[1..], k); }
  }

  lemma {:induction false} KeysPrefix<V>(c: seq<Slot<V>>, n: nat)
    requires n <= |c|
    ensures Keys(c[..n]) <= Keys(c)
    decreases n
  {
    if n > 0 {
      assert c[..n][1..] == c[1..][..n - 1];
      KeysPrefix(c[1..], n - 1);
    }
  }

  lemma {:induction false} KeysSize<V>(c: seq<Slot<V>>)
    requires Unique(c)
    ensures |Keys(c)| == |c|
  {
    if c != [] {
      assert Unique(c[1..]);
      KeysSize(c[1..]);
      FindIffKey(c[1..], c[0].key);
    }
  }
}
