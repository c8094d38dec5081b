/** The orders that candidate sorting relies on. */
module Ordering {

  /** Rust compares strings byte by byte, which for UTF-8 is code point by code point. */
  predicate StrLess(a: string, b: string) {
    b != [] && (a == [] || a[0] < b[0] || (a[0] == b[0] && StrLess(a[1..], b[1..])))
  }

  lemma {:induction false} StrTotal(a: string, b: string)
    ensures a == b || StrLess(a, b) || StrLess(b, a)
    ensures !(StrLess(a, b) && StrLess(b, a))
    ensures !StrLess(a, a)
  {
    if a != [] { StrTotal(a[1..], a[1..]); }
    if a != [] && b != [] && a[0] == b[0] {
      StrTotal(a[1..], b[1..]);
      assert a == [a[0]] + a[1..] && b == [b[0]] + b[1..];
    }
  }

  lemma {:induction false} StrTrans(a: string, b: string, c: string)
    requires StrLess(a, b) && StrLess(b, c)
    ensures StrLess(a, c)
  {
    if a != [] && a[0] == b[0] == c[0] { StrTrans(a[1..], b[1..], c[1..]); }
  }

  /** The order of a dictionary: the first difference decides, and a proper prefix comes first. */
  lemma {:induction false} StrLessExact(a: string, b: string)
    ensures StrLess(a, b) <==>
            exists k: nat :: k <= |a| && k < |b| && a[..k] == b[..k] && (k == |a| || a[k] < b[k])
  {
    if StrLess(a, b) {
      var k := FirstDifference(a, b);
      assert a[..k] == b[..k];
    }
    if k: nat :| k <= |a| && k < |b| && a[..k] == b[..k] && (k == |a| || a[k] < b[k]) { DifferenceDecides(a, b, k); }
  }

  lemma {:induction false} FirstDifference(a: string, b: string) returns (k: nat)
    requires StrLess(a, b)
    ensures k <= |a| && k < |b| && a[..k] == b[..k] && (k == |a| || a[k] < b[k])
  {
    if a == [] || a[0] < b[0] {
      k := 0;
    } else {
      var m := FirstDifference(a[1..], b[1..]);
      k := m + 1;
      assert a[..k] == [a[0]] + a[1..][..m] && b[..k] == [b[0]] + b[1..][..m];
    }
  }

  lemma {:induction false} DifferenceDecides(a: string, b: string, k: nat)
    requires k <= |a| && k < |b| && a[..k] == b[..k] && (k == |a| || a[k] < b[k])
    ensures StrLess(a, b)
    decreases k
  {
    if k > 0 {
      assert a[0] == a[..k][0] == b[..k][0] == b[0];
      assert a[1..][..k - 1] == a[..k][1..] && b[1..][..k - 1] == b[..k][1..];
      DifferenceDecides(a[1..], b[1..], k - 1);
    }
  }

  /** A floating-point score; unknown latency is infinite. */
  datatype Score = Fin(value: real) | Inf

  predicate ScoreLess(a: Score, b: Score) {
    a.Fin? && (b.Inf? || a.value < b.value)
  }

  /** What every candidate sort compares: a score, then a rank, then the provider's name. */
  datatype Key = Key(score: Score, rank: nat, name: string)

  predicate KeyLess(a: Key, b: Key) {
    || ScoreLess(a.score, b.score)
    || (a.score == b.score && (a.rank < b.rank || (a.rank == b.rank && StrLess(a.name, b.name))))
  }

  lemma KeyTotal(a: Key, b: Key)
    ensures a == b || KeyLess(a, b) || KeyLess(b, a)
    ensures !(KeyLess(a, b) && KeyLess(b, a))
  {
    StrTotal(a.name, b.name);
  }

  lemma KeyTrans(a: Key, b: Key, c: Key)
    requires KeyLess(a, b) && KeyLess(b, c)
    ensures KeyLess(a, c)
  {
    if a.score == b.score == c.score && a.rank == b.rank == c.rank { StrTrans(a.name, b.name, c.name); }
  }
}
