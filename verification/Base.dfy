/** Shared vocabulary: optional values and Rust's fixed-width unsigned integers. */
module Base {

  datatype Option<+T> = None | Some(value: T) {
    function UnwrapOr(other: T): T {
      if Some? then value else other
    }
  }

  datatype Result<+T, +E> = Ok(value: T) | Err(error: E)

  const U32_MAX: nat := 0xFFFF_FFFF
  const U64_MAX: nat := 0xFFFF_FFFF_FFFF_FFFF

  type u32 = n: nat | n <= U32_MAX
  type u64 = n: nat | n <= U64_MAX

  function Min(a: int, b: int): int {
    if a <= b then a else b
  }

  function Max(a: int, b: int): int {
    if a <= b then b else a
  }

  /** `u32::saturating_add` */
  function SatAdd32(a: u32, b: u32): u32 {
    if a + b <= U32_MAX then a + b else U32_MAX
  }

  /** `u64::saturating_add` */
  function SatAdd64(a: u64, b: u64): u64 {
    if a + b <= U64_MAX then a + b else U64_MAX
  }

  /** `u64::saturating_sub` */
  function SatSub64(a: u64, b: u64): u64 {
    if b <= a then a - b else 0
  }

  /** `u64::saturating_mul` */
  function SatMul64(a: nat, b: nat): u64 {
    if a * b <= U64_MAX then a * b else U64_MAX
  }

  /** A key that is absent from a counter map stands for zero. */
  function CountAt<K>(m: map<K, u64>, k: K): u64 {
    if k in m then m[k] else 0
  }

  /** The parts with a separator between them. */
  function Join(parts: seq<string>, sep: char): string {
    if parts == [] then ""
    else if |parts| == 1 then parts[0]
    else parts[0] + [sep] + Join(parts[1..], sep)
  }

  /** No element twice. */
  ghost predicate Distinct<T>(s: seq<T>) {
    forall i, j :: 0 <= i < j < |s| ==> s[i] != s[j]
  }

  lemma {:induction false} SubsetSize<T>(a: set<T>, b: set<T>)
    requires a <= b
    ensures |a| <= |b|
    decreases b
  {
    if a != {} {
      var x :| x in a;
      SubsetSize(a - {x}, b - {x});
    }
  }
}
