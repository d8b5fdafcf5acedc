/** Machine integers, wrapping 32-bit counters and the small helpers shared by the device models. */
module Machine {

  type u8 = x: int | 0 <= x < 0x100
  type u16 = x: int | 0 <= x < 0x1_0000
  type u32 = x: int | 0 <= x < 0x1_0000_0000
  type u64 = x: int | 0 <= x < 0x1_0000_0000_0000_0000

  const M32: int := 0x1_0000_0000
  const MAX_U32: u32 := 0xffff_ffff

  datatype Option<+T> = None | Some(value: T)

  function Min(a: int, b: int): int {
    if a <= b then a else b
  }

  function Max(a: int, b: int): int {
    if a <= b then b else a
  }

  /** `u32::wrapping_add` with an operand that is itself truncated to 32 bits. */
  function Add32(a: u32, b: int): u32 {
    (a + b) % M32
  }

  /** `u32::wrapping_sub`. */
  function Sub32(a: u32, b: u32): u32 {
    (a - b) % M32
  }

  /** `u32::saturating_sub`. */
  function SatSub(a: int, b: int): int {
    if a < b then 0 else a - b
  }

  /** The 32-bit image of an unbounded counter. */
  function Wrap(n: nat): u32 {
    n % M32
  }

  /** Adding to a wrapped counter tracks adding to the unbounded one. */
  lemma WrapAdd(n: nat, k: nat)
    ensures Add32(Wrap(n), k) == Wrap(n + k)
  {
    var q, r := n / M32, n % M32;
    assert n + k == q * M32 + (r + k);
    ModShift(r + k, q);
  }

  /** The wrapped difference of two counters is exact while they are within 2^32 of each other. */
  lemma WrapSub(hi: nat, lo: nat)
    requires lo <= hi
    ensures Sub32(Wrap(hi), Wrap(lo)) == (hi - lo) % M32
    ensures hi - lo < M32 ==> Sub32(Wrap(hi), Wrap(lo)) == hi - lo
  {
    var a, b := hi / M32, lo / M32;
    assert hi - lo == (a - b) * M32 + (hi % M32 - lo % M32);
    ModShift(hi % M32 - lo % M32, a - b);
  }

  /** Adding to the minuend of a wrapped difference, while the sum does not wrap. */
  lemma SubAdd(a: u32, b: u32, n: nat)
    requires Sub32(a, b) + n < M32
    ensures Sub32(Add32(a, n), b) == Sub32(a, b) + n
  {
    var q := (a + n) / M32;
    assert a + n - b == q * M32 + (Add32(a, n) - b);
    ModShift(Add32(a, n) - b, q);
    var p := (a - b) / M32;
    assert a + n - b == p * M32 + (Sub32(a, b) + n);
    ModShift(Sub32(a, b) + n, p);
  }

  lemma ModShift(x: int, q: int)
    ensures (q * M32 + x) % M32 == x % M32
  {
  }

  // ---- what holds since some point of a run ----

  /** It began at step `k` of a run, and no later step ended it. */
  predicate Since(begins: seq<bool>, ends: seq<bool>, k: nat) {
    && |begins| == |ends| && k < |begins| && begins[k]
    && forall j :: k < j < |ends| ==> !ends[j]
  }

  /** It holds at the end of the run. */
  ghost predicate Holds(begins: seq<bool>, ends: seq<bool>) {
    exists k: nat :: Since(begins, ends, k)
  }

  lemma HoldsPush(begins: seq<bool>, ends: seq<bool>, begin: bool, end: bool)
    requires |begins| == |ends|
    ensures Holds(begins + [begin], ends + [end]) <==> begin || (Holds(begins, ends) && !end)
  {
    var n := |begins|;
    assert begin ==> Since(begins + [begin], ends + [end], n);
    forall k: nat | k < n ensures Since(begins + [begin], ends + [end], k) <==> Since(begins, ends, k) && !end {
      assert (begins + [begin])[k] == begins[k] && (ends + [end])[n] == end;
      assert forall j :: 0 <= j < n ==> (ends + [end])[j] == ends[j];
    }
  }
}
