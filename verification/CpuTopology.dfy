/** The CPUID rewrite that gives every vCPU one flat, consistent topology. */
module CpuTopology {
  import opened Machine

  datatype Entry = Entry(leaf: u32, index: bv32, regs: Regs)
  datatype Regs = Regs(flags: bv32, eax: bv32, ebx: bv32, ecx: bv32, edx: bv32)

  const SIGNIFICANT_INDEX: bv32 := 1
  const MAX_VCPUS: bv32 := 32
  /** Bits of APIC ID within one package: log2 of MAX_VCPUS. */
  const PACKAGE_SHIFT: bv32 := 5
  const THREADS_PER_CORE: bv32 := 1

  /** `next_power_of_two` on the vCPU counts the monitor allows. */
  function MaxLogicalProcessors(n: bv32): (p: bv32)
    ensures p & (p - 1) == 0
    ensures 1 <= n <= MAX_VCPUS ==> n <= p < 2 * n
  {
    if n <= 1 then 1 else if n <= 2 then 2 else if n <= 4 then 4
    else if n <= 8 then 8 else if n <= 16 then 16 else 32
  }

  // ---- registers ----

  function FeatureEbx(ebx: bv32, maxLps: bv32, id: bv32): bv32 {
    (ebx & 0xff) | (8 << 8) | ((maxLps & 0xff) << 16) | (id << 24)
  }

  function Hypervisor(ecx: bv32): bv32 {
    ecx | 0x8000_0000
  }

  function Htt(edx: bv32, on: bool): bv32 {
    if on then edx | 0x1000_0000 else edx & !0x1000_0000
  }

  function CacheLevel(eax: bv32): bv32 {
    (eax >> 5) & 0x7
  }

  function CacheEax(eax: bv32, share: bv32, cores: bv32): bv32 {
    var a := (eax & !(0xfff << 14)) | ((share & 0xfff) << 14);
    (a & !(0x3f << 26)) | ((cores & 0x3f) << 26)
  }

  function AmdEcx(ecx: bv32, cores: bv32): bv32 {
    var a := (ecx & !0xff) | (cores & 0xff);
    (a & !(0xf << 12)) | (PACKAGE_SHIFT << 12)
  }

  lemma FeatureEbxTwice(ebx: bv32, maxLps: bv32, id: bv32)
    ensures FeatureEbx(FeatureEbx(ebx, maxLps, id), maxLps, id) == FeatureEbx(ebx, maxLps, id)
  {
  }

  lemma HypervisorTwice(ecx: bv32)
    ensures Hypervisor(Hypervisor(ecx)) == Hypervisor(ecx)
    ensures Hypervisor(ecx) & 0x8000_0000 != 0
  {
  }

  lemma HttTwice(edx: bv32, on: bool)
    ensures Htt(Htt(edx, on), on) == Htt(edx, on)
    ensures Htt(edx, on) & 0x1000_0000 != 0 <==> on
  {
  }

  lemma CacheEaxTwice(eax: bv32, share: bv32, cores: bv32)
    ensures CacheEax(CacheEax(eax, share, cores), share, cores) == CacheEax(eax, share, cores)
  {
  }

  lemma CacheEaxLevel(eax: bv32, share: bv32, cores: bv32)
    ensures CacheLevel(CacheEax(eax, share, cores)) == CacheLevel(eax)
  {
  }

  lemma LevelNotZero(a: bv32, b: bv32, c: bv32, d: bv32)
    requires CacheLevel(a) != 0
    ensures a | b | c | d != 0
  {
  }

  lemma AmdEcxTwice(ecx: bv32, cores: bv32)
    ensures AmdEcx(AmdEcx(ecx, cores), cores) == AmdEcx(ecx, cores)
  {
  }

  /** The APIC ID and processor count read back from EBX of leaf 1. */
  lemma FeatureEbxFields(ebx: bv32, maxLps: bv32, id: bv32)
    requires id < 32 && maxLps <= 32
    ensures FeatureEbx(ebx, maxLps, id) >> 24 == id
    ensures (FeatureEbx(ebx, maxLps, id) >> 16) & 0xff == maxLps
    ensures (FeatureEbx(ebx, maxLps, id) >> 8) & 0xff == 8
    ensures id >> 5 == 0
  {
  }

  // ---- one entry ----

  function RewriteFeatures(r: Regs, id: bv32, n: bv32): Regs {
    r.(ebx := FeatureEbx(r.ebx, MaxLogicalProcessors(n), id), ecx := Hypervisor(r.ecx), edx := Htt(r.edx, n > 1))
  }

  function RewriteLevels(index: bv32, id: bv32, n: bv32): Regs {
    if index == 0 then Regs(SIGNIFICANT_INDEX, 0, THREADS_PER_CORE & 0xffff, 1 << 8, id)
    else if index == 1 then Regs(SIGNIFICANT_INDEX, PACKAGE_SHIFT & 0x1f, n & 0xffff, 1 | (2 << 8), id)
    else Regs(SIGNIFICANT_INDEX, 0, 0, index, id)
  }

  /** `saturating_sub(1)`. */
  function Less1(n: bv32): bv32 {
    if n == 0 then 0 else n - 1
  }

  function RewriteCache(r: Regs, n: bv32): Regs {
    if r.eax | r.ebx | r.ecx | r.edx == 0 then r
    else
      var level := CacheLevel(r.eax);
      if level == 1 || level == 2 then r.(eax := CacheEax(r.eax, Less1(THREADS_PER_CORE), Less1(n)))
      else if level == 3 then r.(eax := CacheEax(r.eax, Less1(n), Less1(n)))
      else r
  }

  function RewriteRegs(leaf: u32, index: bv32, r: Regs, id: bv32, n: bv32): Regs {
    if leaf == 0x1 then RewriteFeatures(r, id, n)
    else if leaf == 0xb then RewriteLevels(index, id, n)
    else if leaf == 0x4 then RewriteCache(r, n)
    else if leaf == 0x8000_0008 then r.(ecx := AmdEcx(r.ecx, Less1(n)))
    else if leaf == 0x8000_001e then r.(eax := id, ebx := id | (Less1(THREADS_PER_CORE) << 8), ecx := 0)
    else r
  }

  function Rewrite(e: Entry, id: bv32, n: bv32): Entry {
    e.(regs := RewriteRegs(e.leaf, e.index, e.regs, id, n))
  }

  lemma FeaturesTwice(r: Regs, id: bv32, n: bv32)
    ensures RewriteFeatures(RewriteFeatures(r, id, n), id, n) == RewriteFeatures(r, id, n)
  {
    FeatureEbxTwice(r.ebx, MaxLogicalProcessors(n), id);
    HypervisorTwice(r.ecx);
    HttTwice(r.edx, n > 1);
  }

  lemma CacheTwice(r: Regs, n: bv32)
    ensures RewriteCache(RewriteCache(r, n), n) == RewriteCache(r, n)
  {
    var level := CacheLevel(r.eax);
    var share := if level == 3 then Less1(n) else Less1(THREADS_PER_CORE);
    CacheEaxTwice(r.eax, share, Less1(n));
    CacheEaxLevel(r.eax, share, Less1(n));
    if level == 1 || level == 2 || level == 3 {
      LevelNotZero(CacheEax(r.eax, share, Less1(n)), r.ebx, r.ecx, r.edx);
    }
  }

  /** Rewriting an entry that was rewritten changes nothing. */
  lemma RewriteTwice(e: Entry, id: bv32, n: bv32)
    ensures Rewrite(Rewrite(e, id, n), id, n) == Rewrite(e, id, n)
  {
    if e.leaf == 0x1 {
      FeaturesTwice(e.regs, id, n);
    } else if e.leaf == 0x4 {
      CacheTwice(e.regs, n);
    } else if e.leaf == 0x8000_0008 {
      AmdEcxTwice(e.regs.ecx, Less1(n));
    }
  }

  /** What the list passes need of the per-entry rewrite. */
  ghost predicate Tame(rw: Entry -> Entry) {
    && (forall e: Entry :: rw(e).leaf == e.leaf && rw(e).index == e.index)
    && (forall e: Entry :: rw(rw(e)) == rw(e))
    && (forall e: Entry :: e.leaf == 0 || e.leaf == 0x1f ==> rw(e) == e)
  }

  function Rewriter(id: bv32, n: bv32): Entry -> Entry {
    e => Rewrite(e, id, n)
  }

  lemma RewriteTame(id: bv32, n: bv32)
    ensures Tame(Rewriter(id, n))
  {
    var rw := Rewriter(id, n);
    forall e: Entry ensures rw(rw(e)) == rw(e) {
      RewriteTwice(e, id, n);
    }
  }

  // ---- the list ----

  predicate Has(es: seq<Entry>, leaf: u32, index: bv32) {
    exists i :: 0 <= i < |es| && es[i].leaf == leaf && es[i].index == index
  }

  predicate HasLeaf(es: seq<Entry>, leaf: u32) {
    exists i :: 0 <= i < |es| && es[i].leaf == leaf
  }

  function Raised(e: Entry): Entry {
    if e.regs.eax < 0xb then e.(regs := e.regs.(eax := 0xb)) else e
  }

  /** The first entry of leaf 0 advertises at least leaf 0xB. */
  function RaiseMaxLeaf(es: seq<Entry>): (r: seq<Entry>)
    ensures |r| == |es|
    ensures forall i :: 0 <= i < |es| ==> r[i].leaf == es[i].leaf && r[i].index == es[i].index
  {
    if es == [] then []
    else if es[0].leaf == 0 then [Raised(es[0])] + es[1..]
    else [es[0]] + RaiseMaxLeaf(es[1..])
  }

  function EnsureSubleaf(es: seq<Entry>, leaf: u32, index: bv32): seq<Entry> {
    if Has(es, leaf, index) then es else es + [Entry(leaf, index, Regs(SIGNIFICANT_INDEX, 0, 0, 0, 0))]
  }

  function RewriteAll(es: seq<Entry>, rw: Entry -> Entry): (r: seq<Entry>)
    ensures |r| == |es|
    ensures forall i :: 0 <= i < |es| ==> r[i] == rw(es[i])
  {
    if es == [] then [] else [rw(es[0])] + RewriteAll(es[1..], rw)
  }

  function Only(es: seq<Entry>, leaf: u32): seq<Entry> {
    if es == [] then [] else if es[0].leaf == leaf then [es[0]] + Only(es[1..], leaf) else Only(es[1..], leaf)
  }

  function Without(es: seq<Entry>, leaf: u32): seq<Entry> {
    if es == [] then [] else if es[0].leaf != leaf then [es[0]] + Without(es[1..], leaf) else Without(es[1..], leaf)
  }

  function Retag(es: seq<Entry>, leaf: u32): (r: seq<Entry>)
    ensures |r| == |es| && forall i :: 0 <= i < |es| ==> r[i] == es[i].(leaf := leaf)
  {
    if es == [] then [] else [es[0].(leaf := leaf)] + Retag(es[1..], leaf)
  }

  /** Leaf 0x1F, where present, becomes a copy of leaf 0xB at the end of the list. */
  function Mirror(es: seq<Entry>): seq<Entry> {
    if HasLeaf(es, 0x1f) then Without(es, 0x1f) + Retag(Only(es, 0xb), 0x1f) else es
  }

  function Prepared(es: seq<Entry>): seq<Entry> {
    EnsureSubleaf(EnsureSubleaf(RaiseMaxLeaf(es), 0xb, 0), 0xb, 1)
  }

  /** The whole rewrite. */
  function Topology(es: seq<Entry>, rw: Entry -> Entry): seq<Entry> {
    Mirror(RewriteAll(Prepared(es), rw))
  }

  // ---- how the passes commute ----

  lemma {:induction false} RewriteAllConcat(a: seq<Entry>, b: seq<Entry>, rw: Entry -> Entry)
    ensures RewriteAll(a + b, rw) == RewriteAll(a, rw) + RewriteAll(b, rw)
  {
    var l, r := RewriteAll(a + b, rw), RewriteAll(a, rw) + RewriteAll(b, rw);
    forall i | 0 <= i < |l| ensures l[i] == r[i] {
      assert l[i] == rw((a + b)[i]);
    }
  }

  lemma RewriteAllTwice(es: seq<Entry>, rw: Entry -> Entry)
    requires Tame(rw)
    ensures RewriteAll(RewriteAll(es, rw), rw) == RewriteAll(es, rw)
  {
    assert forall i :: 0 <= i < |es| ==> rw(rw(es[i])) == rw(es[i]);
  }

  lemma {:induction false} WithoutConcat(a: seq<Entry>, b: seq<Entry>, leaf: u32)
    ensures Without(a + b, leaf) == Without(a, leaf) + Without(b, leaf)
  {
    if a == [] {
      assert a + b == b;
    } else {
      var tail := Without(a[1..], leaf);
      WithoutConcat(a[1..], b, leaf);
      assert (a + b)[1..] == a[1..] + b && (a + b)[0] == a[0];
      if a[0].leaf != leaf {
        Regroup(a[0], tail, Without(b, leaf));
        assert Without(a, leaf) == [a[0]] + tail;
      } else {
        assert Without(a, leaf) == tail;
      }
    }
  }

  lemma {:induction false} OnlyConcat(a: seq<Entry>, b: seq<Entry>, leaf: u32)
    ensures Only(a + b, leaf) == Only(a, leaf) + Only(b, leaf)
  {
    if a == [] {
      assert a + b == b;
    } else {
      var tail := Only(a[1..], leaf);
      OnlyConcat(a[1..], b, leaf);
      assert (a + b)[1..] == a[1..] + b && (a + b)[0] == a[0];
      if a[0].leaf == leaf {
        Regroup(a[0], tail, Only(b, leaf));
        assert Only(a, leaf) == [a[0]] + tail;
      } else {
        assert Only(a, leaf) == tail;
      }
    }
  }

  lemma {:induction false} WithoutMembers(es: seq<Entry>, leaf: u32)
    ensures forall e :: e in Without(es, leaf) <==> e in es && e.leaf != leaf
    ensures forall e :: e in Only(es, leaf) <==> e in es && e.leaf == leaf
  {
    if es != [] {
      WithoutMembers(es[1..], leaf);
      assert forall e :: e in es <==> e == es[0] || e in es[1..];
    }
  }

  lemma {:induction false} WithoutAgain(es: seq<Entry>, leaf: u32, other: u32)
    ensures Without(Without(es, leaf), leaf) == Without(es, leaf)
    ensures other != leaf ==> Only(Without(es, leaf), other) == Only(es, other)
  {
    if es != [] {
      WithoutAgain(es[1..], leaf, other);
      if es[0].leaf != leaf {
        assert Without(es, leaf)[1..] == Without(es[1..], leaf);
      }
    }
  }

  lemma {:induction false} WithoutAll(es: seq<Entry>, leaf: u32)
    requires forall i :: 0 <= i < |es| ==> es[i].leaf == leaf
    ensures Without(es, leaf) == []
    ensures forall other: u32 :: other != leaf ==> Only(es, other) == []
  {
    if es != [] {
      WithoutAll(es[1..], leaf);
    }
  }

  lemma {:induction false} RewriteWithout(es: seq<Entry>, leaf: u32, rw: Entry -> Entry)
    requires RewriteAll(es, rw) == es
    ensures RewriteAll(Without(es, leaf), rw) == Without(es, leaf)
  {
    var w := Without(es, leaf);
    WithoutMembers(es, leaf);
    forall i | 0 <= i < |w| ensures rw(w[i]) == w[i] {
      assert w[i] in w;
      var j :| 0 <= j < |es| && es[j] == w[i];
      assert RewriteAll(es, rw)[j] == es[j];
    }
  }

  lemma {:induction false} RaiseConcat(a: seq<Entry>, b: seq<Entry>)
    requires forall i :: 0 <= i < |b| ==> b[i].leaf != 0
    ensures RaiseMaxLeaf(a + b) == RaiseMaxLeaf(a) + b
  {
    if a == [] {
      assert a + b == b;
      RaiseNone(b);
    } else {
      assert (a + b)[1..] == a[1..] + b;
      if a[0].leaf != 0 {
        RaiseConcat(a[1..], b);
        Regroup(a[0], RaiseMaxLeaf(a[1..]), b);
      } else {
        Regroup(RaiseMaxLeaf(a)[0], a[1..], b);
      }
    }
  }

  lemma Regroup(x: Entry, a: seq<Entry>, b: seq<Entry>)
    ensures [x] + (a + b) == ([x] + a) + b
  {
  }

  lemma {:induction false} RaiseNone(es: seq<Entry>)
    requires forall i :: 0 <= i < |es| ==> es[i].leaf != 0
    ensures RaiseMaxLeaf(es) == es
  {
    if es != [] {
      RaiseNone(es[1..]);
    }
  }

  lemma {:induction false} RaiseTwice(es: seq<Entry>)
    ensures RaiseMaxLeaf(RaiseMaxLeaf(es)) == RaiseMaxLeaf(es)
  {
    if es != [] {
      RaiseTwice(es[1..]);
      assert RaiseMaxLeaf(es)[1..] == if es[0].leaf == 0 then es[1..] else RaiseMaxLeaf(es[1..]);
    }
  }

  lemma {:induction false} RaiseRewrite(es: seq<Entry>, rw: Entry -> Entry)
    requires Tame(rw)
    ensures RaiseMaxLeaf(RewriteAll(es, rw)) == RewriteAll(RaiseMaxLeaf(es), rw)
  {
    if es != [] {
      RaiseRewrite(es[1..], rw);
      assert RewriteAll(es, rw)[1..] == RewriteAll(es[1..], rw);
      if es[0].leaf == 0 {
        assert RaiseMaxLeaf(es)[1..] == es[1..];
      } else {
        assert RaiseMaxLeaf(es)[1..] == RaiseMaxLeaf(es[1..]);
      }
    }
  }

  lemma {:induction false} RaiseWithout(es: seq<Entry>, leaf: u32)
    requires leaf != 0
    ensures RaiseMaxLeaf(Without(es, leaf)) == Without(RaiseMaxLeaf(es), leaf)
  {
    if es != [] {
      RaiseWithout(es[1..], leaf);
      if es[0].leaf == 0 {
        assert Without(es, leaf)[1..] == Without(es[1..], leaf);
        assert RaiseMaxLeaf(es)[1..] == es[1..];
      } else {
        assert RaiseMaxLeaf(es)[1..] == RaiseMaxLeaf(es[1..]);
        if es[0].leaf != leaf {
          assert Without(es, leaf)[1..] == Without(es[1..], leaf);
        }
      }
    }
  }

  /** A list the whole rewrite will leave alone up to mirroring. */
  predicate Settled(es: seq<Entry>, rw: Entry -> Entry) {
    RaiseMaxLeaf(es) == es && Has(es, 0xb, 0) && Has(es, 0xb, 1) && RewriteAll(es, rw) == es
  }

  lemma PreparedSettled(es: seq<Entry>, rw: Entry -> Entry)
    requires Tame(rw)
    ensures Settled(RewriteAll(Prepared(es), rw), rw)
  {
    var a := RaiseMaxLeaf(es);
    var b := EnsureSubleaf(a, 0xb, 0);
    var c := EnsureSubleaf(b, 0xb, 1);
    RaiseTwice(es);
    RaiseConcat(a, [Entry(0xb, 0, Regs(SIGNIFICANT_INDEX, 0, 0, 0, 0))]);
    RaiseConcat(b, [Entry(0xb, 1, Regs(SIGNIFICANT_INDEX, 0, 0, 0, 0))]);
    EnsureHas(a, 0xb, 0);
    EnsureHas(b, 0xb, 1);
    EnsureKeeps(b, 0xb, 1, 0xb, 0);
    RaiseRewrite(c, rw);
    RewriteAllTwice(c, rw);
    RewriteHas(c, 0xb, 0, rw);
    RewriteHas(c, 0xb, 1, rw);
  }

  lemma EnsureHas(es: seq<Entry>, leaf: u32, index: bv32)
    ensures Has(EnsureSubleaf(es, leaf, index), leaf, index)
  {
    var r := EnsureSubleaf(es, leaf, index);
    if !Has(es, leaf, index) {
      assert r[|es|].leaf == leaf && r[|es|].index == index;
    }
  }

  lemma EnsureKeeps(es: seq<Entry>, leaf: u32, index: bv32, leaf': u32, index': bv32)
    requires Has(es, leaf', index')
    ensures Has(EnsureSubleaf(es, leaf, index), leaf', index')
  {
    var i :| 0 <= i < |es| && es[i].leaf == leaf' && es[i].index == index';
    assert EnsureSubleaf(es, leaf, index)[i] == es[i];
  }

  lemma RewriteHas(es: seq<Entry>, leaf: u32, index: bv32, rw: Entry -> Entry)
    requires Tame(rw)
    requires Has(es, leaf, index)
    ensures Has(RewriteAll(es, rw), leaf, index)
  {
    var i :| 0 <= i < |es| && es[i].leaf == leaf && es[i].index == index;
    assert RewriteAll(es, rw)[i].leaf == leaf && RewriteAll(es, rw)[i].index == index;
  }

  lemma WithoutHas(es: seq<Entry>, leaf: u32, index: bv32, tail: seq<Entry>)
    requires Has(es, leaf, index) && leaf != 0x1f
    ensures Has(Without(es, 0x1f) + tail, leaf, index)
  {
    WithoutMembers(es, 0x1f);
    var i :| 0 <= i < |es| && es[i].leaf == leaf && es[i].index == index;
    var w := Without(es, 0x1f);
    assert es[i] in w;
    var j :| 0 <= j < |w| && w[j] == es[i];
    assert (w + tail)[j] == es[i];
  }

  /** Mirroring keeps a settled list settled, and mirroring again changes nothing. */
  lemma MirrorSettled(es: seq<Entry>, rw: Entry -> Entry)
    requires Tame(rw)
    requires Settled(es, rw)
    ensures Settled(Mirror(es), rw)
    ensures Mirror(Mirror(es)) == Mirror(es)
  {
    if HasLeaf(es, 0x1f) {
      var w := Without(es, 0x1f);
      var b := Only(es, 0xb);
      var t := Retag(b, 0x1f);
      var r := w + t;
      RaiseWithout(es, 0x1f);
      RaiseConcat(w, t);
      WithoutHas(es, 0xb, 0, t);
      WithoutHas(es, 0xb, 1, t);
      RewriteWithout(es, 0x1f, rw);
      RewriteAllConcat(w, t, rw);
      assert RewriteAll(t, rw) == t;
      WithoutConcat(w, t, 0x1f);
      OnlyConcat(w, t, 0xb);
      WithoutAgain(es, 0x1f, 0xb);
      WithoutAll(t, 0x1f);
      assert Without(r, 0x1f) == w && Only(r, 0xb) == b;
    }
  }

  /** `apply_cpu_topology` is idempotent on every entry list. */
  lemma TopologyTwice(es: seq<Entry>, rw: Entry -> Entry)
    requires Tame(rw)
    ensures Topology(Topology(es, rw), rw) == Topology(es, rw)
  {
    PreparedSettled(es, rw);
    MirrorSettled(RewriteAll(Prepared(es), rw), rw);
  }

  /** Both levels of leaf 0xB are there, and leaf 0x1F is absent or its exact copy, in order. */
  lemma TopologyLeaves(es: seq<Entry>, rw: Entry -> Entry)
    requires Tame(rw)
    ensures var r := Topology(es, rw);
            && Has(r, 0xb, 0) && Has(r, 0xb, 1)
            && (HasLeaf(es, 0x1f) ==> Only(r, 0x1f) == Retag(Only(r, 0xb), 0x1f))
            && (!HasLeaf(es, 0x1f) ==> Only(r, 0x1f) == [])
  {
    var t := RewriteAll(Prepared(es), rw);
    PreparedSettled(es, rw);
    MirrorSettled(t, rw);
    PreparedLeaf(es, rw);
    if HasLeaf(t, 0x1f) {
      var w, c := Without(t, 0x1f), Retag(Only(t, 0xb), 0x1f);
      OnlyConcat(w, c, 0x1f);
      OnlyConcat(w, c, 0xb);
      WithoutAgain(t, 0x1f, 0xb);
      WithoutAll(c, 0x1f);
      OnlyNone(w, 0x1f) by { WithoutMembers(t, 0x1f); }
      OnlyAll(c, 0x1f);
    } else {
      OnlyNone(t, 0x1f);
    }
  }

  lemma PreparedLeaf(es: seq<Entry>, rw: Entry -> Entry)
    requires Tame(rw)
    ensures HasLeaf(RewriteAll(Prepared(es), rw), 0x1f) <==> HasLeaf(es, 0x1f)
  {
    var p := Prepared(es);
    var t := RewriteAll(p, rw);
    PreparedTail(es);
    assert forall i :: 0 <= i < |es| ==> p[i] == RaiseMaxLeaf(es)[i];
    assert forall i :: 0 <= i < |t| ==> t[i].leaf == p[i].leaf;
    if i :| 0 <= i < |es| && es[i].leaf == 0x1f {
      assert t[i].leaf == 0x1f;
    }
  }

  lemma {:induction false} OnlyNone(es: seq<Entry>, leaf: u32)
    requires forall i :: 0 <= i < |es| ==> es[i].leaf != leaf
    ensures Only(es, leaf) == []
  {
    if es != [] {
      OnlyNone(es[1..], leaf);
    }
  }

  lemma {:induction false} OnlyAll(es: seq<Entry>, leaf: u32)
    requires forall i :: 0 <= i < |es| ==> es[i].leaf == leaf
    ensures Only(es, leaf) == es
  {
    if es != [] {
      OnlyAll(es[1..], leaf);
    }
  }

  /** Entries of other leaves keep their order; each is rewritten in place. */
  lemma TopologyKeepsOthers(es: seq<Entry>, rw: Entry -> Entry)
    requires Tame(rw)
    ensures Without(Without(Topology(es, rw), 0x1f), 0xb) ==
            RewriteAll(Without(Without(RaiseMaxLeaf(es), 0x1f), 0xb), rw)
  {
    var a := RaiseMaxLeaf(es);
    var tail := Prepared(es)[|a|..];
    PreparedTail(es);
    RewriteAllConcat(a, tail, rw);
    OthersConcat(RewriteAll(a, rw), RewriteAll(tail, rw));
    RewriteCommutes(a, 0x1f, rw);
    RewriteCommutes(Without(a, 0x1f), 0xb, rw);
    MirrorKeepsOthers(RewriteAll(Prepared(es), rw));
  }

  lemma PreparedTail(es: seq<Entry>)
    ensures var a := RaiseMaxLeaf(es);
            && a <= Prepared(es) && Prepared(es) == a + Prepared(es)[|a|..]
            && forall i :: |a| <= i < |Prepared(es)| ==> Prepared(es)[i].leaf == 0xb
  {
  }

  lemma OthersConcat(a: seq<Entry>, tail: seq<Entry>)
    requires forall i :: 0 <= i < |tail| ==> tail[i].leaf == 0xb
    ensures Without(Without(a + tail, 0x1f), 0xb) == Without(Without(a, 0x1f), 0xb)
  {
    WithoutNone(tail, 0x1f);
    WithoutConcat(a, tail, 0x1f);
    WithoutConcat(Without(a, 0x1f), tail, 0xb);
    WithoutAll(tail, 0xb);
  }

  lemma {:induction false} WithoutNone(es: seq<Entry>, leaf: u32)
    requires forall i :: 0 <= i < |es| ==> es[i].leaf != leaf
    ensures Without(es, leaf) == es
  {
    if es != [] {
      WithoutNone(es[1..], leaf);
    }
  }

  lemma MirrorKeepsOthers(t: seq<Entry>)
    ensures Without(Mirror(t), 0x1f) == Without(t, 0x1f)
  {
    if HasLeaf(t, 0x1f) {
      var c := Retag(Only(t, 0xb), 0x1f);
      WithoutConcat(Without(t, 0x1f), c, 0x1f);
      WithoutAgain(t, 0x1f, 0xb);
      WithoutAll(c, 0x1f);
    }
  }

  lemma {:induction false} RewriteCommutes(es: seq<Entry>, leaf: u32, rw: Entry -> Entry)
    requires Tame(rw)
    ensures Without(RewriteAll(es, rw), leaf) == RewriteAll(Without(es, leaf), rw)
  {
    if es != [] {
      RewriteCommutes(es[1..], leaf, rw);
      assert RewriteAll(es, rw)[1..] == RewriteAll(es[1..], rw);
    }
  }

  // ---- the rewrite as installed for one vCPU ----

  /** `apply_cpu_topology`. */
  function Applied(es: seq<Entry>, id: bv32, n: bv32): seq<Entry> {
    Topology(es, Rewriter(id, n))
  }

  /** Idempotent; leaf 0xB complete; leaf 0x1F its exact copy; leaves it has no business with untouched and in order. */
  lemma AppliedLaws(es: seq<Entry>, id: bv32, n: bv32)
    ensures var r := Applied(es, id, n);
            && Applied(r, id, n) == r
            && Has(r, 0xb, 0) && Has(r, 0xb, 1)
            && Only(r, 0x1f) == (if HasLeaf(es, 0x1f) then Retag(Only(r, 0xb), 0x1f) else [])
            && Without(Without(r, 0x1f), 0xb) ==
               RewriteAll(Without(Without(RaiseMaxLeaf(es), 0x1f), 0xb), Rewriter(id, n))
            && Spared(r) == Spared(es)
  {
    RewriteTame(id, n);
    TopologyTwice(es, Rewriter(id, n));
    TopologyLeaves(es, Rewriter(id, n));
    TopologyKeepsOthers(es, Rewriter(id, n));
    AppliedSpares(es, id, n);
  }

  // ---- entry by entry, on the bits ----

  /** The entries of other leaves than 0xB and 0x1F. */
  function Rest(es: seq<Entry>): seq<Entry> {
    Without(Without(es, 0x1f), 0xb)
  }

  /** The leaves the rewrite has business with. */
  predicate Concerned(leaf: u32) {
    leaf in {0, 0x1, 0x4, 0xb, 0x1f, 0x8000_0008, 0x8000_001e}
  }

  /** Leaf 1, EBX: the brand index stays; CLFLUSH size, processor count and initial APIC ID above it. */
  predicate IdsOk(ebx: bv32, ebx': bv32, count: bv32, id: bv32) {
    && ebx' & 0xff == ebx & 0xff
    && (ebx' >> 8) & 0xff == 8 && (ebx' >> 16) & 0xff == count && ebx' >> 24 == id
  }

  /** Leaf 1, ECX: the hypervisor bit. */
  predicate HypervisorOk(ecx: bv32, ecx': bv32) {
    ecx' & 0x7fff_ffff == ecx & 0x7fff_ffff && ecx' >> 31 == 1
  }

  /** Leaf 1, EDX: the HTT bit. */
  predicate HttOk(edx: bv32, edx': bv32, on: bool) {
    edx' & 0xefff_ffff == edx & 0xefff_ffff && (edx' >> 28) & 1 == if on then 1 else 0
  }

  /** Leaf 4, EAX: the two counts from bit 14 on. */
  predicate SharingOk(eax: bv32, eax': bv32, share: bv32, cores: bv32) {
    eax' & 0x3fff == eax & 0x3fff && (eax' >> 14) & 0xfff == share && eax' >> 26 == cores
  }

  /** Leaf 0x8000_0008, ECX: core count and APIC ID size. */
  predicate SizesOk(ecx: bv32, ecx': bv32, cores: bv32) {
    ecx' & 0xff == cores && (ecx' >> 12) & 0xf == 5 && ecx' & 0xffff_0f00 == ecx & 0xffff_0f00
  }

  predicate FeaturesOk(r: Regs, r': Regs, id: bv32, n: bv32) {
    && r'.eax == r.eax && IdsOk(r.ebx, r'.ebx, MaxLogicalProcessors(n), id)
    && HypervisorOk(r.ecx, r'.ecx) && HttOk(r.edx, r'.edx, n > 1)
  }

  /** Leaf 4: a cache of level 1, 2 or 3; any other subleaf stays. */
  predicate CacheOk(r: Regs, r': Regs, n: bv32) {
    var level := (r.eax >> 5) & 7;
    if level == 1 || level == 2 || level == 3 then
      && SharingOk(r.eax, r'.eax, if level == 3 then n - 1 else 0, n - 1)
      && r'.ebx == r.ebx && r'.ecx == r.ecx && r'.edx == r.edx
    else r' == r
  }

  /** What the rewrite may make of entry `e`; `first` says that no entry of leaf 0 comes before it. */
  predicate EntryOk(e: Entry, e': Entry, first: bool, id: bv32, n: bv32) {
    && e'.leaf == e.leaf && e'.index == e.index && e'.regs.flags == e.regs.flags
    && if e.leaf == 0 then
         e'.regs == e.regs.(eax := if first && e.regs.eax < 0xb then 0xb else e.regs.eax)
       else if e.leaf == 0x1 then FeaturesOk(e.regs, e'.regs, id, n)
       else if e.leaf == 0x4 then CacheOk(e.regs, e'.regs, n)
       else if e.leaf == 0x8000_0008 then
         && e'.regs.eax == e.regs.eax && e'.regs.ebx == e.regs.ebx && e'.regs.edx == e.regs.edx
         && SizesOk(e.regs.ecx, e'.regs.ecx, n - 1)
       else if e.leaf == 0x8000_001e then
         e'.regs.eax == id && e'.regs.ebx == id && e'.regs.ecx == 0 && e'.regs.edx == e.regs.edx
       else e' == e
  }

  predicate NoLeaf0(es: seq<Entry>, k: nat)
    requires k <= |es|
  {
    forall j :: 0 <= j < k ==> es[j].leaf != 0
  }

  /** Position by position. */
  predicate EntriesOk(es: seq<Entry>, r: seq<Entry>, id: bv32, n: bv32) {
    && |r| == |es|
    && forall i :: 0 <= i < |es| ==> EntryOk(es[i], r[i], NoLeaf0(es, i), id, n)
  }

  lemma IdsBits(ebx: bv32, count: bv32, id: bv32)
    requires id < 32 && count <= 32
    ensures IdsOk(ebx, FeatureEbx(ebx, count, id), count, id)
  {
    FeatureEbxFields(ebx, count, id);
    BrandStays(ebx, count, id);
  }

  lemma BrandStays(ebx: bv32, count: bv32, id: bv32)
    ensures FeatureEbx(ebx, count, id) & 0xff == ebx & 0xff
  {
  }

  lemma HypervisorBits(ecx: bv32)
    ensures HypervisorOk(ecx, Hypervisor(ecx))
  {
  }

  lemma HttBits(edx: bv32, on: bool)
    ensures HttOk(edx, Htt(edx, on), on)
  {
  }

  lemma FeatureBits(r: Regs, id: bv32, n: bv32)
    requires id < 32 && MaxLogicalProcessors(n) <= 32
    ensures FeaturesOk(r, RewriteFeatures(r, id, n), id, n)
  {
    IdsBits(r.ebx, MaxLogicalProcessors(n), id);
    HypervisorBits(r.ecx);
    HttBits(r.edx, n > 1);
  }

  lemma SharingBits(eax: bv32, share: bv32, cores: bv32)
    requires share < 32 && cores < 32
    ensures SharingOk(eax, CacheEax(eax, share, cores), share, cores)
  {
    CacheEaxFields(eax, share, cores);
  }

  lemma CacheBits(r: Regs, n: bv32, level: bv32, cores: bv32)
    requires level == CacheLevel(r.eax) && Less1(n) == cores == n - 1 < 32
    ensures CacheOk(r, RewriteCache(r, n), n)
  {
    if r.eax | r.ebx | r.ecx | r.edx == 0 {
      ZeroLevel(r.eax, r.ebx, r.ecx, r.edx);
    }
    SharingBits(r.eax, if level == 3 then cores else 0, cores);
  }

  lemma SizesBits(ecx: bv32, cores: bv32)
    requires cores < 32
    ensures SizesOk(ecx, AmdEcx(ecx, cores), cores)
  {
  }

  lemma SmallCount(n: bv32)
    requires 1 <= n <= MAX_VCPUS
    ensures Less1(n) == n - 1 < 32
  {
  }

  lemma ExtendedId(id: bv32)
    ensures id | (Less1(THREADS_PER_CORE) << 8) == id
  {
  }

  lemma RewriteOk(e: Entry, first: bool, id: bv32, n: bv32)
    requires id < n <= MAX_VCPUS && e.leaf != 0 && e.leaf != 0xb && e.leaf != 0x1f
    ensures EntryOk(e, Rewrite(e, id, n), first, id, n)
  {
    if e.leaf == 0x1 {
      FeatureEntryOk(e, first, id, n);
    } else if e.leaf == 0x4 {
      IntelCacheOk(e, first, id, n);
    } else if e.leaf == 0x8000_0008 || e.leaf == 0x8000_001e {
      AmdOk(e, first, id, n);
    }
  }

  lemma MaxLeafOk(e: Entry, e': Entry, first: bool, id: bv32, n: bv32)
    requires e.leaf == 0 && e' == if first then Raised(e) else e
    ensures EntryOk(e, Rewrite(e', id, n), first, id, n)
  {
    LeafZeroStays(e', id, n);
  }

  lemma LeafZeroStays(e: Entry, id: bv32, n: bv32)
    requires e.leaf == 0
    ensures Rewrite(e, id, n) == e
  {
  }

  lemma FeatureEntryOk(e: Entry, first: bool, id: bv32, n: bv32)
    requires id < n <= MAX_VCPUS && e.leaf == 0x1
    ensures EntryOk(e, Rewrite(e, id, n), first, id, n)
  {
    SmallIds(id, n);
    FeatureBits(e.regs, id, n);
  }

  lemma IntelCacheOk(e: Entry, first: bool, id: bv32, n: bv32)
    requires id < n <= MAX_VCPUS && e.leaf == 0x4
    ensures EntryOk(e, Rewrite(e, id, n), first, id, n)
  {
    SmallCount(n);
    CacheBits(e.regs, n, CacheLevel(e.regs.eax), n - 1);
    CacheKeepsFlags(e.regs, n);
  }

  lemma CacheKeepsFlags(r: Regs, n: bv32)
    ensures RewriteCache(r, n).flags == r.flags
  {
  }

  lemma AmdOk(e: Entry, first: bool, id: bv32, n: bv32)
    requires id < n <= MAX_VCPUS && (e.leaf == 0x8000_0008 || e.leaf == 0x8000_001e)
    ensures EntryOk(e, Rewrite(e, id, n), first, id, n)
  {
    SmallCount(n);
    SizesBits(e.regs.ecx, n - 1);
    ExtendedId(id);
  }

  /** The place of the first entry of leaf 0. */
  function FirstZero(es: seq<Entry>): (k: nat)
    ensures k <= |es| && NoLeaf0(es, k) && (k < |es| ==> es[k].leaf == 0)
  {
    if es == [] || es[0].leaf == 0 then 0 else 1 + FirstZero(es[1..])
  }

  lemma RaiseEach(es: seq<Entry>, i: nat)
    requires i < |es|
    ensures RaiseMaxLeaf(es)[i] == if es[i].leaf == 0 && NoLeaf0(es, i) then Raised(es[i]) else es[i]
  {
    var k := FirstZero(es);
    RaiseAt(es, k, if k < |es| then Raised(es[k]) else es[i]);
  }

  lemma {:induction false} RaiseAt(es: seq<Entry>, k: nat, e: Entry)
    requires k <= |es| && NoLeaf0(es, k) && (k < |es| ==> es[k].leaf == 0 && e == Raised(es[k]))
    ensures RaiseMaxLeaf(es) == if k < |es| then es[k := e] else es
  {
    if es != [] && k > 0 {
      assert NoLeaf0(es[1..], k - 1);
      RaiseAt(es[1..], k - 1, e);
      if k < |es| {
        ConsUpdate(es, k, e);
      }
    }
  }

  lemma ConsUpdate(es: seq<Entry>, k: nat, e: Entry)
    requires 0 < k < |es|
    ensures [es[0]] + es[1..][k - 1 := e] == es[k := e]
  {
  }

  /**
   The entries outside leaves 0xB and 0x1F stay in place and in order, each as the rewrite may make it: of the leaves
   it has no business with nothing changes, of the others only the bits that state the topology.
   */
  lemma AppliedEntries(es: seq<Entry>, id: bv32, n: bv32)
    requires id < n <= MAX_VCPUS
    ensures EntriesOk(Rest(es), Rest(Applied(es, id, n)), id, n)
  {
    var rw, a := Rewriter(id, n), Rest(es);
    RewriteTame(id, n);
    TopologyKeepsOthers(es, rw);
    RaiseWithout(es, 0x1f);
    RaiseWithout(Without(es, 0x1f), 0xb);
    assert Rest(Applied(es, id, n)) == RewriteAll(RaiseMaxLeaf(a), rw);
    WithoutMembers(Without(es, 0x1f), 0xb);
    WithoutMembers(es, 0x1f);
    forall i | 0 <= i < |a| ensures EntryOk(a[i], rw(RaiseMaxLeaf(a)[i]), NoLeaf0(a, i), id, n) {
      assert a[i] in a;
      RaiseEach(a, i);
      if a[i].leaf == 0 {
        MaxLeafOk(a[i], RaiseMaxLeaf(a)[i], NoLeaf0(a, i), id, n);
      } else {
        RewriteOk(a[i], NoLeaf0(a, i), id, n);
      }
    }
  }

  /** Leaf 0xB: the subleaves there were, in order, then those of levels 0 and 1 that were missing. */
  function Indices(es: seq<Entry>): (r: seq<bv32>)
    ensures |r| == |es| && forall i :: 0 <= i < |es| ==> r[i] == es[i].index
  {
    seq(|es|, i requires 0 <= i < |es| => es[i].index)
  }

  function Missing(es: seq<Entry>): seq<bv32> {
    (if Has(es, 0xb, 0) then [] else [0]) + (if Has(es, 0xb, 1) then [] else [1])
  }

  lemma LevelEntries(es: seq<Entry>, id: bv32, n: bv32)
    requires n <= MAX_VCPUS
    ensures var r := Only(Applied(es, id, n), 0xb);
            && Indices(r) == Indices(Only(es, 0xb)) + Missing(es)
            && forall i :: 0 <= i < |r| ==>
                 r[i].regs.flags == SIGNIFICANT_INDEX && r[i].regs.edx == id && LevelOk(r[i].index, r[i].regs, n)
  {
    var rw := Rewriter(id, n);
    var p := Prepared(es);
    RewriteTame(id, n);
    MirrorLevels(RewriteAll(p, rw));
    RewriteOnly(p, 0xb, rw);
    PreparedLevels(es);
    WithoutMembers(p, 0xb);
    var o := Only(p, 0xb);
    forall i | 0 <= i < |o|
      ensures var e := rw(o[i]);
              e.regs.flags == SIGNIFICANT_INDEX && e.regs.edx == id && LevelOk(e.index, e.regs, n)
    {
      assert o[i] in o;
      LevelFields(o[i].index, id, n);
    }
  }

  lemma MirrorLevels(t: seq<Entry>)
    ensures Only(Mirror(t), 0xb) == Only(t, 0xb)
  {
    if HasLeaf(t, 0x1f) {
      var c := Retag(Only(t, 0xb), 0x1f);
      OnlyConcat(Without(t, 0x1f), c, 0xb);
      WithoutAgain(t, 0x1f, 0xb);
      WithoutAll(c, 0x1f);
    }
  }

  lemma {:induction false} RewriteOnly(es: seq<Entry>, leaf: u32, rw: Entry -> Entry)
    requires Tame(rw)
    ensures Only(RewriteAll(es, rw), leaf) == RewriteAll(Only(es, leaf), rw)
  {
    if es != [] {
      RewriteOnly(es[1..], leaf, rw);
      assert RewriteAll(es, rw)[1..] == RewriteAll(es[1..], rw);
    }
  }

  lemma PreparedLevels(es: seq<Entry>)
    ensures Indices(Only(Prepared(es), 0xb)) == Indices(Only(es, 0xb)) + Missing(es)
  {
    var a := RaiseMaxLeaf(es);
    var b := EnsureSubleaf(a, 0xb, 0);
    RaiseOnly(es);
    EnsureIndices(a, 0);
    EnsureIndices(b, 1);
    RaiseHas(es, 0);
    RaiseHas(es, 1);
    EnsureOther(a, 0, 1);
    assert Indices(Only(es, 0xb)) + ([] + []) == Indices(Only(es, 0xb)) + [] + [];
  }

  lemma {:induction false} RaiseOnly(es: seq<Entry>)
    ensures Only(RaiseMaxLeaf(es), 0xb) == Only(es, 0xb)
  {
    if es != [] && es[0].leaf != 0 {
      RaiseOnly(es[1..]);
      assert RaiseMaxLeaf(es)[1..] == RaiseMaxLeaf(es[1..]);
    } else if es != [] {
      assert RaiseMaxLeaf(es)[1..] == es[1..];
    }
  }

  lemma RaiseHas(es: seq<Entry>, index: bv32)
    ensures Has(RaiseMaxLeaf(es), 0xb, index) <==> Has(es, 0xb, index)
  {
    var a := RaiseMaxLeaf(es);
    if i :| 0 <= i < |es| && es[i].leaf == 0xb && es[i].index == index {
      assert a[i].leaf == 0xb && a[i].index == index;
    }
  }

  lemma EnsureOther(es: seq<Entry>, index: bv32, other: bv32)
    requires index != other
    ensures Has(EnsureSubleaf(es, 0xb, index), 0xb, other) <==> Has(es, 0xb, other)
  {
    if Has(es, 0xb, other) {
      EnsureKeeps(es, 0xb, index, 0xb, other);
    }
  }

  lemma EnsureIndices(es: seq<Entry>, index: bv32)
    ensures Indices(Only(EnsureSubleaf(es, 0xb, index), 0xb))
            == Indices(Only(es, 0xb)) + if Has(es, 0xb, index) then [] else [index]
  {
    if Has(es, 0xb, index) {
      assert Indices(Only(es, 0xb)) + [] == Indices(Only(es, 0xb));
    } else {
      var e := Entry(0xb, index, Regs(SIGNIFICANT_INDEX, 0, 0, 0, 0));
      OnlyConcat(es, [e], 0xb);
      OnlyAll([e], 0xb);
    }
  }

  /** The entries of the leaves the rewrite has no business with. */
  function Spared(es: seq<Entry>): seq<Entry> {
    if es == [] then []
    else if Concerned(es[0].leaf) then Spared(es[1..])
    else [es[0]] + Spared(es[1..])
  }

  /** They are exactly those of the input, in order, for every vCPU count. */
  lemma AppliedSpares(es: seq<Entry>, id: bv32, n: bv32)
    ensures Spared(Applied(es, id, n)) == Spared(es)
  {
    var rw := Rewriter(id, n);
    RewriteTame(id, n);
    TopologyKeepsOthers(es, rw);
    SparedRest(es);
    SparedRest(Applied(es, id, n));
    RaiseWithout(es, 0x1f);
    RaiseWithout(Without(es, 0x1f), 0xb);
    var a := RaiseMaxLeaf(Rest(es));
    RaiseSpares(Rest(es));
    RewriteSpares(a, id, n);
  }

  lemma RaiseSpares(es: seq<Entry>)
    ensures Spared(RaiseMaxLeaf(es)) == Spared(es)
  {
    forall i | 0 <= i < |es| ensures Concerned(es[i].leaf) || RaiseMaxLeaf(es)[i] == es[i] {
      RaiseEach(es, i);
    }
    SparedSame(es, RaiseMaxLeaf(es));
  }

  lemma RewriteSpares(es: seq<Entry>, id: bv32, n: bv32)
    ensures Spared(RewriteAll(es, Rewriter(id, n))) == Spared(es)
  {
    var r := RewriteAll(es, Rewriter(id, n));
    forall i | 0 <= i < |es| ensures r[i].leaf == es[i].leaf && (Concerned(es[i].leaf) || r[i] == es[i]) {
      assert r[i] == Rewrite(es[i], id, n);
    }
    SparedSame(es, r);
  }

  lemma {:induction false} SparedWithout(es: seq<Entry>, leaf: u32)
    requires Concerned(leaf)
    ensures Spared(Without(es, leaf)) == Spared(es)
  {
    if es != [] {
      SparedWithout(es[1..], leaf);
      if es[0].leaf != leaf {
        assert Without(es, leaf)[1..] == Without(es[1..], leaf);
      }
    }
  }

  lemma SparedRest(es: seq<Entry>)
    ensures Spared(Rest(es)) == Spared(es)
  {
    SparedWithout(es, 0x1f);
    SparedWithout(Without(es, 0x1f), 0xb);
  }

  lemma {:induction false} SparedSame(a: seq<Entry>, b: seq<Entry>)
    requires |a| == |b|
    requires forall i :: 0 <= i < |a| ==> b[i].leaf == a[i].leaf && (Concerned(a[i].leaf) || b[i] == a[i])
    ensures Spared(a) == Spared(b)
  {
    if a != [] {
      SparedSame(a[1..], b[1..]);
    }
  }

  /** Every entry of the result outside leaf 0x1F is the rewrite of some entry. */
  lemma AppliedOrigin(es: seq<Entry>, id: bv32, n: bv32, e: Entry) returns (o: Entry)
    requires e in Applied(es, id, n) && e.leaf != 0x1f
    ensures e == Rewrite(o, id, n) && o.leaf == e.leaf && o.index == e.index
  {
    var rw := Rewriter(id, n);
    var t := RewriteAll(Prepared(es), rw);
    WithoutMembers(t, 0x1f);
    assert e in t by { MirrorMember(t, e); }
    var i :| 0 <= i < |t| && t[i] == e;
    o := Prepared(es)[i];
  }

  lemma MirrorMember(t: seq<Entry>, e: Entry)
    requires e in Mirror(t) && e.leaf != 0x1f
    ensures e in t
  {
    WithoutMembers(t, 0x1f);
  }

  /**
   Leaf 1 and leaf 0xB report the same APIC ID, it fits below the package shift leaf 0xB announces, and
   the processor counts agree with it.
   */
  lemma ApicIdsAgree(es: seq<Entry>, id: bv32, n: bv32, e: Entry)
    requires id < n <= MAX_VCPUS && e in Applied(es, id, n)
    ensures e.leaf == 0x1 ==> e.regs.ebx >> 24 == id && (e.regs.ebx >> 16) & 0xff == MaxLogicalProcessors(n)
    ensures e.leaf == 0x1 ==> (e.regs.edx & 0x1000_0000 != 0 <==> n > 1)
    ensures e.leaf == 0x1 ==> (e.regs.ebx >> 8) & 0xff == 8 && e.regs.ecx & 0x8000_0000 != 0
    ensures e.leaf == 0xb ==> e.regs.edx == id && LevelOk(e.index, e.regs, n)
    ensures id >> 5 == 0 && id < MaxLogicalProcessors(n)
  {
    SmallIds(id, n);
    if e.leaf == 0x1 {
      var o := AppliedOrigin(es, id, n, e);
      FeatureEbxFields(o.regs.ebx, MaxLogicalProcessors(n), id);
      HttTwice(o.regs.edx, n > 1);
      HypervisorTwice(o.regs.ecx);
      assert e.regs == RewriteFeatures(o.regs, id, n);
    } else if e.leaf == 0xb {
      var o := AppliedOrigin(es, id, n, e);
      LevelFields(o.index, id, n);
      assert e.regs == RewriteLevels(o.index, id, n);
    }
  }

  lemma SmallIds(id: bv32, n: bv32)
    requires id < n <= MAX_VCPUS
    ensures id < 32 && id >> 5 == 0 && id < MaxLogicalProcessors(n) <= 32
  {
  }

  /** Level 0 is one thread per core, level 1 is n cores in the package, further levels are empty. */
  predicate LevelOk(index: bv32, r: Regs, n: bv32) {
    if index == 0 then r.eax == 0 && r.ebx == 1 && r.ecx >> 8 == 1
    else if index == 1 then r.eax == PACKAGE_SHIFT && r.ebx == n && r.ecx >> 8 == 2 && r.ecx & 0xff == index
    else r.eax == 0 && r.ebx == 0 && r.ecx == index
  }

  lemma LevelFields(index: bv32, id: bv32, n: bv32)
    requires n <= MAX_VCPUS
    ensures var r := RewriteLevels(index, id, n); r.edx == id && LevelOk(index, r, n)
  {
  }

  /** Cache and AMD leaves describe the same flat package: one thread per core, n cores, the last level shared. */
  lemma OtherLeavesAgree(es: seq<Entry>, id: bv32, n: bv32, e: Entry)
    requires 1 <= n <= MAX_VCPUS && e in Applied(es, id, n)
    ensures e.leaf == 0x4 ==> CacheFields(e.regs, n)
    ensures e.leaf == 0x8000_0008 ==> AmdFields(e.regs, n)
    ensures e.leaf == 0x8000_001e ==> e.regs.eax == id && e.regs.ecx == 0
  {
    if e.leaf == 0x4 {
      var o := AppliedOrigin(es, id, n, e);
      CacheEntryFields(o.regs, n);
    } else if e.leaf == 0x8000_0008 {
      var o := AppliedOrigin(es, id, n, e);
      AmdEcxFields(o.regs.ecx, n - 1);
    } else if e.leaf == 0x8000_001e {
      var o := AppliedOrigin(es, id, n, e);
    }
  }

  /** Sharing and core counts of a valid cache subleaf. */
  predicate CacheFields(r: Regs, n: bv32) {
    var level := CacheLevel(r.eax);
    level == 1 || level == 2 || level == 3 ==>
      && (r.eax >> 14) & 0xfff == (if level == 3 then n - 1 else 0)
      && (r.eax >> 26) & 0x3f == n - 1
  }

  predicate AmdFields(r: Regs, n: bv32) {
    r.ecx & 0xff == n - 1 && (r.ecx >> 12) & 0xf == PACKAGE_SHIFT
  }

  lemma AmdEcxFields(ecx: bv32, cores: bv32)
    requires cores < 32
    ensures AmdEcx(ecx, cores) & 0xff == cores && (AmdEcx(ecx, cores) >> 12) & 0xf == PACKAGE_SHIFT
  {
  }

  lemma CacheEaxFields(eax: bv32, share: bv32, cores: bv32)
    requires share < 32 && cores < 32
    ensures (CacheEax(eax, share, cores) >> 14) & 0xfff == share
    ensures (CacheEax(eax, share, cores) >> 26) & 0x3f == cores
  {
  }

  lemma CacheEntryFields(r: Regs, n: bv32)
    requires 1 <= n <= MAX_VCPUS
    ensures CacheFields(RewriteCache(r, n), n)
  {
    var level := CacheLevel(r.eax);
    var share := if level == 3 then n - 1 else 0;
    if r.eax | r.ebx | r.ecx | r.edx == 0 {
      ZeroLevel(r.eax, r.ebx, r.ecx, r.edx);
    }
    CacheEaxLevel(r.eax, share, n - 1);
    CacheEaxFields(r.eax, share, n - 1);
  }

  lemma ZeroLevel(a: bv32, b: bv32, c: bv32, d: bv32)
    requires a | b | c | d == 0
    ensures CacheLevel(a) == 0
  {
  }

  // ---- the loop ----

  /** `ensure_subleaf`. */
  method AddSubleaf(es: seq<Entry>, leaf: u32, index: bv32) returns (r: seq<Entry>)
    ensures r == EnsureSubleaf(es, leaf, index)
    ensures Has(r, leaf, index) && es <= r
  {
    EnsureHas(es, leaf, index);
    r := es;
    if exists i :: 0 <= i < |es| && es[i].leaf == leaf && es[i].index == index {
      return;
    }
    r := r + [Entry(leaf, index, Regs(SIGNIFICANT_INDEX, 0, 0, 0, 0))];
  }

  method RaiseEntries(entries: seq<Entry>) returns (es: seq<Entry>)
    ensures es == RaiseMaxLeaf(entries)
  {
    es := entries;
    var k := 0;
    while k < |es| && es[k].leaf != 0
      invariant 0 <= k <= |es| && forall i :: 0 <= i < k ==> es[i].leaf != 0
    {
      k := k + 1;
    }
    if k < |es| {
      RaiseAt(entries, k, Raised(es[k]));
      if es[k].regs.eax < 0xb {
        es := es[k := es[k].(regs := es[k].regs.(eax := 0xb))];
      }
    } else {
      RaiseNone(entries);
    }
  }

  method RewriteEntries(entries: seq<Entry>, rw: Entry -> Entry) returns (es: seq<Entry>)
    ensures es == RewriteAll(entries, rw)
  {
    es := entries;
    var i := 0;
    while i < |es|
      invariant 0 <= i <= |es| == |entries|
      invariant forall j :: 0 <= j < i ==> es[j] == rw(entries[j])
      invariant forall j :: i <= j < |es| ==> es[j] == entries[j]
    {
      es := es[i := rw(es[i])];
      i := i + 1;
    }
  }

  method MirrorEntries(entries: seq<Entry>) returns (es: seq<Entry>)
    ensures es == Mirror(entries)
  {
    es := entries;
    if exists j :: 0 <= j < |es| && es[j].leaf == 0x1f {
      var topology := Only(es, 0xb);
      es := Without(es, 0x1f);
      var j := 0;
      ghost var kept, copies := es, Retag(topology, 0x1f);
      while j < |topology|
        invariant 0 <= j <= |topology|
        invariant es == kept + copies[..j]
      {
        es := es + [topology[j].(leaf := 0x1f)];
        j := j + 1;
      }
      assert copies[..j] == copies;
    }
  }

  /** `apply_cpu_topology`, pass by pass over the entry list. */
  method ApplyTopology(entries: seq<Entry>, id: bv32, n: bv32) returns (es: seq<Entry>)
    ensures es == Applied(entries, id, n)
    ensures Spared(es) == Spared(entries)
    ensures id < n <= MAX_VCPUS ==> EntriesOk(Rest(entries), Rest(es), id, n)
  {
    AppliedSpares(entries, id, n);
    if id < n <= MAX_VCPUS {
      AppliedEntries(entries, id, n);
    }
    es := RaiseEntries(entries);
    es := AddSubleaf(es, 0xb, 0);
    es := AddSubleaf(es, 0xb, 1);
    es := RewriteEntries(es, Rewriter(id, n));
    es := MirrorEntries(es);
  }
}
