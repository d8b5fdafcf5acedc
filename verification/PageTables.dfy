/** The boot identity map: the tables `setup_identity_map` writes and what a 4-level walk finds in them. */
module PageTables {
  import opened Machine

  const PML4_START: nat := 0x9000
  const PDPT_START: nat := 0xa000
  const PD_TABLES_START: nat := 0xb000
  const CMDLINE_START: nat := 0x2_0000
  const PAGE_SIZE: nat := 0x1000
  const HUGE_PAGE_2M: nat := 0x20_0000
  const PD_ENTRIES: nat := 512
  const PTE_PRESENT_WRITABLE: nat := 0x03
  const PTE_PRESENT_WRITABLE_PS: nat := 0x83
  const GUEST_RAM_END: nat := 0xd000_0000
  const MAX_U64: nat := 0xffff_ffff_ffff_ffff
  /** The span one PML4 entry covers. */
  const LOW_512G: nat := 0x80_0000_0000

  // ---- bitwise or ----

  function BitOr(a: nat, b: nat): nat {
    if a == 0 then b
    else if b == 0 then a
    else (if a % 2 == 1 || b % 2 == 1 then 1 else 0) + 2 * BitOr(a / 2, b / 2)
  }

  function Pow2(k: nat): (p: nat)
    ensures p >= 1
  {
    if k == 0 then 1 else 2 * Pow2(k - 1)
  }

  /** Flags below bit k and an address aligned to 2^k do not interfere. */
  lemma {:induction false} BitOrDisjoint(q: nat, b: nat, k: nat)
    requires b < Pow2(k)
    ensures BitOr(q * Pow2(k), b) == q * Pow2(k) + b
  {
    if k > 0 {
      var h := q * Pow2(k - 1);
      Doubled(q, Pow2(k - 1));
      BitOrDisjoint(q, b / 2, k - 1);
      assert BitOr(2 * h, b) == 2 * h + b;
    }
  }

  lemma Doubled(q: nat, p: nat)
    ensures q * (2 * p) == 2 * (q * p)
  {
  }

  lemma TableFlags(q: nat)
    ensures BitOr(q * PAGE_SIZE, PTE_PRESENT_WRITABLE) == q * PAGE_SIZE + 3
  {
    assert Pow2(12) == PAGE_SIZE by { Pow2Values(); }
    BitOrDisjoint(q, 3, 12);
  }

  lemma HugeFlags(q: nat)
    ensures BitOr(q * HUGE_PAGE_2M, PTE_PRESENT_WRITABLE_PS) == q * HUGE_PAGE_2M + 0x83
  {
    assert Pow2(21) == HUGE_PAGE_2M by { Pow2Values(); }
    BitOrDisjoint(q, 0x83, 21);
  }

  lemma Pow2Values()
    ensures Pow2(12) == 0x1000 && Pow2(21) == 0x20_0000
  {
    assert Pow2(4) == 16;
    assert Pow2(8) == 16 * Pow2(4);
    assert Pow2(12) == 16 * Pow2(8);
    assert Pow2(16) == 16 * Pow2(12);
    assert Pow2(20) == 16 * Pow2(16);
  }

  // ---- sizing ----

  function CeilDiv(a: nat, b: nat): nat
    requires b > 0
  {
    (a + b - 1) / b
  }

  /** End of the mapped range: RAM end rounded up to 2 MiB, saturating. */
  function MapEnd(ramEnd: nat): nat {
    Min(CeilDiv(ramEnd, HUGE_PAGE_2M) * HUGE_PAGE_2M, MAX_U64)
  }

  function HugePages(ramEnd: nat): nat {
    MapEnd(ramEnd) / HUGE_PAGE_2M
  }

  function PdCount(ramEnd: nat): nat {
    CeilDiv(HugePages(ramEnd), PD_ENTRIES)
  }

  function TablesEnd(ramEnd: nat): nat {
    PD_TABLES_START + PdCount(ramEnd) * PAGE_SIZE
  }

  /** What `setup_identity_map` checks before writing anything. */
  predicate Accepts(ramEnd: nat) {
    1 <= PdCount(ramEnd) <= PD_ENTRIES && TablesEnd(ramEnd) <= CMDLINE_START
  }

  /** Of the sizes `validate_mem_size` lets through, exactly those too small for the tables are refused. */
  lemma ValidatedSizes(size: nat)
    requires size != 0 && size % 4096 == 0 && size <= GUEST_RAM_END
    ensures Accepts(size)
    ensures TablesEnd(size) <= size <==> size >= PD_TABLES_START + PAGE_SIZE
  {
    var n := HugePages(size);
    assert MapEnd(size) == CeilDiv(size, HUGE_PAGE_2M) * HUGE_PAGE_2M;
    assert 1 <= n <= 1664;
    assert 1 <= PdCount(size) <= 4;
    if size < 0x4000_0000 {
      assert n <= 512 && PdCount(size) == 1;
    }
  }

  // ---- the tables ----

  function PdptEntry(pd: nat, pdCount: nat): nat {
    if pd < pdCount then BitOr(PD_TABLES_START + pd * PAGE_SIZE, PTE_PRESENT_WRITABLE) else 0
  }

  function PdEntry(page: nat, pages: nat): nat {
    if page < pages then BitOr(page * HUGE_PAGE_2M, PTE_PRESENT_WRITABLE_PS) else 0
  }

  const PML4_WORD: nat := PML4_START / 8
  const PDPT_WORD: nat := PDPT_START / 8
  const PD_WORD: nat := PD_TABLES_START / 8

  /** Memory, as 8-byte words, holds the identity map of `pages` huge pages. */
  predicate Tables(words: seq<u64>, pages: nat, pdCount: nat) {
    && 1 <= pdCount <= PD_ENTRIES && pages <= pdCount * PD_ENTRIES
    && PD_WORD + pdCount * PD_ENTRIES <= |words|
    && words[PML4_WORD] == BitOr(PDPT_START, PTE_PRESENT_WRITABLE)
    && (forall i :: 0 <= i < PD_ENTRIES ==> words[PDPT_WORD + i] == PdptEntry(i, pdCount))
    && (forall i :: 0 <= i < pdCount * PD_ENTRIES ==> words[PD_WORD + i] == PdEntry(i, pages))
  }

  // ---- the processor's walk ----

  predicate Present(e: nat) {
    e % 2 == 1
  }

  predicate WriteBit(e: nat) {
    e / 2 % 2 == 1
  }

  predicate UserBit(e: nat) {
    e / 4 % 2 == 1
  }

  /** PWT and PCD, which select the memory type together with PAT. */
  predicate CacheBits(e: nat) {
    e / 8 % 4 != 0
  }

  predicate PageSizeBit(e: nat) {
    e / 0x80 % 2 == 1
  }

  /** The PAT bit of a large page. */
  predicate PatBit(e: nat) {
    e / 0x1000 % 2 == 1
  }

  /** Bit 63, reserved while EFER.NXE is clear. */
  predicate TopBit(e: nat) {
    e >= 0x8000_0000_0000_0000
  }

  /** The address field of an entry: bits 51 down to the given page shift. */
  function Frame(e: nat, unit: nat): nat
    requires unit > 0
  {
    e % 0x10_0000_0000_0000 / unit * unit
  }

  function WordAt(words: seq<u64>, addr: nat): nat {
    if addr / 8 < |words| then words[addr / 8] else 0
  }

  /** The entries a translation of `va` reads, level by level. */
  function Pml4e(words: seq<u64>, cr3: nat, va: nat): nat {
    WordAt(words, cr3 + 8 * (va / 0x80_0000_0000 % 512))
  }

  function Pdpte(words: seq<u64>, cr3: nat, va: nat): nat {
    WordAt(words, Frame(Pml4e(words, cr3, va), 0x1000) + 8 * (va / 0x4000_0000 % 512))
  }

  function Pde(words: seq<u64>, cr3: nat, va: nat): nat {
    WordAt(words, Frame(Pdpte(words, cr3, va), 0x1000) + 8 * (va / 0x20_0000 % 512))
  }

  function Pte(words: seq<u64>, cr3: nat, va: nat): nat {
    WordAt(words, Frame(Pde(words, cr3, va), 0x1000) + 8 * (va / 0x1000 % 512))
  }

  /** Where an address leads, and the access rights of section 4.6: writable or user only if every entry says so. */
  datatype Mapping = Mapping(pa: nat, writable: bool, user: bool, cached: bool)

  /** A large page of `size` bytes at the end of a walk; the address bits between PAT and the page are reserved. */
  function LargePage(e: nat, size: nat, va: nat, writable: bool, user: bool): Option<Mapping>
    requires size >= 0x2000
  {
    if e % size / 0x2000 != 0 then None
    else
      Some(Mapping(Frame(e, size) + va % size, writable && WriteBit(e), user && UserBit(e),
                   !CacheBits(e) && !PatBit(e)))
  }

  /**
   4-level address translation, sections 4.5 and 4.6 of Intel SDM volume 3A, with EFER.NXE clear as at boot; None is a
   page fault, reserved bits included.
   */
  function Walk(words: seq<u64>, cr3: nat, va: nat): Option<Mapping> {
    var e4 := Pml4e(words, cr3, va);
    if !Present(e4) || TopBit(e4) || PageSizeBit(e4) then None
    else
      var e3 := Pdpte(words, cr3, va);
      var w3, u3 := WriteBit(e4) && WriteBit(e3), UserBit(e4) && UserBit(e3);
      if !Present(e3) || TopBit(e3) then None
      else if PageSizeBit(e3) then LargePage(e3, 0x4000_0000, va, WriteBit(e4), UserBit(e4))
      else
        var e2 := Pde(words, cr3, va);
        if !Present(e2) || TopBit(e2) then None
        else if PageSizeBit(e2) then LargePage(e2, 0x20_0000, va, w3, u3)
        else
          var e1 := Pte(words, cr3, va);
          if !Present(e1) || TopBit(e1) then None
          else
            Some(Mapping(Frame(e1, 0x1000) + va % 0x1000, w3 && WriteBit(e2) && WriteBit(e1),
                         u3 && UserBit(e2) && UserBit(e1), !CacheBits(e1) && !PageSizeBit(e1)))
  }

  /** An entry that leads on to a table, writable and for the supervisor. */
  predicate TableEntry(e: nat) {
    Present(e) && WriteBit(e) && !UserBit(e) && !PageSizeBit(e) && !TopBit(e)
  }

  lemma TableBits(q: nat)
    requires q < 0x1000
    ensures TableEntry(q * 0x1000 + 3) && Frame(q * 0x1000 + 3, 0x1000) == q * 0x1000
  {
    var e := q * 0x1000 + 3;
    assert e / 2 == q * 0x800 + 1 && e / 4 == q * 0x400 && e / 0x80 == q * 0x20;
  }

  /** The first two levels lead to directory `va / 1 GiB`, if there is one. */
  lemma WalkUpper(words: seq<u64>, pages: nat, pdCount: nat, va: nat)
    requires Tables(words, pages, pdCount) && va < LOW_512G
    ensures var pd := va / 0x4000_0000;
            var e3 := Pdpte(words, PML4_START, va);
            && TableEntry(Pml4e(words, PML4_START, va))
            && (pd >= pdCount ==> !Present(e3))
            && (pd < pdCount ==> TableEntry(e3) && Frame(e3, 0x1000) == PD_TABLES_START + pd * PAGE_SIZE)
  {
    TableFlags(10);
    TableBits(10);
    var pd := va / 0x4000_0000;
    var e4 := Pml4e(words, PML4_START, va);
    assert e4 == PDPT_START + 3;
    assert Frame(e4, 0x1000) == PDPT_START;
    assert (PDPT_START + 8 * pd) / 8 == PDPT_WORD + pd;
    var e3 := Pdpte(words, PML4_START, va);
    assert e3 == PdptEntry(pd, pdCount);
    if pd < pdCount {
      assert PD_TABLES_START + pd * PAGE_SIZE == (11 + pd) * PAGE_SIZE;
      TableFlags(11 + pd);
      TableBits(11 + pd);
    }
  }

  lemma WalkLower(words: seq<u64>, pages: nat, pdCount: nat, va: nat)
    requires Tables(words, pages, pdCount) && va / 0x4000_0000 < pdCount
    requires Frame(Pdpte(words, PML4_START, va), 0x1000) == PD_TABLES_START + va / 0x4000_0000 * PAGE_SIZE
    ensures Pde(words, PML4_START, va) == PdEntry(va / 0x20_0000, pages)
  {
    var pd, page := va / 0x4000_0000, va / 0x20_0000;
    PageArithmetic(va, pages);
    assert page == pd * 512 + page % 512;
    PdWordIndex(pd, page % 512);
    assert Pde(words, PML4_START, va) == words[PD_WORD + page];
  }

  /**
   Walking the tables: the mapped range maps to itself, writable, for the supervisor only and write-back; everything else
   below 512 GiB faults.
   */
  lemma WalkIsIdentity(words: seq<u64>, pages: nat, pdCount: nat, va: nat)
    requires Tables(words, pages, pdCount) && va < LOW_512G
    ensures Walk(words, PML4_START, va) ==
              if va < pages * HUGE_PAGE_2M then Some(Mapping(va, true, false, true)) else None
  {
    WalkUpper(words, pages, pdCount, va);
    PageArithmetic(va, pages);
    var page := va / 0x20_0000;
    if va / 0x4000_0000 < pdCount {
      WalkLower(words, pages, pdCount, va);
      if page < pages {
        HugeFlags(page);
        HugeEntryWalk(page, va % 0x20_0000, va);
      }
      WalkEnds(words, PML4_START, va);
    }
  }

  /** A walk through two table entries ends at the directory entry if that is absent or large. */
  lemma WalkEnds(words: seq<u64>, cr3: nat, va: nat)
    requires TableEntry(Pml4e(words, cr3, va)) && TableEntry(Pdpte(words, cr3, va))
    requires var e2 := Pde(words, cr3, va); Present(e2) ==> PageSizeBit(e2) && !TopBit(e2)
    ensures var e2 := Pde(words, cr3, va);
            Walk(words, cr3, va) == if Present(e2) then LargePage(e2, 0x20_0000, va, true, false) else None
  {
  }

  lemma PageArithmetic(va: nat, pages: nat)
    ensures va / 0x20_0000 / 512 == va / 0x4000_0000
    ensures va < pages * HUGE_PAGE_2M <==> va / 0x20_0000 < pages
    ensures va / 0x20_0000 * HUGE_PAGE_2M + va % 0x20_0000 == va
  {
  }

  lemma HugeEntryWalk(page: nat, offset: nat, va: nat)
    requires page < 0x4_0000 && offset == va % 0x20_0000 && page * HUGE_PAGE_2M + offset == va
    ensures var e := page * HUGE_PAGE_2M + 0x83;
            && Present(e) && PageSizeBit(e) && !TopBit(e)
            && LargePage(e, 0x20_0000, va, true, false) == Some(Mapping(va, true, false, true))
  {
    var e := page * HUGE_PAGE_2M + 0x83;
    DivUnique(e, 0x80, page * 0x4000 + 1, 3);
    DivUnique(e, 2, page * 0x10_0000 + 0x41, 1);
    DivUnique(e, 4, page * 0x8_0000 + 0x20, 3);
    DivUnique(e, 8, page * 0x4_0000 + 0x10, 3);
    DivUnique(e, 0x1000, page * 0x200, 0x83);
    DivUnique(page * 0x4000 + 1, 2, page * 0x2000, 1);
    DivUnique(page * 0x10_0000 + 0x41, 2, page * 0x8_0000 + 0x20, 1);
    DivUnique(e, 0x20_0000, page, 0x83);
    assert e % 0x10_0000_0000_0000 == e;
  }

  lemma DivUnique(x: nat, d: nat, q: nat, r: nat)
    requires 0 <= r < d && x == q * d + r
    ensures x / d == q && x % d == r
  {
    var k := x / d - q;
    MulBound(k, d);
    var whole: int := (x / d) * d;
    assert k * d == whole - q * d;
  }

  lemma MulBound(k: int, d: int)
    requires d > 0
    ensures k >= 1 ==> k * d >= d
    ensures k <= -1 ==> k * d <= -d
  {
  }

  // ---- writing them ----

  datatype Outcome = Mapped | Refused | WriteFailed

  class GuestMemory {
    const size: nat              // bytes of RAM from address 0
    const words: array<u64>

    ghost predicate Valid()
      reads this
    {
      1 <= size <= MAX_U64 + 1 && words.Length == size / 8
    }

    /** `write_obj` of a 64-bit value. */
    method Write(addr: nat, value: u64) returns (ok: bool)
      requires Valid() && addr % 8 == 0
      modifies words
      ensures Valid()
      ensures ok <==> addr + 8 <= size
      ensures ok ==> words[..] == old(words[..])[addr / 8 := value]
      ensures !ok ==> words[..] == old(words[..])
    {
      ok := addr + 8 <= size;
      if ok {
        words[addr / 8] := value;
      }
    }

    constructor (bytes: nat, contents: array<u64>)
      requires 1 <= bytes <= MAX_U64 + 1 && contents.Length == bytes / 8
      ensures Valid() && size == bytes && words == contents
    {
      size, words := bytes, contents;
    }
  }

  /** Nothing outside the page-table area [0x9000, CMDLINE_START) differs. */
  ghost predicate OnlyTableArea(a: seq<u64>, b: seq<u64>) {
    |a| == |b| && forall i :: 0 <= i < |a| && !(PML4_WORD <= i < CMDLINE_START / 8) ==> a[i] == b[i]
  }

  /** Progress of the loops: the first `pdpt` directory pointers and the first `pages` page entries are final. */
  ghost predicate Progress(words: seq<u64>, total: nat, pdCount: nat, pdpt: nat, pages: nat) {
    && PML4_WORD < |words| && pdpt <= PD_ENTRIES
    && words[PML4_WORD] == BitOr(PDPT_START, PTE_PRESENT_WRITABLE)
    && (pdpt > 0 ==> PDPT_WORD + pdpt <= |words|)
    && (pages > 0 ==> PD_WORD + pages <= |words|)
    && (forall j :: 0 <= j < pdpt ==> words[PDPT_WORD + j] == PdptEntry(j, pdCount))
    && (forall j :: 0 <= j < pages ==> words[PD_WORD + j] == PdEntry(j, total))
  }

  lemma WritePdpt(words: seq<u64>, total: nat, pdCount: nat, pdpt: nat, pages: nat, e: u64)
    requires Progress(words, total, pdCount, pdpt, pages) && pdpt < PD_ENTRIES && PDPT_WORD + pdpt < |words|
    requires e == PdptEntry(pdpt, pdCount)
    ensures Progress(words[PDPT_WORD + pdpt := e], total, pdCount, pdpt + 1, pages)
  {
  }

  lemma WritePd(words: seq<u64>, total: nat, pdCount: nat, pdpt: nat, pages: nat, e: u64)
    requires Progress(words, total, pdCount, pdpt, pages) && PD_WORD + pages < |words|
    requires e == PdEntry(pages, total)
    ensures Progress(words[PD_WORD + pages := e], total, pdCount, pdpt, pages + 1)
  {
  }

  lemma WriteInArea(start: seq<u64>, words: seq<u64>, at: nat, e: u64)
    requires OnlyTableArea(start, words) && PML4_WORD <= at < CMDLINE_START / 8 && at < |words|
    ensures OnlyTableArea(start, words[at := e])
  {
  }

  lemma AreaTransitive(a: seq<u64>, b: seq<u64>, c: seq<u64>)
    requires OnlyTableArea(a, b) && OnlyTableArea(b, c)
    ensures OnlyTableArea(a, c)
  {
  }

  lemma PdEntryFits(page: nat, total: nat)
    requires page < PD_ENTRIES * PD_ENTRIES
    ensures PdEntry(page, total) <= MAX_U64
  {
    HugeFlags(page);
  }

  lemma PdptEntryFits(pd: nat, pdCount: nat)
    requires pd < PD_ENTRIES
    ensures PdptEntry(pd, pdCount) <= MAX_U64
  {
    TableFlags(11 + pd);
    assert PD_TABLES_START + pd * PAGE_SIZE == (11 + pd) * PAGE_SIZE;
  }

  lemma PdWordIndex(pd: nat, i: nat)
    requires pd < PD_ENTRIES && i < PD_ENTRIES
    ensures var addr := PD_TABLES_START + pd * PAGE_SIZE + i * 8;
            addr % 8 == 0 && addr / 8 == PD_WORD + pd * PD_ENTRIES + i
    ensures pd * PD_ENTRIES + i < PD_ENTRIES * PD_ENTRIES
  {
  }

  /** The inner loop: one page directory of 512 entries. */
  method FillDirectory(mem: GuestMemory, pd: nat, total: nat, ghost pdCount: nat) returns (ok: bool)
    requires mem.Valid() && pd < PD_ENTRIES && PD_TABLES_START + (pd + 1) * PAGE_SIZE <= CMDLINE_START
    requires Progress(mem.words[..], total, pdCount, pd + 1, pd * PD_ENTRIES)
    modifies mem.words
    ensures ok <==> PD_TABLES_START + (pd + 1) * PAGE_SIZE <= mem.size
    ensures ok ==> Progress(mem.words[..], total, pdCount, pd + 1, (pd + 1) * PD_ENTRIES)
    ensures OnlyTableArea(old(mem.words[..]), mem.words[..])
  {
    var gpa := PD_TABLES_START + pd * PAGE_SIZE;
    var i := 0;
    ghost var start := mem.words[..];
    while i < PD_ENTRIES
      invariant 0 <= i <= PD_ENTRIES
      invariant i > 0 ==> gpa + i * 8 <= mem.size
      invariant Progress(mem.words[..], total, pdCount, pd + 1, pd * PD_ENTRIES + i)
      invariant OnlyTableArea(start, mem.words[..])
    {
      var page := pd * PD_ENTRIES + i;
      ghost var before := mem.words[..];
      PdWordIndex(pd, i);
      PdEntryFits(page, total);
      var entry := PdEntry(page, total);
      ok := mem.Write(gpa + i * 8, entry);
      if !ok {
        return false;
      }
      assert mem.words[..] == before[PD_WORD + page := entry];
      WritePd(before, total, pdCount, pd + 1, page, entry);
      WriteInArea(start, before, PD_WORD + page, entry);
      i := i + 1;
    }
    return true;
  }

  /** The outer loop: a pointer and a directory for every gigabyte begun. */
  method FillDirectories(mem: GuestMemory, pages: nat, pdCount: nat) returns (ok: bool)
    requires mem.Valid() && 1 <= pdCount <= PD_ENTRIES && PD_TABLES_START + pdCount * PAGE_SIZE <= CMDLINE_START
    requires Progress(mem.words[..], pages, pdCount, 0, 0)
    modifies mem.words
    ensures ok <==> PD_TABLES_START + pdCount * PAGE_SIZE <= mem.size
    ensures ok ==> Progress(mem.words[..], pages, pdCount, pdCount, pdCount * PD_ENTRIES)
    ensures OnlyTableArea(old(mem.words[..]), mem.words[..])
  {
    var pd := 0;
    while pd < pdCount
      invariant 0 <= pd <= pdCount
      invariant pd > 0 ==> PD_TABLES_START + pd * PAGE_SIZE <= mem.size
      invariant Progress(mem.words[..], pages, pdCount, pd, pd * PD_ENTRIES)
      invariant OnlyTableArea(old(mem.words[..]), mem.words[..])
    {
      ghost var before := mem.words[..];
      PdptEntryFits(pd, pdCount);
      var entry := BitOr(PD_TABLES_START + pd * PAGE_SIZE, PTE_PRESENT_WRITABLE);
      ok := mem.Write(PDPT_START + pd * 8, entry);
      if !ok {
        return false;
      }
      assert (PDPT_START + pd * 8) / 8 == PDPT_WORD + pd;
      WritePdpt(before, pages, pdCount, pd, pd * PD_ENTRIES, entry);
      ghost var between := mem.words[..];
      ok := FillDirectory(mem, pd, pages, pdCount);
      AreaTransitive(old(mem.words[..]), between, mem.words[..]);
      if !ok {
        return false;
      }
      pd := pd + 1;
    }
    return true;
  }

  /** The last loop: pointers past the last directory are cleared. */
  method ClearRest(mem: GuestMemory, ghost pages: nat, pdCount: nat)
    requires mem.Valid() && 1 <= pdCount <= PD_ENTRIES && PD_TABLES_START <= mem.size
    requires Progress(mem.words[..], pages, pdCount, pdCount, pdCount * PD_ENTRIES)
    modifies mem.words
    ensures Progress(mem.words[..], pages, pdCount, PD_ENTRIES, pdCount * PD_ENTRIES)
    ensures OnlyTableArea(old(mem.words[..]), mem.words[..])
  {
    var pd := pdCount;
    while pd < PD_ENTRIES
      invariant pdCount <= pd <= PD_ENTRIES
      invariant Progress(mem.words[..], pages, pdCount, pd, pdCount * PD_ENTRIES)
      invariant OnlyTableArea(old(mem.words[..]), mem.words[..])
    {
      ghost var before := mem.words[..];
      var ok := mem.Write(PDPT_START + pd * 8, 0);
      assert (PDPT_START + pd * 8) / 8 == PDPT_WORD + pd;
      WritePdpt(before, pages, pdCount, pd, pdCount * PD_ENTRIES, 0);
      pd := pd + 1;
    }
  }

  /** `setup_identity_map`: when it succeeds, what it leaves alone, and what the processor then sees. */
  method SetupIdentityMap(mem: GuestMemory) returns (r: Outcome)
    requires mem.Valid()
    modifies mem.words
    ensures r == Mapped <==> mem.size <= MAX_U64 && Accepts(mem.size) && TablesEnd(mem.size) <= mem.size
    ensures r == Refused <==> mem.size > MAX_U64 || !Accepts(mem.size)
    ensures OnlyTableArea(old(mem.words[..]), mem.words[..])
    ensures r == Refused ==> mem.words[..] == old(mem.words[..])
    ensures r == Mapped ==>
              mem.size <= MapEnd(mem.size) < mem.size + HUGE_PAGE_2M && MapEnd(mem.size) % HUGE_PAGE_2M == 0
    ensures r == Mapped ==> forall va :: 0 <= va < LOW_512G ==>
              Walk(mem.words[..], PML4_START, va) ==
                if va < MapEnd(mem.size) then Some(Mapping(va, true, false, true)) else None
  {
    if mem.size > MAX_U64 {
      return Refused;
    }
    var pages, pdCount := HugePages(mem.size), PdCount(mem.size);
    if pdCount == 0 || pdCount > PD_ENTRIES {
      return Refused;
    }
    if PD_TABLES_START + pdCount * PAGE_SIZE > CMDLINE_START {
      return Refused;
    }
    TableFlags(10);
    var ok := mem.Write(PML4_START, BitOr(PDPT_START, PTE_PRESENT_WRITABLE));
    if !ok {
      return WriteFailed;
    }
    ok := FillDirectories(mem, pages, pdCount);
    if !ok {
      return WriteFailed;
    }
    ghost var filled := mem.words[..];
    ClearRest(mem, pages, pdCount);
    AreaTransitive(old(mem.words[..]), filled, mem.words[..]);
    MappedWalk(mem.words[..], mem.size);
    RoundedUp(mem.size);
    return Mapped;
  }

  lemma RoundedUp(size: nat)
    requires size <= MAX_U64 && Accepts(size)
    ensures size <= MapEnd(size) < size + HUGE_PAGE_2M && MapEnd(size) % HUGE_PAGE_2M == 0
  {
    var q := CeilDiv(size, HUGE_PAGE_2M);
    assert MapEnd(size) < MAX_U64;
    assert MapEnd(size) == q * HUGE_PAGE_2M;
  }

  lemma MappedWalk(words: seq<u64>, size: nat)
    requires size <= MAX_U64 && Accepts(size)
    requires Progress(words, HugePages(size), PdCount(size), PD_ENTRIES, PdCount(size) * PD_ENTRIES)
    ensures forall va :: 0 <= va < LOW_512G ==>
              Walk(words, PML4_START, va) == if va < MapEnd(size) then Some(Mapping(va, true, false, true)) else None
  {
    var pages := HugePages(size);
    assert PdCount(size) <= 21;
    assert pages * HUGE_PAGE_2M == MapEnd(size) by {
      var q := CeilDiv(size, HUGE_PAGE_2M);
      assert q * HUGE_PAGE_2M <= MAX_U64;
    }
    forall va | 0 <= va < LOW_512G
      ensures Walk(words, PML4_START, va) == if va < MapEnd(size) then Some(Mapping(va, true, false, true)) else None
    {
      WalkIsIdentity(words, pages, PdCount(size), va);
    }
  }
}
