/**
 The virtio-blk disk: io_uring, O_DIRECT and buffered paths against one array of bytes.

 Results of system calls are arguments: a transfer may be short, interrupted, or fail, and a failed write
 may have written any of its bytes. Both descriptors and the ring reach the same bytes.
 */
module BlockDisk {
  import opened Machine

  const SECTOR_SIZE: nat := 512
  const IO_ALIGN: nat := 4096
  const MAX_OFF: nat := 0x7fff_ffff_ffff_ffff
  const M64: nat := 0x1_0000_0000_0000_0000

  // ---- byte arrays ----

  /** `d` with `bytes` written at `at`. */
  function Overwrite(d: seq<u8>, at: nat, bytes: seq<u8>): (r: seq<u8>)
    requires at + |bytes| <= |d|
    ensures |r| == |d|
  {
    d[..at] + bytes + d[at + |bytes|..]
  }

  /** Inside the range each byte is the old or the new one; outside nothing changed. */
  predicate Torn(d: seq<u8>, d': seq<u8>, at: nat, bytes: seq<u8>) {
    && |d'| == |d| && at + |bytes| <= |d|
    && (forall i :: 0 <= i < |d| && !(at <= i < at + |bytes|) ==> d'[i] == d[i])
    && (forall i :: 0 <= i < |bytes| ==> d'[at + i] == d[at + i] || d'[at + i] == bytes[i])
  }

  /** `d` with those of `bytes` written at `at` whose positions are in `hit`. */
  function Hit(d: seq<u8>, at: nat, bytes: seq<u8>, hit: set<nat>): (r: seq<u8>)
    requires at + |bytes| <= |d|
    ensures |r| == |d|
    ensures forall i :: 0 <= i < |d| ==>
              r[i] == if at <= i < at + |bytes| && i - at in hit then bytes[i - at] else d[i]
  {
    seq(|d|, i requires 0 <= i < |d| => if at <= i < at + |bytes| && i - at in hit then bytes[i - at] else d[i])
  }

  /** Torn is just that: some of the bytes were written. */
  lemma TornIsHit(d: seq<u8>, d': seq<u8>, at: nat, bytes: seq<u8>) returns (hit: set<nat>)
    requires Torn(d, d', at, bytes)
    ensures d' == Hit(d, at, bytes, hit)
  {
    hit := set i: nat | i < |bytes| && d'[at + i] == bytes[i];
    forall i | 0 <= i < |d| ensures d'[i] == Hit(d, at, bytes, hit)[i] {
      if at <= i < at + |bytes| {
        assert d'[at + (i - at)] == d[at + (i - at)] || d'[at + (i - at)] == bytes[i - at];
      }
    }
  }

  /** Writing any of the bytes from `from` on keeps the array torn between old and new. */
  lemma TornHit(d: seq<u8>, d': seq<u8>, at: nat, bytes: seq<u8>, from: nat, hit: set<nat>)
    requires Torn(d, d', at, bytes) && from <= |bytes|
    ensures Torn(d, Hit(d', at + from, bytes[from..], hit), at, bytes)
  {
    var r := Hit(d', at + from, bytes[from..], hit);
    forall i | 0 <= i < |bytes| ensures r[at + i] == d[at + i] || r[at + i] == bytes[i] {
      assert d'[at + i] == d[at + i] || d'[at + i] == bytes[i];
    }
  }

  /** Writing a piece of `bytes` in its place keeps the array torn between old and new. */
  lemma TornPiece(d: seq<u8>, d': seq<u8>, at: nat, bytes: seq<u8>, from: nat, n: nat)
    requires Torn(d, d', at, bytes) && from + n <= |bytes|
    ensures Torn(d, Overwrite(d', at + from, bytes[from..from + n]), at, bytes)
  {
    var r := Overwrite(d', at + from, bytes[from..from + n]);
    forall i | 0 <= i < |bytes| ensures r[at + i] == d[at + i] || r[at + i] == bytes[i] {
      if from <= i < from + n {
        assert r[at + i] == bytes[from..from + n][i - from];
      } else {
        assert r[at + i] == d'[at + i];
      }
    }
  }

  /** The first `done` bytes of the range are new. */
  predicate Prefix(d: seq<u8>, at: nat, bytes: seq<u8>, done: nat) {
    at + |bytes| <= |d| && done <= |bytes| && d[at..at + done] == bytes[..done]
  }

  lemma PrefixPiece(d: seq<u8>, at: nat, bytes: seq<u8>, done: nat, n: nat)
    requires Prefix(d, at, bytes, done) && done + n <= |bytes|
    ensures Prefix(Overwrite(d, at + done, bytes[done..done + n]), at, bytes, done + n)
  {
    var r := Overwrite(d, at + done, bytes[done..done + n]);
    assert r[at..at + done] == d[at..at + done];
    assert r[at + done..at + done + n] == bytes[done..done + n];
    assert r[at..at + done + n] == r[at..at + done] + r[at + done..at + done + n];
    assert bytes[..done + n] == bytes[..done] + bytes[done..done + n];
  }

  /** Torn and complete is overwritten: whatever was written before, one full pass makes it whole. */
  lemma TornComplete(d: seq<u8>, d': seq<u8>, at: nat, bytes: seq<u8>)
    requires Torn(d, d', at, bytes) && Prefix(d', at, bytes, |bytes|)
    ensures d' == Overwrite(d, at, bytes)
  {
    var r := Overwrite(d, at, bytes);
    forall i | 0 <= i < |d| ensures d'[i] == r[i] {
      if at <= i < at + |bytes| {
        assert d'[i] == d'[at..at + |bytes|][i - at];
      }
    }
  }

  // ---- system call results ----

  /** One read or write call: moved up to n bytes, was interrupted, or failed having written the bytes at `hit`. */
  datatype Io = Did(n: nat) | Interrupted | Error(einval: bool, hit: set<nat>)

  datatype IoResult = Ok | Failed(einval: bool)

  /** The calls of one attempt: those through the ring, then those on the descriptor. */
  datatype Attempt = Attempt(ringIos: seq<Io>, ios: seq<Io>)

  function CountDid(ios: seq<Io>): nat {
    if ios == [] then 0 else (if ios[0].Did? then 1 else 0) + CountDid(ios[1..])
  }

  /** Calls that get `len` bytes moved: short and interrupted ones included, but no failure. */
  predicate Healthy(ios: seq<Io>, len: nat) {
    && (forall i :: 0 <= i < |ios| ==> ios[i].Interrupted? || (ios[i].Did? && ios[i].n >= 1))
    && len <= CountDid(ios)
  }

  /** A descriptor that refuses the transfer with EINVAL before moving anything. */
  predicate Refuses(ios: seq<Io>) {
    ios != [] && ios[0] == Error(true, {})
  }

  /** The attempts get through: the first descriptor works, or it is O_DIRECT, refuses, and the buffered one works. */
  predicate GetsThrough(first: Attempt, second: Attempt, direct: bool, len: nat) {
    Healthy(first.ios, len) || (direct && Refuses(first.ios) && Healthy(second.ios, len))
  }

  // ---- transfers as functions of their schedule ----

  /** A call the loop does not even make: too long for the ring, or past what an off_t holds. */
  predicate Unsendable(offset: nat, left: nat, viaRing: bool) {
    if viaRing then left >= M32 else offset > MAX_OFF
  }

  /** `pread_all` and `ring_read` on a file of `size` bytes; the ring gives up where a descriptor retries. */
  function ReadCalls(size: nat, offset: nat, len: nat, done: nat, ios: seq<Io>, viaRing: bool): IoResult
    requires done <= len
    decreases |ios|
  {
    if done == len then Ok
    else if Unsendable(offset + done, len - done, viaRing) || ios == [] then Failed(false)
    else
      match ios[0]
      case Interrupted => if viaRing then Failed(false) else ReadCalls(size, offset, len, done, ios[1..], viaRing)
      case Error(einval, _) => Failed(einval)
      case Did(n) =>
        var m := Moved(size, offset + done, Min(n, len - done));
        if m == 0 then Failed(false) else ReadCalls(size, offset, len, done + m, ios[1..], viaRing)
  }

  /** A read stops at the end of the file. */
  function Moved(size: nat, at: nat, n: nat): (m: nat)
    ensures m <= n && (m > 0 ==> at + m <= size)
  {
    if at < size then Min(n, size - at) else 0
  }

  datatype Transfer = Transfer(data: seq<u8>, result: IoResult)

  /** After one write call: on with the loop, `done` bytes being out, or the end of it. */
  datatype Called = More(data: seq<u8>, done: nat) | Stop(einval: bool, data: seq<u8>)

  function WriteCall(d: seq<u8>, offset: nat, bytes: seq<u8>, done: nat, io: Io, viaRing: bool): (c: Called)
    requires offset + |bytes| <= |d| && done < |bytes|
    ensures |c.data| == |d| && (c.More? ==> done <= c.done <= |bytes|)
  {
    match io
    case Interrupted => if viaRing then Stop(false, d) else More(d, done)
    case Error(einval, hit) => Stop(einval, Hit(d, offset + done, bytes[done..], hit))
    case Did(n) =>
      var m := Min(n, |bytes| - done);
      if m == 0 then Stop(false, d) else More(Overwrite(d, offset + done, bytes[done..done + m]), done + m)
  }

  /** `pwrite_all` and `ring_write`. */
  function WriteCalls(d: seq<u8>, offset: nat, bytes: seq<u8>, done: nat, ios: seq<Io>, viaRing: bool): (t: Transfer)
    requires offset + |bytes| <= |d| && done <= |bytes|
    ensures |t.data| == |d|
    decreases |ios|
  {
    if done == |bytes| then Transfer(d, Ok)
    else if Unsendable(offset + done, |bytes| - done, viaRing) || ios == [] then Transfer(d, Failed(false))
    else
      match WriteCall(d, offset, bytes, done, ios[0], viaRing)
      case Stop(einval, d') => Transfer(d', Failed(einval))
      case More(d', done') => WriteCalls(d', offset, bytes, done', ios[1..], viaRing)
  }

  /** The disk as requests find it; `room` is the size of the scratch buffer. */
  datatype Drive = Drive(data: seq<u8>, room: nat, ring: bool, useDirect: bool, directFile: bool, align: nat) {
    predicate Prefers(offset: nat, len: nat) {
      useDirect && directFile && align != 0 && offset % align == 0 && len % align == 0
    }
  }

  datatype Done = Done(drive: Drive, result: IoResult)

  /** `read_at_fd`: the ring, and after it failed the descriptor. */
  function ReadFd(v: Drive, offset: nat, len: nat, a: Attempt): (r: Done)
    ensures r.drive.data == v.data && r.drive.room == v.room
  {
    if v.ring && ReadCalls(|v.data|, offset, len, 0, a.ringIos, true) == Ok then Done(v, Ok)
    else Done(v.(ring := false), ReadCalls(|v.data|, offset, len, 0, a.ios, false))
  }

  /** `read_at`, once the buffer has room: at most one retry, on the buffered descriptor. */
  function Read(v: Drive, offset: nat, len: nat, first: Attempt, second: Attempt): (r: Done)
    ensures r.drive.data == v.data && r.drive.room == v.room
  {
    if len == 0 then Done(v, Ok)
    else
      var r := ReadFd(v, offset, len, first);
      if r.result == Failed(true) && v.Prefers(offset, len)
      then ReadFd(r.drive.(useDirect := false), offset, len, second) else r
  }

  function WriteFd(v: Drive, offset: nat, bytes: seq<u8>, a: Attempt): (r: Done)
    requires offset + |bytes| <= |v.data|
    ensures |r.drive.data| == |v.data| && r.drive.room == v.room
  {
    var t := WriteCalls(v.data, offset, bytes, 0, a.ringIos, true);
    if v.ring && t.result == Ok then Done(v.(data := t.data), Ok)
    else
      var d := if v.ring then t.data else v.data;
      var u := WriteCalls(d, offset, bytes, 0, a.ios, false);
      Done(v.(data := u.data, ring := false), u.result)
  }

  /** `write_at`: success is one whole overwrite, whatever partial writes came before it. */
  function Write(v: Drive, offset: nat, bytes: seq<u8>, first: Attempt, second: Attempt): (r: Done)
    requires offset + |bytes| <= |v.data|
    ensures |r.drive.data| == |v.data| && r.drive.room == v.room
  {
    if bytes == [] then Done(v, Ok)
    else
      var r := WriteFd(v, offset, bytes, first);
      if r.result == Failed(true) && v.Prefers(offset, |bytes|)
      then WriteFd(r.drive.(useDirect := false), offset, bytes, second) else r
  }

  // ---- what transfers do ----

  /** A write loop leaves the range torn at most, and whole if it reports success, whatever was written before it. */
  lemma {:induction false} WriteCallsTorn(orig: seq<u8>, d: seq<u8>, offset: nat, bytes: seq<u8>, done: nat, ios: seq<Io>,
                                          viaRing: bool)
    requires Torn(orig, d, offset, bytes) && Prefix(d, offset, bytes, done)
    ensures var t := WriteCalls(d, offset, bytes, done, ios, viaRing);
            Torn(orig, t.data, offset, bytes) && (t.result == Ok ==> t.data == Overwrite(orig, offset, bytes))
    decreases |ios|
  {
    if done == |bytes| {
      TornComplete(orig, d, offset, bytes);
    } else if !Unsendable(offset + done, |bytes| - done, viaRing) && ios != [] {
      WriteCallTorn(orig, d, offset, bytes, done, ios[0], viaRing);
      var c := WriteCall(d, offset, bytes, done, ios[0], viaRing);
      if c.More? {
        WriteCallsTorn(orig, c.data, offset, bytes, c.done, ios[1..], viaRing);
      }
    }
  }

  lemma WriteCallTorn(orig: seq<u8>, d: seq<u8>, offset: nat, bytes: seq<u8>, done: nat, io: Io, viaRing: bool)
    requires Torn(orig, d, offset, bytes) && Prefix(d, offset, bytes, done) && done < |bytes|
    ensures var c := WriteCall(d, offset, bytes, done, io, viaRing);
            Torn(orig, c.data, offset, bytes) && (c.More? ==> Prefix(c.data, offset, bytes, c.done))
  {
    match io
    case Interrupted =>
    case Error(_, hit) => TornHit(orig, d, offset, bytes, done, hit);
    case Did(n) => OnePiece(orig, d, offset, bytes, done, Min(n, |bytes| - done));
  }

  lemma OnePiece(orig: seq<u8>, d: seq<u8>, offset: nat, bytes: seq<u8>, done: nat, m: nat)
    requires Torn(orig, d, offset, bytes) && Prefix(d, offset, bytes, done) && done + m <= |bytes|
    ensures var next := Overwrite(d, offset + done, bytes[done..done + m]);
            Torn(orig, next, offset, bytes) && Prefix(next, offset, bytes, done + m)
  {
    TornPiece(orig, d, offset, bytes, done, m);
    PrefixPiece(d, offset, bytes, done, m);
  }

  lemma WriteFdTorn(orig: seq<u8>, v: Drive, offset: nat, bytes: seq<u8>, a: Attempt)
    requires Torn(orig, v.data, offset, bytes)
    ensures var r := WriteFd(v, offset, bytes, a);
            && Torn(orig, r.drive.data, offset, bytes)
            && (r.result == Ok ==> r.drive.data == Overwrite(orig, offset, bytes))
  {
    assert v.data[offset..offset + 0] == bytes[..0];
    WriteCallsTorn(orig, v.data, offset, bytes, 0, a.ringIos, true);
    var d := if v.ring then WriteCalls(v.data, offset, bytes, 0, a.ringIos, true).data else v.data;
    assert d[offset..offset + 0] == bytes[..0];
    WriteCallsTorn(orig, d, offset, bytes, 0, a.ios, false);
  }

  /** So it is through ring, O_DIRECT and buffered descriptor together. */
  lemma WriteTorn(v: Drive, offset: nat, bytes: seq<u8>, first: Attempt, second: Attempt)
    requires offset + |bytes| <= |v.data|
    ensures var r := Write(v, offset, bytes, first, second);
            && Torn(v.data, r.drive.data, offset, bytes)
            && (r.result == Ok ==> r.drive.data == Overwrite(v.data, offset, bytes))
  {
    var r := WriteFd(v, offset, bytes, first);
    if bytes == [] {
      assert Overwrite(v.data, offset, bytes) == v.data;
    } else {
      WriteFdTorn(v.data, v, offset, bytes, first);
      WriteFdTorn(v.data, r.drive.(useDirect := false), offset, bytes, second);
    }
  }

  lemma {:induction false} WriteHealthy(d: seq<u8>, offset: nat, bytes: seq<u8>, done: nat, ios: seq<Io>)
    requires offset + |bytes| <= |d| && done <= |bytes| && offset + |bytes| <= MAX_OFF && Healthy(ios, |bytes| - done)
    ensures WriteCalls(d, offset, bytes, done, ios, false).result == Ok
    decreases |ios|
  {
    if done < |bytes| {
      var c := WriteCall(d, offset, bytes, done, ios[0], false);
      WriteHealthy(c.data, offset, bytes, c.done, ios[1..]);
    }
  }

  lemma {:induction false} ReadHealthy(size: nat, offset: nat, len: nat, done: nat, ios: seq<Io>)
    requires done <= len && offset + len <= size && offset + len <= MAX_OFF && Healthy(ios, len - done)
    ensures ReadCalls(size, offset, len, done, ios, false) == Ok
    decreases |ios|
  {
    if done < len {
      if ios[0].Interrupted? {
        ReadHealthy(size, offset, len, done, ios[1..]);
      } else {
        ReadHealthy(size, offset, len, done + Moved(size, offset + done, Min(ios[0].n, len - done)), ios[1..]);
      }
    }
  }

  /** The ring serves no transfer of 4 GiB or more, a descriptor none beyond what an off_t holds. */
  lemma SendableOnly(v: Drive, offset: nat, bytes: seq<u8>, ios: seq<Io>, viaRing: bool)
    requires bytes != [] && offset + |bytes| <= |v.data|
    ensures WriteCalls(v.data, offset, bytes, 0, ios, viaRing).result == Ok
            || ReadCalls(|v.data|, offset, |bytes|, 0, ios, viaRing) == Ok ==>
              if viaRing then |bytes| < 0x1_0000_0000 else offset <= 0x7fff_ffff_ffff_ffff
  {
  }

  /** The attempt was made on the O_DIRECT descriptor, for an aligned transfer, and refused with EINVAL. */
  predicate DirectRefused(v: Drive, offset: nat, len: nat, first: IoResult) {
    && v.useDirect && v.directFile && v.align > 0 && offset % v.align == 0 && len % v.align == 0
    && first == Failed(true)
  }

  /**
   The ring stays in use exactly as long as it serves whole transfers; O_DIRECT is given up exactly when an aligned
   transfer on it is refused with EINVAL, and then the buffered descriptor decides.
   */
  lemma WriteSwitches(v: Drive, offset: nat, bytes: seq<u8>, first: Attempt, second: Attempt)
    requires bytes != [] && offset + |bytes| <= |v.data|
    ensures var r, one := Write(v, offset, bytes, first, second), WriteFd(v, offset, bytes, first);
            && (r.drive.ring <==> v.ring && WriteCalls(v.data, offset, bytes, 0, first.ringIos, true).result == Ok)
            && r.drive.useDirect == (v.useDirect && !DirectRefused(v, offset, |bytes|, one.result))
            && (if DirectRefused(v, offset, |bytes|, one.result)
                then r.result == WriteCalls(one.drive.data, offset, bytes, 0, second.ios, false).result
                else r.result == one.result)
  {
  }

  lemma ReadSwitches(v: Drive, offset: nat, len: nat, first: Attempt, second: Attempt)
    requires len > 0
    ensures var r, one := Read(v, offset, len, first, second), ReadFd(v, offset, len, first);
            && (r.drive.ring <==> v.ring && ReadCalls(|v.data|, offset, len, 0, first.ringIos, true) == Ok)
            && r.drive.useDirect == (v.useDirect && !DirectRefused(v, offset, len, one.result))
            && (if DirectRefused(v, offset, len, one.result)
                then r.result == ReadCalls(|v.data|, offset, len, 0, second.ios, false) else r.result == one.result)
  {
  }

  /** Transfers within the file whose calls get through succeed, whichever path serves them. */
  lemma ThroughIsOk(v: Drive, offset: nat, len: nat, bytes: seq<u8>, first: Attempt, second: Attempt)
    requires |bytes| == len && offset + len <= |v.data| && offset + len <= MAX_OFF
    requires GetsThrough(first, second, v.Prefers(offset, len), len)
    ensures Read(v, offset, len, first, second).result == Ok
    ensures Write(v, offset, bytes, first, second).result == Ok
  {
    if len > 0 {
      WriteThrough(v, offset, bytes, first, second);
      if Healthy(first.ios, len) {
        ReadHealthy(|v.data|, offset, len, 0, first.ios);
      } else {
        ReadHealthy(|v.data|, offset, len, 0, second.ios);
      }
    }
  }

  lemma WriteThrough(v: Drive, offset: nat, bytes: seq<u8>, first: Attempt, second: Attempt)
    requires bytes != [] && offset + |bytes| <= |v.data| && offset + |bytes| <= MAX_OFF
    requires GetsThrough(first, second, v.Prefers(offset, |bytes|), |bytes|)
    ensures Write(v, offset, bytes, first, second).result == Ok
  {
    if Healthy(first.ios, |bytes|) {
      FdHealthy(v, offset, bytes, first);
    } else {
      FdHealthy(WriteFd(v, offset, bytes, first).drive.(useDirect := false), offset, bytes, second);
    }
  }

  lemma FdHealthy(v: Drive, offset: nat, bytes: seq<u8>, a: Attempt)
    requires offset + |bytes| <= |v.data| && offset + |bytes| <= MAX_OFF && Healthy(a.ios, |bytes|)
    ensures WriteFd(v, offset, bytes, a).result == Ok
  {
    WriteHealthy(v.data, offset, bytes, 0, a.ios);
    WriteHealthy(WriteCalls(v.data, offset, bytes, 0, a.ringIos, true).data, offset, bytes, 0, a.ios);
  }

  lemma {:induction false} ReadInside(size: nat, offset: nat, len: nat, done: nat, ios: seq<Io>, viaRing: bool)
    requires done <= len && (done > 0 ==> offset + done <= size) && len > 0
    requires ReadCalls(size, offset, len, done, ios, viaRing) == Ok
    ensures offset + len <= size
    decreases |ios|
  {
    if done < len {
      if ios[0].Interrupted? {
        ReadInside(size, offset, len, done, ios[1..], viaRing);
      } else {
        ReadInside(size, offset, len, done + Moved(size, offset + done, Min(ios[0].n, len - done)), ios[1..], viaRing);
      }
    }
  }

  // ---- the scratch buffer ----

  function RoundUp(need: nat): nat {
    (need + IO_ALIGN - 1) / IO_ALIGN * IO_ALIGN
  }

  /** The size of the buffer after asking for `need` bytes of it. */
  function Grown(room: nat, need: nat, alloc: bool): (r: nat)
    ensures r >= room && (need <= room || alloc ==> need <= r)
    ensures need > room && alloc ==> r < need + 4096 && r % 4096 == 0
  {
    if need <= room || !alloc then room else RoundUp(need)
  }

  class Disk {
    var data: seq<u8>
    const directFile: bool
    const directAlign: nat
    var useDirect: bool
    var ring: bool
    var scratch: seq<u8>

    function State(): Drive
      reads this
    {
      Drive(data, |scratch|, ring, useDirect, directFile, directAlign)
    }

    constructor (image: seq<u8>, direct: bool, align: nat, haveRing: bool)
      ensures State() == Drive(image, 64 * 1024, haveRing, direct, direct, align)
    {
      data, directFile, directAlign, useDirect, ring := image, direct, align, direct, haveRing;
      scratch := seq(64 * 1024, _ => 0);
    }

    /** `AlignedBuf::ensure`: grow to a multiple of 4096, if memory allows. */
    method Ensure(need: nat, alloc: bool) returns (ok: bool)
      modifies this`scratch
      ensures old(scratch) <= scratch && |scratch| == Grown(|old(scratch)|, need, alloc)
      ensures ok <==> need <= |old(scratch)| || alloc
      ensures !ok ==> scratch == old(scratch)
    {
      if need <= |scratch| {
        return true;
      }
      if !alloc {
        return false;
      }
      var cap := (need + IO_ALIGN - 1) / IO_ALIGN * IO_ALIGN;
      scratch := scratch + seq(cap - |scratch|, _ => 0);
      return true;
    }

    method ZeroScratch(len: nat, alloc: bool) returns (ok: bool)
      modifies this`scratch
      ensures ok <==> len <= |old(scratch)| || alloc
      ensures |scratch| == Grown(|old(scratch)|, len, alloc)
      ensures ok ==> forall i :: 0 <= i < len ==> scratch[i] == 0
      ensures !ok ==> scratch == old(scratch)
    {
      ok := Ensure(len, alloc);
      if ok {
        scratch := seq(len, _ => 0) + scratch[len..];
      }
    }

    // ---- reading ----

    /** A transfer loop into `scratch[..len]`. */
    method ReadLoop(offset: nat, len: nat, ios: seq<Io>, viaRing: bool) returns (r: IoResult)
      requires len <= |scratch|
      modifies this`scratch
      ensures |scratch| == |old(scratch)|
      ensures r == ReadCalls(|data|, offset, len, 0, ios, viaRing)
      ensures r == Ok && len > 0 ==> offset + len <= |data| && scratch[..len] == data[offset..offset + len]
    {
      var done, rest := 0, ios;
      while done < len
        invariant 0 <= done <= len <= |scratch| == |old(scratch)|
        invariant ReadCalls(|data|, offset, len, 0, ios, viaRing) == ReadCalls(|data|, offset, len, done, rest, viaRing)
        invariant done > 0 ==> offset + done <= |data| && scratch[..done] == data[offset..offset + done]
        decreases |rest|
      {
        if (viaRing && len - done >= M32) || (!viaRing && offset + done > MAX_OFF) || rest == [] {
          return Failed(false);
        }
        var io := rest[0];
        rest := rest[1..];
        if io.Interrupted? && !viaRing {
          continue;
        }
        if !io.Did? {
          return Failed(io.Error? && io.einval);
        }
        var at := offset + done;
        var n := if at < |data| then Min(Min(io.n, len - done), |data| - at) else 0;
        if n == 0 {
          return Failed(false);
        }
        ghost var before := scratch;
        scratch := scratch[..done] + data[at..at + n] + scratch[done + n..];
        assert scratch[..done + n] == before[..done] + data[at..at + n];
        assert data[offset..at + n] == data[offset..at] + data[at..at + n];
        done := done + n;
      }
      return Ok;
    }

    method ReadAtFd(offset: nat, len: nat, a: Attempt) returns (r: IoResult)
      requires len <= |scratch|
      modifies this`scratch, this`ring
      ensures Done(State(), r) == ReadFd(old(State()), offset, len, a)
      ensures r == Ok && len > 0 ==> offset + len <= |data| && scratch[..len] == data[offset..offset + len]
    {
      if ring {
        r := ReadLoop(offset, len, a.ringIos, true);
        if r == Ok {
          return;
        }
        ring := false;
      }
      r := ReadLoop(offset, len, a.ios, false);
    }

    /** `read_at`. */
    method ReadAt(offset: nat, len: nat, alloc: bool, first: Attempt, second: Attempt) returns (r: IoResult)
      modifies this`scratch, this`ring, this`useDirect
      ensures len > |old(scratch)| && !alloc ==> r == Failed(false) && State() == old(State())
      ensures len <= |old(scratch)| || alloc ==>
                Done(State(), r) == Read(old(State()).(room := Grown(|old(scratch)|, len, alloc)), offset, len, first, second)
      ensures r == Ok && len > 0 ==>
                len <= |scratch| && offset + len <= |data| && scratch[..len] == data[offset..offset + len]
    {
      if len == 0 {
        return Ok;
      }
      var ok := Ensure(len, alloc);
      if !ok {
        return Failed(false);
      }
      var prefer, attempt := State().Prefers(offset, len), first;
      ghost var v, tried := State(), ReadFd(State(), offset, len, first);
      while true
        invariant len <= |scratch|
        invariant || (attempt == first && State() == v && prefer == v.Prefers(offset, len))
                  || (&& attempt == second && !prefer && v.Prefers(offset, len) && tried.result == Failed(true)
                      && State() == tried.drive.(useDirect := false))
        decreases useDirect
      {
        r := ReadAtFd(offset, len, attempt);
        if r.Failed? && prefer && r.einval && useDirect {
          useDirect, prefer, attempt := false, false, second;
          continue;
        }
        return;
      }
    }

    // ---- writing ----

    /** `pwrite_all` and `ring_write`: the range is torn at most, and whole on success. */
    method WriteLoop(offset: nat, bytes: seq<u8>, ios: seq<Io>, viaRing: bool) returns (r: IoResult)
      requires offset + |bytes| <= |data|
      modifies this`data
      ensures Transfer(data, r) == WriteCalls(old(data), offset, bytes, 0, ios, viaRing)
      ensures Torn(old(data), data, offset, bytes) && (r == Ok ==> data == Overwrite(old(data), offset, bytes))
    {
      assert data[offset..offset + 0] == bytes[..0];
      WriteCallsTorn(data, data, offset, bytes, 0, ios, viaRing);
      r := MakeCalls(offset, bytes, ios, viaRing);
    }

    /** The loop itself. */
    method MakeCalls(offset: nat, bytes: seq<u8>, ios: seq<Io>, viaRing: bool) returns (r: IoResult)
      requires offset + |bytes| <= |data|
      modifies this`data
      ensures Transfer(data, r) == WriteCalls(old(data), offset, bytes, 0, ios, viaRing)
    {
      var done, rest := 0, ios;
      while done < |bytes|
        invariant 0 <= done <= |bytes| && |data| == |old(data)|
        invariant WriteCalls(old(data), offset, bytes, 0, ios, viaRing) ==
                  WriteCalls(data, offset, bytes, done, rest, viaRing)
        decreases |rest|
      {
        if (viaRing && |bytes| - done >= M32) || (!viaRing && offset + done > MAX_OFF) || rest == [] {
          return Failed(false);
        }
        var next, einval := CallOnce(offset, bytes, done, rest[0], viaRing);
        if next == None {
          return Failed(einval);
        }
        done, rest := next.value, rest[1..];
      }
      return Ok;
    }

    /** One call: how far the loop is after it, or the error that ends it. */
    method CallOnce(offset: nat, bytes: seq<u8>, done: nat, io: Io, viaRing: bool)
      returns (next: Option<nat>, einval: bool)
      requires offset + |bytes| <= |data| && done < |bytes|
      modifies this`data
      ensures WriteCall(old(data), offset, bytes, done, io, viaRing) ==
              if next.Some? then More(data, next.value) else Stop(einval, data)
    {
      if io.Interrupted? && !viaRing {
        return Some(done), false;
      }
      if io.Error? {
        data := Hit(data, offset + done, bytes[done..], io.hit);
        return None, io.einval;
      }
      var n := if io.Did? then Min(io.n, |bytes| - done) else 0;
      if n == 0 {
        return None, false;
      }
      data := Overwrite(data, offset + done, bytes[done..done + n]);
      return Some(done + n), false;
    }

    method WriteAtFd(offset: nat, bytes: seq<u8>, a: Attempt) returns (r: IoResult)
      requires offset + |bytes| <= |data|
      modifies this`data, this`ring
      ensures Done(State(), r) == WriteFd(old(State()), offset, bytes, a)
      ensures Torn(old(data), data, offset, bytes) && (r == Ok ==> data == Overwrite(old(data), offset, bytes))
    {
      WriteFdTorn(data, State(), offset, bytes, a);
      if ring {
        r := WriteLoop(offset, bytes, a.ringIos, true);
        if r == Ok {
          return;
        }
        ring := false;
      }
      r := WriteLoop(offset, bytes, a.ios, false);
    }

    /** `write_at`: success is one whole overwrite, whatever partial writes came before it. */
    method WriteAt(offset: nat, len: nat, first: Attempt, second: Attempt) returns (r: IoResult)
      requires offset + len <= |data|
      modifies this`data, this`ring, this`useDirect
      ensures len > |scratch| ==> r == Failed(false) && State() == old(State())
      ensures len <= |scratch| ==>
                && Done(State(), r) == Write(old(State()), offset, scratch[..len], first, second)
                && Torn(old(data), data, offset, scratch[..len])
                && (r == Ok ==> data == Overwrite(old(data), offset, scratch[..len]))
    {
      if len > |scratch| {
        return Failed(false);
      }
      var bytes := scratch[..len];
      WriteTorn(State(), offset, bytes, first, second);
      if len == 0 {
        return Ok;
      }
      var prefer, attempt := State().Prefers(offset, len), first;
      ghost var v, tried := State(), WriteFd(State(), offset, bytes, first);
      while true
        invariant |data| == |old(data)|
        invariant || (attempt == first && State() == v && prefer == v.Prefers(offset, len))
                  || (&& attempt == second && !prefer && v.Prefers(offset, len) && tried.result == Failed(true)
                      && State() == tried.drive.(useDirect := false))
        decreases useDirect
      {
        r := WriteAtFd(offset, bytes, attempt);
        if r.Failed? && prefer && r.einval && useDirect {
          useDirect, prefer, attempt := false, false, second;
          continue;
        }
        return;
      }
    }
  }
}
