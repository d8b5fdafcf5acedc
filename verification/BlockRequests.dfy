/** virtio-blk requests over the disk, and what whole runs of them do to its contents. */
module BlockRequests {
  import opened Machine
  import opened BlockDisk

  const T_IN: u32 := 0
  const T_OUT: u32 := 1
  const T_FLUSH: u32 := 4
  const T_GET_ID: u32 := 8
  const S_OK: u8 := 0
  const S_IOERR: u8 := 1
  const S_UNSUPP: u8 := 2

  /** Geometry and what the driver negotiated. */
  datatype Config = Config(capacity: nat, readonly: bool, features: u64)

  predicate TookRo(cfg: Config) {
    cfg.features / 32 % 2 == 1
  }

  predicate TookFlush(cfg: Config) {
    cfg.features / 512 % 2 == 1
  }

  predicate WriteProtected(cfg: Config) {
    cfg.readonly || TookRo(cfg)
  }

  /** A request chain: its header if readable, the data bytes after it, and the writable bytes offered. */
  datatype Request = Request(hdr: Option<ReqHdr>, out: seq<u8>, space: nat)
  datatype ReqHdr = ReqHdr(kind: u32, sector: u64)

  /** No answer (the chain is returned with used length 1), or data followed by a status byte. */
  datatype Reply = Dropped | Answer(data: seq<u8>, status: u8)

  function UsedLength(r: Reply): nat {
    if r == Dropped then 1 else |r.data| + 1
  }

  /** Host results while serving one request; `zeroAlloc` is the allocation after a read that failed. */
  datatype Env = Env(alloc: bool, zeroAlloc: bool, first: Attempt, second: Attempt, syncs: seq<bool>)

  function Zeros(n: nat): (z: seq<u8>)
    ensures |z| == n && forall i :: 0 <= i < n ==> z[i] == 0
  {
    seq(n, _ => 0)
  }

  /** The serial number, padded to 20 bytes. */
  function DeviceId(): (id: seq<u8>)
    ensures |id| == 20
  {
    [107, 105, 116, 115, 117, 110, 101, 45, 98, 108, 107] + Zeros(9)
  }

  // ---- what a request may do ----

  function Offset(h: ReqHdr): nat {
    h.sector * SECTOR_SIZE
  }

  /** The multiplication and addition of `handle_request` fit 64 bits. */
  predicate Addressable(h: ReqHdr, len: nat) {
    Offset(h) < M64 && Offset(h) + len < M64
  }

  predicate InRange(h: ReqHdr, len: nat, cfg: Config) {
    Offset(h) + len <= cfg.capacity * SECTOR_SIZE
  }

  // ---- what the device promises, in sectors of 512 bytes ----

  /** A write the device is allowed to carry out. */
  predicate Permitted(cfg: Config, req: Request) {
    && req.hdr.Some? && req.hdr.value.kind == T_OUT && !cfg.readonly && cfg.features / 32 % 2 == 0
    && req.hdr.value.sector * 512 + |req.out| < M64 && req.hdr.value.sector * 512 + |req.out| <= cfg.capacity * 512
  }

  /** The request gets an answer: its arithmetic fits, its buffers suffice and the scratch buffer can hold it. */
  predicate Answerable(cfg: Config, req: Request, room: nat, env: Env) {
    && req.hdr.Some?
    && var h := req.hdr.value;
       if h.kind == T_IN then
         && req.space > 0 && h.sector * 512 + req.space - 1 < M64
         && (req.space - 1 <= room || env.alloc
             || (env.zeroAlloc && h.sector * 512 + req.space - 1 <= cfg.capacity * 512))
       else if h.kind == T_OUT then
         req.space > 0 && h.sector * 512 + |req.out| < M64 && (|req.out| <= room || env.alloc)
       else if h.kind == T_FLUSH then req.space > 0
       else if h.kind == T_GET_ID then req.space >= 21
       else req.space > 0 && (req.space - 1 <= room || env.alloc)
  }

  /** The request moves `len` bytes of the disk within its bounds. */
  predicate Transfers(cfg: Config, req: Request, len: nat) {
    && req.hdr.Some?
    && ((req.hdr.value.kind == T_IN && req.space > 0 && len == req.space - 1)
        || (req.hdr.value.kind == T_OUT && len == |req.out| && Permitted(cfg, req)))
    && req.hdr.value.sector * 512 + len <= cfg.capacity * 512 <= MAX_OFF
  }

  // ---- serving one request, as a function ----

  function SyncAt(syncs: seq<bool>, i: nat): bool {
    i < |syncs| && syncs[i]
  }

  /** `fsync_fd`: the ring, or after it failed the plain call; the ring afterwards and the outcome. */
  function Sync(ring: bool, viaRing: bool, plain: bool): (bool, bool) {
    if ring && viaRing then (true, true) else (false, plain)
  }

  /** `flush_data`: both descriptors while O_DIRECT is in use. */
  function Flush(v: Drive, syncs: seq<bool>): (Drive, bool) {
    var direct := v.useDirect && v.directFile;
    var a := if direct then Sync(v.ring, SyncAt(syncs, 0), SyncAt(syncs, 1)) else (v.ring, true);
    if !a.1 then (v.(ring := a.0), false)
    else
      var b := Sync(a.0, SyncAt(syncs, 2), SyncAt(syncs, 3));
      (v.(ring := b.0), b.1)
  }

  datatype Outcome = Outcome(drive: Drive, reply: Reply)

  /** A read within the disk: zeros and an error if the buffer or the transfer fails. */
  function ServeRead(v: Drive, offset: nat, len: nat, env: Env): Outcome
    requires offset + len <= |v.data|
  {
    var w := v.(room := Grown(v.room, len, env.alloc));
    if len > w.room then
      var z := v.(room := Grown(v.room, len, env.zeroAlloc));
      Outcome(z, if len <= z.room then Answer(Zeros(len), S_IOERR) else Dropped)
    else
      var r := Read(w, offset, len, env.first, env.second);
      Outcome(r.drive, if r.result == Ok then Answer(v.data[offset..offset + len], S_OK) else Answer(Zeros(len), S_IOERR))
  }

  function ServeIn(v: Drive, cfg: Config, h: ReqHdr, space: nat, env: Env): Outcome
    requires cfg.capacity * SECTOR_SIZE == |v.data|
  {
    if space == 0 || !Addressable(h, space - 1) then Outcome(v, Dropped)
    else
      var len := space - 1;
      if InRange(h, len, cfg) then ServeRead(v, Offset(h), len, env)
      else
        var w := v.(room := Grown(v.room, len, env.alloc));
        Outcome(w, if len <= w.room then Answer(Zeros(len), S_IOERR) else Dropped)
  }

  /** The data of a write reaches the scratch buffer. */
  predicate Loads(room: nat, req: Request, env: Env) {
    |req.out| <= room || env.alloc
  }

  function ServeOut(v: Drive, cfg: Config, req: Request, env: Env): Outcome
    requires cfg.capacity * SECTOR_SIZE == |v.data| && req.hdr.Some? && req.hdr.value.kind == T_OUT
  {
    if !Loads(v.room, req, env) then Outcome(v, Dropped)
    else
      var w := v.(room := Grown(v.room, |req.out|, env.alloc));
      if !Addressable(req.hdr.value, |req.out|) then Outcome(w, Dropped)
      else if WriteProtected(cfg) || !InRange(req.hdr.value, |req.out|, cfg) then
        Outcome(w, if req.space == 0 then Dropped else Answer([], S_IOERR))
      else
        var r := Write(w, Offset(req.hdr.value), req.out, env.first, env.second);
        Outcome(r.drive, if req.space == 0 then Dropped else Answer([], if r.result == Ok then S_OK else S_IOERR))
  }

  function ServeFlush(v: Drive, cfg: Config, space: nat, env: Env): Outcome {
    var r := if TookFlush(cfg) && !cfg.readonly then Flush(v, env.syncs) else (v, true);
    var status := if !TookFlush(cfg) then S_UNSUPP else if r.1 then S_OK else S_IOERR;
    Outcome(r.0, if space == 0 then Dropped else Answer([], status))
  }

  function ServeOther(v: Drive, space: nat, env: Env): Outcome {
    if space == 0 then Outcome(v, Dropped)
    else
      var w := v.(room := Grown(v.room, space - 1, env.alloc));
      Outcome(w, if space - 1 <= w.room then Answer(Zeros(space - 1), S_UNSUPP) else Dropped)
  }

  /** `handle_request`. */
  function Serve(v: Drive, cfg: Config, req: Request, env: Env): (r: Outcome)
    requires cfg.capacity * SECTOR_SIZE == |v.data|
    ensures |r.drive.data| == |v.data|
  {
    if req.hdr == None then Outcome(v, Dropped)
    else
      var h := req.hdr.value;
      if h.kind == T_IN then ServeIn(v, cfg, h, req.space, env)
      else if h.kind == T_OUT then ServeOut(v, cfg, req, env)
      else if h.kind == T_FLUSH then ServeFlush(v, cfg, req.space, env)
      else if h.kind == T_GET_ID then Outcome(v, if req.space < 21 then Dropped else Answer(DeviceId(), S_OK))
      else ServeOther(v, req.space, env)
  }

  /** What a request leaves of the buffer: it does not depend on the disk or on its I/O. */
  function RoomAfter(room: nat, cfg: Config, req: Request, env: Env): nat {
    if req.hdr == None then room
    else
      var h := req.hdr.value;
      if h.kind == T_IN then
        if req.space == 0 || !Addressable(h, req.space - 1) then room
        else if InRange(h, req.space - 1, cfg) && req.space - 1 > Grown(room, req.space - 1, env.alloc)
        then Grown(room, req.space - 1, env.zeroAlloc) else Grown(room, req.space - 1, env.alloc)
      else if h.kind == T_OUT then Grown(room, |req.out|, env.alloc)
      else if h.kind == T_FLUSH || h.kind == T_GET_ID || req.space == 0 then room
      else Grown(room, req.space - 1, env.alloc)
  }

  lemma ServeRoom(v: Drive, cfg: Config, req: Request, env: Env)
    requires cfg.capacity * SECTOR_SIZE == |v.data|
    ensures Serve(v, cfg, req, env).drive.room == RoomAfter(v.room, cfg, req, env)
  {
    if req.hdr.Some? && req.hdr.value.kind == T_IN {
      InRoom(v, cfg, req, env);
    }
  }

  lemma InRoom(v: Drive, cfg: Config, req: Request, env: Env)
    requires cfg.capacity * SECTOR_SIZE == |v.data| && req.hdr.Some? && req.hdr.value.kind == T_IN
    ensures ServeIn(v, cfg, req.hdr.value, req.space, env).drive.room == RoomAfter(v.room, cfg, req, env)
  {
  }

  // ---- what a request may do ----

  /** One served request; `loaded` says whether the data of a write reached the scratch buffer. */
  datatype Served = Served(cfg: Config, req: Request, loaded: bool, reply: Reply)

  /** The request is a permitted write that was carried out, wholly or in part. */
  predicate Carries(v: Served) {
    Permitted(v.cfg, v.req) && v.loaded
  }

  predicate Confirmed(v: Served) {
    v.reply.Answer? && v.reply.status == S_OK
  }

  /** How one request may move the disk from `d` to `d'` and be answered. */
  predicate Serves(v: Served, d: seq<u8>, d': seq<u8>) {
    && |d'| == |d|
    && (if Carries(v) then
          && Torn(d, d', v.req.hdr.value.sector * 512, v.req.out)
          && (Confirmed(v) ==> d' == Overwrite(d, v.req.hdr.value.sector * 512, v.req.out))
        else d' == d)
    && (Permitted(v.cfg, v.req) && v.req.space > 0 ==> (v.loaded <==> v.reply.Answer?))
    && (v.reply.Answer? ==> v.req.hdr.Some? && ReplyOk(v.cfg, v.req, v.req.hdr.value, d, v.reply))
  }

  /** The answer, by request type. */
  predicate ReplyOk(cfg: Config, req: Request, h: ReqHdr, d: seq<u8>, reply: Reply)
    requires reply.Answer?
  {
    && |reply.data| + 1 <= req.space
    && if h.kind == T_IN then
         && |reply.data| + 1 == req.space
         && (reply.status == S_OK || reply.status == S_IOERR)
         && (reply.status == S_OK ==> h.sector * 512 + |reply.data| <= |d| && |d| == cfg.capacity * 512
                                      && reply.data == d[h.sector * 512..h.sector * 512 + |reply.data|])
         && (reply.status != S_OK ==> reply.data == Zeros(|reply.data|))
       else if h.kind == T_OUT then
         && reply.data == []
         && (reply.status == S_OK || reply.status == S_IOERR)
         && (reply.status == S_OK ==> Permitted(cfg, req))
       else if h.kind == T_FLUSH then
         && reply.data == []
         && (reply.status == S_OK || reply.status == S_IOERR || reply.status == S_UNSUPP)
         && (reply.status == S_UNSUPP <==> cfg.features / 512 % 2 == 0)
         && (cfg.features / 512 % 2 == 1 && cfg.readonly ==> reply.status == S_OK)
       else if h.kind == T_GET_ID then
         && reply.status == S_OK && |reply.data| == 20
         && reply.data[..11] == [107, 105, 116, 115, 117, 110, 101, 45, 98, 108, 107]
         && forall i :: 11 <= i < 20 ==> reply.data[i] == 0
       else reply.data == Zeros(req.space - 1) && reply.status == S_UNSUPP
  }

  function Record(v: Drive, cfg: Config, req: Request, env: Env): Served
    requires cfg.capacity * SECTOR_SIZE == |v.data|
  {
    Served(cfg, req, Loads(v.room, req, env), Serve(v, cfg, req, env).reply)
  }

  /** Serving a request is always one of those moves. */
  lemma ServeServes(v: Drive, cfg: Config, req: Request, env: Env)
    requires cfg.capacity * SECTOR_SIZE == |v.data|
    ensures Serves(Record(v, cfg, req, env), v.data, Serve(v, cfg, req, env).drive.data)
  {
    if req.hdr.Some? {
      if req.hdr.value.kind == T_IN {
        InServes(v, cfg, req, env);
      } else if req.hdr.value.kind == T_OUT {
        OutServes(v, cfg, req, env);
      } else {
        OtherServes(v, cfg, req, env);
      }
    }
  }

  lemma InServes(v: Drive, cfg: Config, req: Request, env: Env)
    requires cfg.capacity * SECTOR_SIZE == |v.data| && req.hdr.Some? && req.hdr.value.kind == T_IN
    ensures var r := ServeIn(v, cfg, req.hdr.value, req.space, env);
            r.drive.data == v.data && (r.reply.Answer? ==> ReplyOk(cfg, req, req.hdr.value, v.data, r.reply))
  {
  }

  lemma OutServes(v: Drive, cfg: Config, req: Request, env: Env)
    requires cfg.capacity * SECTOR_SIZE == |v.data| && req.hdr.Some? && req.hdr.value.kind == T_OUT
    ensures Serves(Record(v, cfg, req, env), v.data, ServeOut(v, cfg, req, env).drive.data)
  {
    if Permitted(cfg, req) && Loads(v.room, req, env) {
      WriteTorn(v.(room := Grown(v.room, |req.out|, env.alloc)), Offset(req.hdr.value), req.out, env.first, env.second);
    }
  }

  lemma OtherServes(v: Drive, cfg: Config, req: Request, env: Env)
    requires cfg.capacity * SECTOR_SIZE == |v.data| && req.hdr.Some?
    requires req.hdr.value.kind != T_IN && req.hdr.value.kind != T_OUT
    ensures Serves(Record(v, cfg, req, env), v.data, Serve(v, cfg, req, env).drive.data)
  {
  }

  /** It is answered exactly when its arithmetic fits and its buffers suffice. */
  lemma ServeAnswers(v: Drive, cfg: Config, req: Request, env: Env)
    requires cfg.capacity * SECTOR_SIZE == |v.data|
    ensures Serve(v, cfg, req, env).reply.Answer? <==> Answerable(cfg, req, v.room, env)
  {
    if req.hdr.Some? && req.hdr.value.kind == T_IN {
      InAnswers(v, cfg, req, env);
    }
  }

  lemma InAnswers(v: Drive, cfg: Config, req: Request, env: Env)
    requires cfg.capacity * SECTOR_SIZE == |v.data| && req.hdr.Some? && req.hdr.value.kind == T_IN
    ensures ServeIn(v, cfg, req.hdr.value, req.space, env).reply.Answer? <==> Answerable(cfg, req, v.room, env)
  {
  }

  /** A transfer within its bounds whose calls get through reports OK. */
  lemma ServeTransfers(v: Drive, cfg: Config, req: Request, env: Env, len: nat)
    requires cfg.capacity * SECTOR_SIZE == |v.data| && Transfers(cfg, req, len)
    requires Answerable(cfg, req, v.room, env) && (len <= v.room || env.alloc)
    requires GetsThrough(env.first, env.second, v.Prefers(Offset(req.hdr.value), len), len)
    ensures Confirmed(Record(v, cfg, req, env))
  {
    var w := v.(room := Grown(v.room, len, env.alloc));
    var bytes := if req.hdr.value.kind == T_OUT then req.out else Zeros(len);
    ThroughIsOk(w, Offset(req.hdr.value), len, bytes, env.first, env.second);
  }

  /** Every descriptor in use was synced, through the ring while it worked and by the plain call after that. */
  predicate Synced(v: Drive, syncs: seq<bool>) {
    var direct := v.useDirect && v.directFile;
    && (direct ==> (v.ring && SyncAt(syncs, 0)) || SyncAt(syncs, 1))
    && ((v.ring && (direct ==> SyncAt(syncs, 0)) && SyncAt(syncs, 2)) || SyncAt(syncs, 3))
  }

  /** An answered FLUSH of a writable disk reports OK if and only if every descriptor in use was synced. */
  lemma FlushReports(v: Drive, cfg: Config, req: Request, env: Env)
    requires cfg.capacity * SECTOR_SIZE == |v.data|
    requires req.hdr.Some? && req.hdr.value.kind == T_FLUSH && req.space > 0
    requires cfg.features / 512 % 2 == 1 && !cfg.readonly
    ensures Serve(v, cfg, req, env).reply == Answer([], if Synced(v, env.syncs) then S_OK else S_IOERR)
  {
  }

  /** A flush that reports OK synced every descriptor in use; if the plain calls work it does. */
  lemma FlushSyncs(v: Drive, syncs: seq<bool>)
    ensures SyncAt(syncs, 1) && SyncAt(syncs, 3) ==> Flush(v, syncs).1
    ensures Flush(v, syncs).1 ==>
              && (SyncAt(syncs, 2) || SyncAt(syncs, 3))
              && (v.useDirect && v.directFile ==> SyncAt(syncs, 0) || SyncAt(syncs, 1))
  {
  }

  // ---- the request engine ----

  /** One `fsync_fd`. */
  method SyncFd(disk: Disk, viaRing: bool, plain: bool) returns (ok: bool)
    modifies disk`ring
    ensures (disk.ring, ok) == Sync(old(disk.ring), viaRing, plain)
  {
    if disk.ring {
      if viaRing {
        return true;
      }
      disk.ring := false;
    }
    return plain;
  }

  method FlushData(disk: Disk, syncs: seq<bool>) returns (ok: bool)
    modifies disk`ring
    ensures (disk.State(), ok) == Flush(old(disk.State()), syncs)
    ensures ok ==> SyncAt(syncs, 2) || SyncAt(syncs, 3)
    ensures ok && disk.useDirect && disk.directFile ==> SyncAt(syncs, 0) || SyncAt(syncs, 1)
    ensures SyncAt(syncs, 1) && SyncAt(syncs, 3) ==> ok
  {
    FlushSyncs(disk.State(), syncs);
    if disk.useDirect && disk.directFile {
      ok := SyncFd(disk, SyncAt(syncs, 0), SyncAt(syncs, 1));
      if !ok {
        return;
      }
    }
    ok := SyncFd(disk, SyncAt(syncs, 2), SyncAt(syncs, 3));
  }

  method HandleIn(disk: Disk, cfg: Config, h: ReqHdr, space: nat, env: Env) returns (reply: Reply)
    requires cfg.capacity * SECTOR_SIZE == |disk.data|
    modifies disk`scratch, disk`ring, disk`useDirect
    ensures Outcome(disk.State(), reply) == ServeIn(old(disk.State()), cfg, h, space, env)
  {
    if space == 0 {
      return Dropped;
    }
    var len := space - 1;
    if Offset(h) >= M64 || Offset(h) + len >= M64 {
      return Dropped;
    }
    if Offset(h) + len <= cfg.capacity * SECTOR_SIZE {
      reply := HandleRead(disk, Offset(h), len, env);
      return;
    }
    var ok := disk.ZeroScratch(len, env.alloc);
    if !ok {
      return Dropped;
    }
    assert disk.scratch[..len] == Zeros(len);
    reply := Answer(disk.scratch[..len], S_IOERR);
  }

  method HandleRead(disk: Disk, offset: nat, len: nat, env: Env) returns (reply: Reply)
    requires offset + len <= |disk.data|
    modifies disk`scratch, disk`ring, disk`useDirect
    ensures Outcome(disk.State(), reply) == ServeRead(old(disk.State()), offset, len, env)
  {
    var r := disk.ReadAt(offset, len, env.alloc, env.first, env.second);
    if r == Ok {
      assert disk.scratch[..len] == disk.data[offset..offset + len];
      return Answer(disk.scratch[..len], S_OK);
    }
    var ok := disk.ZeroScratch(len, env.zeroAlloc);
    if !ok {
      return Dropped;
    }
    assert disk.scratch[..len] == Zeros(len);
    reply := Answer(disk.scratch[..len], S_IOERR);
  }

  method HandleOut(disk: Disk, cfg: Config, req: Request, env: Env) returns (reply: Reply)
    requires cfg.capacity * SECTOR_SIZE == |disk.data| && req.hdr.Some? && req.hdr.value.kind == T_OUT
    modifies disk`data, disk`scratch, disk`ring, disk`useDirect
    ensures Outcome(disk.State(), reply) == ServeOut(old(disk.State()), cfg, req, env)
  {
    var h, out := req.hdr.value, req.out;
    var ok := disk.Ensure(|out|, env.alloc);
    if !ok {
      return Dropped;
    }
    disk.scratch := out + disk.scratch[|out|..];
    assert disk.scratch[..|out|] == out;
    if Offset(h) >= M64 || Offset(h) + |out| >= M64 {
      return Dropped;
    }
    var protected := cfg.readonly || TookRo(cfg);
    var outOfRange := Offset(h) + |out| > cfg.capacity * SECTOR_SIZE;
    var failed := false;
    if !protected && !outOfRange {
      var r := disk.WriteAt(Offset(h), |out|, env.first, env.second);
      failed := r.Failed?;
    }
    if req.space == 0 {
      return Dropped;
    }
    reply := Answer([], if protected || outOfRange || failed then S_IOERR else S_OK);
  }

  /** `handle_request`: an answer exactly when one is due, right for its type, and no byte changed but by a permitted write. */
  method HandleRequest(disk: Disk, cfg: Config, req: Request, env: Env) returns (reply: Reply)
    requires cfg.capacity * SECTOR_SIZE == |disk.data|
    modifies disk
    ensures Outcome(disk.State(), reply) == Serve(old(disk.State()), cfg, req, env)
    ensures Serves(Record(old(disk.State()), cfg, req, env), old(disk.data), disk.data)
    ensures reply.Answer? <==> Answerable(cfg, req, |old(disk.scratch)|, env)
    ensures reply == Dropped && req.space > 0 ==> disk.data == old(disk.data)
    ensures req.hdr.Some? && req.hdr.value.kind == T_FLUSH && req.space > 0
            && cfg.features / 512 % 2 == 1 && !cfg.readonly ==>
              reply == Answer([], if Synced(old(disk.State()), env.syncs) then S_OK else S_IOERR)
  {
    ServeServes(disk.State(), cfg, req, env);
    ServeAnswers(disk.State(), cfg, req, env);
    reply := Dispatch(disk, cfg, req, env);
  }

  method Dispatch(disk: Disk, cfg: Config, req: Request, env: Env) returns (reply: Reply)
    requires cfg.capacity * SECTOR_SIZE == |disk.data|
    modifies disk
    ensures Outcome(disk.State(), reply) == Serve(old(disk.State()), cfg, req, env)
  {
    if req.hdr == None {
      return Dropped;
    }
    var h := req.hdr.value;
    if h.kind == T_IN {
      reply := HandleIn(disk, cfg, h, req.space, env);
    } else if h.kind == T_OUT {
      reply := HandleOut(disk, cfg, req, env);
    } else if h.kind == T_FLUSH {
      var status: u8 := S_OK;
      if !TookFlush(cfg) {
        status := S_UNSUPP;
      } else if !cfg.readonly {
        var ok := FlushData(disk, env.syncs);
        status := if ok then S_OK else S_IOERR;
      }
      if req.space == 0 {
        return Dropped;
      }
      reply := Answer([], status);
    } else if h.kind == T_GET_ID {
      if req.space < 21 {
        return Dropped;
      }
      reply := Answer(DeviceId(), S_OK);
    } else {
      if req.space == 0 {
        return Dropped;
      }
      var ok := disk.ZeroScratch(req.space - 1, env.alloc);
      if !ok {
        return Dropped;
      }
      assert disk.scratch[..req.space - 1] == Zeros(req.space - 1);
      reply := Answer(disk.scratch[..req.space - 1], S_UNSUPP);
    }
  }
}
