/** Runs of virtio-blk requests: the queue that serves them and what requests and replies tell about the disk. */
module BlockRuns {
  import opened Machine
  import opened BlockDisk
  import opened BlockRequests

  // ---- the request queue ----

  /** A chain popped from the queue, with the configuration read beside it and the host results it meets. */
  datatype Popped = Popped(head: u16, cfg: Config, req: Request, env: Env)

  /** The chains are of this disk. */
  predicate Sized(v: Drive, chains: seq<Popped>) {
    forall i :: 0 <= i < |chains| ==> chains[i].cfg.capacity * SECTOR_SIZE == |v.data|
  }

  /** The disk after serving `chains` in order. */
  function After(v: Drive, chains: seq<Popped>): (r: Drive)
    requires Sized(v, chains)
    ensures |r.data| == |v.data|
  {
    if chains == [] then v
    else
      var c := chains[|chains| - 1];
      Serve(After(v, chains[..|chains| - 1]), c.cfg, c.req, c.env).drive
  }

  /** The requests with their replies. */
  function Log(v: Drive, chains: seq<Popped>): (run: seq<Served>)
    requires Sized(v, chains)
    ensures |run| == |chains|
  {
    if chains == [] then []
    else
      var c, before := chains[|chains| - 1], chains[..|chains| - 1];
      Log(v, before) + [Record(After(v, before), c.cfg, c.req, c.env)]
  }

  datatype Used = Used(head: u16, len: nat)

  /** The used-ring elements: each chain's head with the length of its reply. */
  function Returned(v: Drive, chains: seq<Popped>): (used: seq<Used>)
    requires Sized(v, chains)
    ensures |used| == |chains|
    ensures forall i :: 0 <= i < |used| ==>
              var reply := Log(v, chains)[i].reply;
              used[i] == Used(chains[i].head, if reply == Dropped then 1 else |reply.data| + 1)
  {
    if chains == [] then []
    else
      var c, before := chains[|chains| - 1], chains[..|chains| - 1];
      Returned(v, before) + [Used(c.head, UsedLength(Serve(After(v, before), c.cfg, c.req, c.env).reply))]
  }

  lemma PushChain(v: Drive, chains: seq<Popped>, i: nat)
    requires Sized(v, chains) && i < |chains|
    ensures var c, w := chains[i], After(v, chains[..i]);
            && After(v, chains[..i + 1]) == Serve(w, c.cfg, c.req, c.env).drive
            && Returned(v, chains[..i + 1]) ==
                 Returned(v, chains[..i]) + [Used(c.head, UsedLength(Serve(w, c.cfg, c.req, c.env).reply))]
  {
    assert chains[..i + 1][..i] == chains[..i];
  }

  method ServeChain(disk: Disk, c: Popped) returns (u: Used)
    requires c.cfg.capacity * SECTOR_SIZE == |disk.State().data|
    modifies disk
    ensures var r := Serve(old(disk.State()), c.cfg, c.req, c.env);
            disk.State() == r.drive && u == Used(c.head, UsedLength(r.reply))
  {
    var reply := HandleRequest(disk, c.cfg, c.req, c.env);
    u := Used(c.head, UsedLength(reply));
  }

  /** `process_queue`: serves the chains in order, each returned once with the length of its reply. */
  method ProcessQueue(disk: Disk, chains: seq<Popped>) returns (used: seq<Used>, signal: bool)
    requires Sized(disk.State(), chains)
    modifies disk
    ensures disk.State() == After(old(disk.State()), chains)
    ensures used == Returned(old(disk.State()), chains) && (signal <==> chains != [])
  {
    used, signal := [], false;
    ghost var v := disk.State();
    for i := 0 to |chains|
      invariant disk.State() == After(v, chains[..i])
      invariant used == Returned(v, chains[..i]) && (signal <==> i > 0)
    {
      var c := chains[i];
      PushChain(v, chains, i);
      var u := ServeChain(disk, c);
      used, signal := used + [u], true;
    }
    assert chains[..|chains|] == chains;
  }

  // ---- runs as the driver sees them ----

  /** The disk went through `ds` while the requests of `run` were served one after another. */
  predicate Run(ds: seq<seq<u8>>, run: seq<Served>) {
    && |ds| == |run| + 1
    && forall i :: 0 <= i < |run| ==> Serves(run[i], ds[i], ds[i + 1])
  }

  function Disks(v: Drive, chains: seq<Popped>): (ds: seq<seq<u8>>)
    requires Sized(v, chains)
    ensures |ds| == |chains| + 1 && ds[0] == v.data && ds[|chains|] == After(v, chains).data
  {
    if chains == [] then [v.data] else Disks(v, chains[..|chains| - 1]) + [After(v, chains).data]
  }

  /** What the queue does is such a run. */
  lemma {:induction false} QueueIsRun(v: Drive, chains: seq<Popped>)
    requires Sized(v, chains)
    ensures Run(Disks(v, chains), Log(v, chains))
  {
    if chains != [] {
      var c, before := chains[|chains| - 1], chains[..|chains| - 1];
      QueueIsRun(v, before);
      ServeServes(After(v, before), c.cfg, c.req, c.env);
      RunPush(Disks(v, before), Log(v, before), Record(After(v, before), c.cfg, c.req, c.env), After(v, chains).data);
    }
  }

  lemma RunPush(ds: seq<seq<u8>>, run: seq<Served>, v: Served, d: seq<u8>)
    requires Run(ds, run) && Serves(v, ds[|run|], d)
    ensures Run(ds + [d], run + [v])
  {
  }

  lemma RunPrefix(ds: seq<seq<u8>>, run: seq<Served>)
    requires Run(ds, run) && run != []
    ensures var k := |run| - 1;
            Run(ds[..k + 1], run[..k]) && ds[..k + 1][k] == ds[k] && Serves(run[k], ds[k], ds[k + 1])
  {
  }

  lemma {:induction false} RunLength(ds: seq<seq<u8>>, run: seq<Served>)
    requires Run(ds, run)
    ensures |ds[|run|]| == |ds[0]|
    decreases |run|
  {
    if run != [] {
      RunPrefix(ds, run);
      RunLength(ds[..|run|], run[..|run| - 1]);
    }
  }

  /** A read-only image, or a driver that took F_RO, never sees a byte change. */
  lemma {:induction false} ProtectedRunChangesNothing(ds: seq<seq<u8>>, run: seq<Served>)
    requires Run(ds, run) && forall i :: 0 <= i < |run| ==> run[i].cfg.readonly || run[i].cfg.features / 32 % 2 == 1
    ensures ds[|run|] == ds[0]
    decreases |run|
  {
    if run != [] {
      RunPrefix(ds, run);
      ProtectedRunChangesNothing(ds[..|run|], run[..|run| - 1]);
    }
  }

  // ---- what the replies say about a byte ----

  /** The request is a write carried out that covers byte `j`. */
  predicate Writes(v: Served, j: nat) {
    && Carries(v)
    && v.req.hdr.value.sector * 512 <= j < v.req.hdr.value.sector * 512 + |v.req.out|
  }

  function Written(v: Served, j: nat): u8
    requires Writes(v, j)
  {
    v.req.out[j - v.req.hdr.value.sector * 512]
  }

  /** The request is a read that succeeded and covers byte `j`. */
  predicate Shows(v: Served, j: nat) {
    && v.req.hdr.Some? && v.req.hdr.value.kind == T_IN && Confirmed(v)
    && v.req.hdr.value.sector * 512 <= j < v.req.hdr.value.sector * 512 + |v.reply.data|
  }

  function Shown(v: Served, j: nat): u8
    requires Shows(v, j)
  {
    v.reply.data[j - v.req.hdr.value.sector * 512]
  }

  /**
   The values byte `j` may have after a run, as far as requests, allocations and replies tell: a confirmed write or
   a successful read decides it, an unconfirmed write adds one possibility, a write that never reached the
   buffer none.
   */
  function Possible(start: u8, run: seq<Served>, j: nat): set<u8>
    decreases |run|
  {
    if run == [] then {start} else Narrow(Possible(start, run[..|run| - 1], j), run[|run| - 1], j)
  }

  function Narrow(before: set<u8>, v: Served, j: nat): set<u8> {
    if Shows(v, j) then {Shown(v, j)}
    else if !Writes(v, j) then before
    else if Confirmed(v) then {Written(v, j)}
    else before + {Written(v, j)}
  }

  lemma OverwriteByte(d: seq<u8>, at: nat, bytes: seq<u8>, j: nat)
    requires at + |bytes| <= |d| && j < |d|
    ensures Overwrite(d, at, bytes)[j] == if at <= j < at + |bytes| then bytes[j - at] else d[j]
  {
  }

  lemma ServedByte(v: Served, d: seq<u8>, d': seq<u8>, j: nat)
    requires Serves(v, d, d') && j < |d|
    ensures Shows(v, j) ==> d'[j] == d[j] == Shown(v, j)
    ensures !Writes(v, j) ==> d'[j] == d[j]
    ensures Writes(v, j) ==> d'[j] == Written(v, j) || (d'[j] == d[j] && !Confirmed(v))
  {
    if Writes(v, j) {
      var at := v.req.hdr.value.sector * 512;
      assert j == at + (j - at);
      if Confirmed(v) {
        OverwriteByte(d, at, v.req.out, j);
      }
    }
  }

  /** Whatever the run, failed and torn writes included, the byte is one of the possible values. */
  lemma {:induction false} ByteIsPossible(ds: seq<seq<u8>>, run: seq<Served>, j: nat)
    requires Run(ds, run) && j < |ds[0]|
    ensures |ds[|run|]| == |ds[0]| && ds[|run|][j] in Possible(ds[0][j], run, j)
    decreases |run|
  {
    if run != [] {
      var k := |run| - 1;
      RunPrefix(ds, run);
      ByteIsPossible(ds[..k + 1], run[..k], j);
      ServedByte(run[k], ds[k], ds[k + 1], j);
    }
  }

  // ---- and each possible value is real ----

  /** The same requests and allocations, met by possibly different I/O. */
  predicate SameButIo(a: seq<Popped>, b: seq<Popped>) {
    |a| == |b| && forall i :: 0 <= i < |a| ==> SameChain(a[i], b[i])
  }

  predicate SameChain(a: Popped, b: Popped) {
    b.head == a.head && b.cfg == a.cfg && b.req == a.req && SameAllocs(a.env, b.env)
  }

  predicate SameAllocs(a: Env, b: Env) {
    b.alloc == a.alloc && b.zeroAlloc == a.zeroAlloc
  }

  /** Calls that move everything at once, or that fail with the bytes at `hit` written; a ring gives up at once. */
  function Whole(len: nat): Attempt {
    Attempt([], [Did(len)])
  }

  function Fails(hit: set<nat>): Attempt {
    Attempt([], [Error(false, hit)])
  }

  lemma NoRing(d: seq<u8>, offset: nat, bytes: seq<u8>)
    requires offset + |bytes| <= |d| && bytes != []
    ensures WriteCalls(d, offset, bytes, 0, [], true) == Transfer(d, Failed(false))
  {
  }

  lemma OneWrite(d: seq<u8>, offset: nat, bytes: seq<u8>, io: Io)
    requires offset + |bytes| <= |d| <= MAX_OFF && bytes != [] && !io.Interrupted?
    ensures var t := WriteCalls(d, offset, bytes, 0, [io], false);
            && (io == Did(|bytes|) ==> t == Transfer(Overwrite(d, offset, bytes), Ok))
            && (io.Error? ==> t == Transfer(Hit(d, offset, bytes, io.hit), Failed(io.einval)))
  {
    assert bytes[0..|bytes|] == bytes && bytes[0..] == bytes;
    assert [io][1..] == [];
  }

  lemma WholeWrites(v: Drive, offset: nat, bytes: seq<u8>)
    requires offset + |bytes| <= |v.data| <= MAX_OFF
    ensures var r := Write(v, offset, bytes, Whole(|bytes|), Whole(|bytes|));
            r.result == Ok && r.drive.data == Overwrite(v.data, offset, bytes)
  {
    if bytes == [] {
      assert Overwrite(v.data, offset, bytes) == v.data;
    } else {
      NoRing(v.data, offset, bytes);
      OneWrite(v.data, offset, bytes, Did(|bytes|));
    }
  }

  lemma FailsWrites(v: Drive, offset: nat, bytes: seq<u8>, hit: set<nat>)
    requires offset + |bytes| <= |v.data| <= MAX_OFF && bytes != []
    ensures var r := Write(v, offset, bytes, Fails(hit), Fails(hit));
            r.result == Failed(false) && r.drive.data == Hit(v.data, offset, bytes, hit)
  {
    NoRing(v.data, offset, bytes);
    OneWrite(v.data, offset, bytes, Error(false, hit));
  }

  lemma WholeReads(v: Drive, offset: nat, len: nat)
    requires offset + len <= |v.data| <= MAX_OFF
    ensures Read(v, offset, len, Whole(len), Whole(len)).result == Ok
  {
    if len > 0 {
      assert [Did(len)][1..] == [];
      assert ReadCalls(|v.data|, offset, len, 0, [Did(len)], false) == Ok;
    }
  }

  lemma FailsReads(v: Drive, offset: nat, len: nat)
    requires len > 0
    ensures Read(v, offset, len, Fails({}), Fails({})).result == Failed(false)
  {
    assert ReadCalls(|v.data|, offset, len, 0, [Error(false, {})], false) == Failed(false);
  }

  /** One request: any move its record allows, from any disk of its size with the same buffer, is met by some I/O. */
  lemma StepReal(v: Drive, w: Drive, cfg: Config, req: Request, env: Env, d: seq<u8>) returns (io: Env)
    requires cfg.capacity * SECTOR_SIZE == |v.data| == |w.data| <= MAX_OFF && w.room == v.room
    requires Serves(Record(v, cfg, req, env), w.data, d)
    ensures SameAllocs(env, io)
    ensures Record(w, cfg, req, io) == Record(v, cfg, req, env) && Serve(w, cfg, req, io).drive.data == d
    ensures Serve(w, cfg, req, io).drive.room == Serve(v, cfg, req, env).drive.room
  {
    io := env;
    if req.hdr.Some? {
      if req.hdr.value.kind == T_IN {
        io := InStepReal(v, w, cfg, req, env, d);
      } else if req.hdr.value.kind == T_OUT {
        io := OutStepReal(v, w, cfg, req, env, d);
      } else if req.hdr.value.kind == T_FLUSH {
        io := FlushReal(v, w, cfg, req, env, d);
      }
    }
    RoomReal(v, w, cfg, req, env, io);
  }

  lemma RoomReal(v: Drive, w: Drive, cfg: Config, req: Request, env: Env, io: Env)
    requires cfg.capacity * SECTOR_SIZE == |v.data| == |w.data| && w.room == v.room && SameAllocs(env, io)
    ensures Serve(w, cfg, req, io).drive.room == Serve(v, cfg, req, env).drive.room
  {
    ServeRoom(v, cfg, req, env);
    ServeRoom(w, cfg, req, io);
  }

  lemma InStepReal(v: Drive, w: Drive, cfg: Config, req: Request, env: Env, d: seq<u8>) returns (io: Env)
    requires cfg.capacity * SECTOR_SIZE == |v.data| == |w.data| <= MAX_OFF && w.room == v.room
    requires req.hdr.Some? && req.hdr.value.kind == T_IN && Serves(Record(v, cfg, req, env), w.data, d)
    ensures SameAllocs(env, io)
    ensures Record(w, cfg, req, io) == Record(v, cfg, req, env) && Serve(w, cfg, req, io).drive.data == d
  {
    ReadMoves(Record(v, cfg, req, env), w.data, d);
    io := InReal(v, w, cfg, req.hdr.value, req.space, env);
  }

  lemma ReadMoves(r: Served, d: seq<u8>, d': seq<u8>)
    requires r.req.hdr.Some? && r.req.hdr.value.kind == T_IN && Serves(r, d, d')
    ensures d' == d
    ensures Confirmed(r) ==>
              && |r.reply.data| + 1 == r.req.space && r.req.hdr.value.sector * 512 + |r.reply.data| <= |d|
              && r.reply.data == d[r.req.hdr.value.sector * 512..r.req.hdr.value.sector * 512 + |r.reply.data|]
  {
  }

  lemma InReal(v: Drive, w: Drive, cfg: Config, h: ReqHdr, space: nat, env: Env) returns (io: Env)
    requires cfg.capacity * SECTOR_SIZE == |v.data| == |w.data| <= MAX_OFF && w.room == v.room
    requires var reply := ServeIn(v, cfg, h, space, env).reply;
             reply.Answer? && reply.status == S_OK ==>
               && |reply.data| + 1 == space && Offset(h) + |reply.data| <= |w.data|
               && reply.data == w.data[Offset(h)..Offset(h) + |reply.data|]
    ensures SameAllocs(env, io)
    ensures ServeIn(w, cfg, h, space, io).reply == ServeIn(v, cfg, h, space, env).reply
    ensures ServeIn(w, cfg, h, space, io).drive.data == w.data
  {
    io := env;
    if space > 0 && Addressable(h, space - 1) && InRange(h, space - 1, cfg) {
      io := ReadReal(v, w, Offset(h), space - 1, env);
    }
  }

  lemma ReadReal(v: Drive, w: Drive, offset: nat, len: nat, env: Env) returns (io: Env)
    requires offset + len <= |v.data| == |w.data| <= MAX_OFF && w.room == v.room
    requires var reply := ServeRead(v, offset, len, env).reply;
             reply.Answer? && reply.status == S_OK ==> reply.data == w.data[offset..offset + len]
    ensures SameAllocs(env, io)
    ensures ServeRead(w, offset, len, io).reply == ServeRead(v, offset, len, env).reply
    ensures ServeRead(w, offset, len, io).drive.data == w.data
  {
    var u := w.(room := Grown(w.room, len, env.alloc));
    var reply := ServeRead(v, offset, len, env).reply;
    io := env;
    if reply.Answer? && reply.status == S_OK {
      io := env.(first := Whole(len), second := Whole(len));
      WholeReads(u, offset, len);
    } else if 0 < len <= u.room {
      io := env.(first := Fails({}), second := Fails({}));
      FailsReads(u, offset, len);
    }
  }

  lemma OutStepReal(v: Drive, w: Drive, cfg: Config, req: Request, env: Env, d: seq<u8>) returns (io: Env)
    requires cfg.capacity * SECTOR_SIZE == |v.data| == |w.data| <= MAX_OFF && w.room == v.room
    requires req.hdr.Some? && req.hdr.value.kind == T_OUT && Serves(Record(v, cfg, req, env), w.data, d)
    ensures SameAllocs(env, io)
    ensures Record(w, cfg, req, io) == Record(v, cfg, req, env) && Serve(w, cfg, req, io).drive.data == d
  {
    WriteMoves(Record(v, cfg, req, env), w.data, d);
    io := OutReal(v, w, cfg, req, env, d);
  }

  lemma WriteMoves(r: Served, d: seq<u8>, d': seq<u8>)
    requires r.req.hdr.Some? && r.req.hdr.value.kind == T_OUT && Serves(r, d, d')
    ensures Permitted(r.cfg, r.req) && r.loaded ==>
              && Torn(d, d', r.req.hdr.value.sector * 512, r.req.out)
              && (Confirmed(r) || r.req.out == [] ==> d' == Overwrite(d, r.req.hdr.value.sector * 512, r.req.out))
    ensures !Permitted(r.cfg, r.req) || !r.loaded ==> d' == d
  {
    if Permitted(r.cfg, r.req) && r.loaded && r.req.out == [] {
      assert Overwrite(d, r.req.hdr.value.sector * 512, r.req.out) == d == d';
    }
  }

  lemma OutReal(v: Drive, w: Drive, cfg: Config, req: Request, env: Env, d: seq<u8>) returns (io: Env)
    requires cfg.capacity * SECTOR_SIZE == |v.data| == |w.data| <= MAX_OFF && w.room == v.room
    requires req.hdr.Some? && req.hdr.value.kind == T_OUT
    requires if Permitted(cfg, req) && Loads(v.room, req, env) then
               && Torn(w.data, d, req.hdr.value.sector * 512, req.out)
               && (ServeOut(v, cfg, req, env).reply == Answer([], S_OK) || req.out == [] ==>
                     d == Overwrite(w.data, req.hdr.value.sector * 512, req.out))
             else d == w.data
    ensures SameAllocs(env, io)
    ensures ServeOut(w, cfg, req, io).reply == ServeOut(v, cfg, req, env).reply
    ensures ServeOut(w, cfg, req, io).drive.data == d
  {
    io := env;
    if Permitted(cfg, req) && Loads(v.room, req, env) {
      var at := req.hdr.value.sector * 512;
      var ok := ServeOut(v, cfg, req, env).reply == Answer([], S_OK) || req.out == [];
      OutIs(v, cfg, req, env, at);
      var a := WriteReal(w.(room := Grown(w.room, |req.out|, env.alloc)), at, req.out, ok, d);
      io := env.(first := a, second := a);
      OutIs(w, cfg, req, io, at);
    } else {
      OutRefused(v, w, cfg, req, env);
    }
  }

  /** A permitted write that reached the buffer is what the disk makes of it. */
  lemma OutIs(v: Drive, cfg: Config, req: Request, env: Env, at: nat)
    requires cfg.capacity * SECTOR_SIZE == |v.data| && req.hdr.Some? && req.hdr.value.kind == T_OUT
    requires Permitted(cfg, req) && Loads(v.room, req, env) && at == req.hdr.value.sector * 512
    ensures at + |req.out| <= |v.data|
    ensures var r := Write(v.(room := Grown(v.room, |req.out|, env.alloc)), at, req.out, env.first, env.second);
            && ServeOut(v, cfg, req, env).drive == r.drive
            && ServeOut(v, cfg, req, env).reply ==
               (if req.space == 0 then Dropped else Answer([], if r.result == Ok then S_OK else S_IOERR))
            && (req.out == [] ==> r.result == Ok)
  {
  }

  lemma OutRefused(v: Drive, w: Drive, cfg: Config, req: Request, env: Env)
    requires cfg.capacity * SECTOR_SIZE == |v.data| == |w.data| && w.room == v.room
    requires req.hdr.Some? && req.hdr.value.kind == T_OUT && !(Permitted(cfg, req) && Loads(v.room, req, env))
    ensures ServeOut(w, cfg, req, env).reply == ServeOut(v, cfg, req, env).reply
    ensures ServeOut(w, cfg, req, env).drive.data == w.data
  {
  }

  /** Calls that leave a torn disk as it is and fail, or write the whole range. */
  lemma WriteReal(u: Drive, at: nat, bytes: seq<u8>, ok: bool, d: seq<u8>) returns (a: Attempt)
    requires at + |bytes| <= |u.data| <= MAX_OFF && Torn(u.data, d, at, bytes)
    requires ok ==> d == Overwrite(u.data, at, bytes)
    requires bytes == [] ==> ok
    ensures var r := Write(u, at, bytes, a, a); r.drive.data == d && (r.result == Ok <==> ok)
  {
    if ok {
      a := Whole(|bytes|);
      WholeWrites(u, at, bytes);
    } else {
      var hit := TornIsHit(u.data, d, at, bytes);
      a := Fails(hit);
      FailsWrites(u, at, bytes, hit);
    }
  }

  lemma FlushReal(v: Drive, w: Drive, cfg: Config, req: Request, env: Env, d: seq<u8>) returns (io: Env)
    requires cfg.capacity * SECTOR_SIZE == |v.data| == |w.data|
    requires req.hdr.Some? && req.hdr.value.kind == T_FLUSH && Serves(Record(v, cfg, req, env), w.data, d)
    requires w.room == v.room
    ensures SameAllocs(env, io)
    ensures Record(w, cfg, req, io) == Record(v, cfg, req, env) && Serve(w, cfg, req, io).drive.data == d
  {
    var ok := Flush(v, env.syncs).1;
    io := env.(syncs := [ok, ok, ok, ok]);
  }

  /** A request does not see byte `j` unless it writes or shows it. */
  lemma ServesOther(v: Served, d: seq<u8>, d': seq<u8>, j: nat, was: u8, b: u8)
    requires Serves(v, d, d') && j < |d|
    requires Shows(v, j) ==> was == b == d[j]
    requires !Writes(v, j) ==> was == b
    requires Writes(v, j) ==> b == Written(v, j) || (b == was && !Confirmed(v))
    ensures Serves(v, d[j := was], d'[j := b])
  {
    if Carries(v) {
      OtherTorn(d, d', v.req.hdr.value.sector * 512, v.req.out, j, was, b);
      if Confirmed(v) {
        OtherOverwrite(d, v.req.hdr.value.sector * 512, v.req.out, j, was, b);
      }
    }
    if v.reply.Answer? {
      OtherReply(v, d, j, was);
    }
  }

  lemma OtherTorn(d: seq<u8>, d': seq<u8>, at: nat, bytes: seq<u8>, j: nat, was: u8, b: u8)
    requires Torn(d, d', at, bytes) && j < |d|
    requires if at <= j < at + |bytes| then b == was || b == bytes[j - at] else was == b
    ensures Torn(d[j := was], d'[j := b], at, bytes)
  {
    var e, e' := d[j := was], d'[j := b];
    forall i | 0 <= i < |bytes| ensures e'[at + i] == e[at + i] || e'[at + i] == bytes[i] {
      assert d'[at + i] == d[at + i] || d'[at + i] == bytes[i];
    }
  }

  lemma OtherOverwrite(d: seq<u8>, at: nat, bytes: seq<u8>, j: nat, was: u8, b: u8)
    requires at + |bytes| <= |d| && j < |d|
    requires if at <= j < at + |bytes| then b == bytes[j - at] else was == b
    ensures Overwrite(d[j := was], at, bytes) == Overwrite(d, at, bytes)[j := b]
  {
    var x, y := Overwrite(d[j := was], at, bytes), Overwrite(d, at, bytes)[j := b];
    forall i | 0 <= i < |d| ensures x[i] == y[i] {
      OverwriteByte(d[j := was], at, bytes, i);
      OverwriteByte(d, at, bytes, i);
    }
  }

  lemma OtherReply(v: Served, d: seq<u8>, j: nat, was: u8)
    requires v.reply.Answer? && v.req.hdr.Some? && ReplyOk(v.cfg, v.req, v.req.hdr.value, d, v.reply) && j < |d|
    requires Shows(v, j) ==> was == d[j]
    ensures ReplyOk(v.cfg, v.req, v.req.hdr.value, d[j := was], v.reply)
  {
    var h := v.req.hdr.value;
    if h.kind == T_IN && Confirmed(v) {
      var at, n := Offset(h), |v.reply.data|;
      assert d[j := was][at..at + n] == d[at..at + n];
    }
  }

  /** The value byte `j` must have had before the request for it to be `b` afterwards. */
  lemma ValueBefore(r: Served, d: seq<u8>, d': seq<u8>, j: nat, b: u8, before: set<u8>) returns (was: u8)
    requires Serves(r, d, d') && j < |d| && d[j] in before && b in Narrow(before, r, j)
    ensures was in before && Serves(r, d[j := was], d'[j := b])
  {
    ServedByte(r, d, d', j);
    was := if !Shows(r, j) && b in before && (!Writes(r, j) || !Confirmed(r)) then b else d[j];
    ServesOther(r, d, d', j, was, b);
  }

  /**
   Each possible value is real: some I/O results under which the queue, given the same requests and allocations,
   gives the same replies and leaves that value there, all other bytes being the same.
   */
  lemma {:induction false} PossibleIsReal(v: Drive, chains: seq<Popped>, j: nat, b: u8) returns (other: seq<Popped>)
    requires Sized(v, chains) && j < |v.data| <= MAX_OFF && b in Possible(v.data[j], Log(v, chains), j)
    ensures SameButIo(chains, other) && Sized(v, other)
    ensures Log(v, other) == Log(v, chains) && After(v, other).data == After(v, chains).data[j := b]
    ensures After(v, other).room == After(v, chains).room
  {
    if chains == [] {
      other := [];
    } else {
      var k := |chains| - 1;
      var c, before := chains[k], chains[..k];
      assert before + [c] == chains;
      var was := LastValue(v, before, c, j, b);
      var prefix := PossibleIsReal(v, before, j, was);
      other := OneMoreReal(v, before, prefix, c, After(v, chains).data[j := b]);
    }
  }

  lemma LastValue(v: Drive, before: seq<Popped>, c: Popped, j: nat, b: u8) returns (was: u8)
    requires Sized(v, before) && Sized(v, before + [c]) && j < |v.data|
    requires b in Possible(v.data[j], Log(v, before + [c]), j)
    ensures was in Possible(v.data[j], Log(v, before), j) && c.cfg.capacity * SECTOR_SIZE == |v.data|
    ensures Serves(Record(After(v, before), c.cfg, c.req, c.env), After(v, before).data[j := was],
                   After(v, before + [c]).data[j := b])
  {
    var u := After(v, before);
    assert c == (before + [c])[|before|];
    Appended(v, before, c);
    QueueByte(v, before, j);
    ServeServes(u, c.cfg, c.req, c.env);
    was := ValueBefore(Record(u, c.cfg, c.req, c.env), u.data, After(v, before + [c]).data, j, b,
                       Possible(v.data[j], Log(v, before), j));
  }

  lemma QueueByte(v: Drive, chains: seq<Popped>, j: nat)
    requires Sized(v, chains) && j < |v.data|
    ensures After(v, chains).data[j] in Possible(v.data[j], Log(v, chains), j)
  {
    QueueIsRun(v, chains);
    ByteIsPossible(Disks(v, chains), Log(v, chains), j);
  }

  /** Two runs with the same replies, extended by one request. */
  lemma OneMoreReal(v: Drive, a: seq<Popped>, b: seq<Popped>, c: Popped, d: seq<u8>) returns (other: seq<Popped>)
    requires Sized(v, a + [c]) && Sized(v, a) && Sized(v, b) && SameButIo(a, b) && |v.data| <= MAX_OFF
    requires c.cfg.capacity * SECTOR_SIZE == |v.data|
    requires Log(v, b) == Log(v, a) && After(v, b).room == After(v, a).room
    requires Serves(Record(After(v, a), c.cfg, c.req, c.env), After(v, b).data, d)
    ensures SameButIo(a + [c], other) && Sized(v, other) && Log(v, other) == Log(v, a + [c])
    ensures After(v, other).data == d && After(v, other).room == After(v, a + [c]).room
  {
    var io := StepReal(After(v, a), After(v, b), c.cfg, c.req, c.env, d);
    other := b + [c.(env := io)];
    Appended(v, a, c);
    Appended(v, b, c.(env := io));
  }

  lemma Appended(v: Drive, chains: seq<Popped>, c: Popped)
    requires Sized(v, chains) && c.cfg.capacity * SECTOR_SIZE == |v.data|
    ensures Sized(v, chains + [c])
    ensures After(v, chains + [c]) == Serve(After(v, chains), c.cfg, c.req, c.env).drive
    ensures Log(v, chains + [c]) == Log(v, chains) + [Record(After(v, chains), c.cfg, c.req, c.env)]
  {
    assert (chains + [c])[..|chains|] == chains;
  }

  /** So `Possible` is exactly what can be concluded from the replies. */
  lemma PossibleExactly(v: Drive, chains: seq<Popped>, j: nat, b: u8)
    requires Sized(v, chains) && j < |v.data| <= MAX_OFF
    ensures b in Possible(v.data[j], Log(v, chains), j) <==>
            exists other :: SameButIo(chains, other) && Sized(v, other) && Log(v, other) == Log(v, chains)
                            && After(v, other).data[j] == b
  {
    if b in Possible(v.data[j], Log(v, chains), j) {
      var other := PossibleIsReal(v, chains, j, b);
      assert SameButIo(chains, other);
    }
    forall other | SameButIo(chains, other) && Sized(v, other) && Log(v, other) == Log(v, chains)
      ensures After(v, other).data[j] in Possible(v.data[j], Log(v, chains), j)
    {
      QueueByte(v, other, j);
    }
  }

  // ---- the disk as the fold of its writes ----

  /** The plain array after carrying out every write in order. */
  function Carried(d: seq<u8>, run: seq<Served>): (r: seq<u8>)
    ensures |r| == |d|
    decreases |run|
  {
    if run == [] then d
    else
      var before := Carried(d, run[..|run| - 1]);
      var v := run[|run| - 1];
      if Carries(v) && v.req.hdr.value.sector * 512 + |v.req.out| <= |d|
      then Overwrite(before, v.req.hdr.value.sector * 512, v.req.out)
      else before
  }

  /** The last write carried out that covers byte `j`, if any, was confirmed. */
  predicate Settled(run: seq<Served>, j: nat)
    decreases |run|
  {
    run == [] ||
    var v := run[|run| - 1];
    if Writes(v, j) then Confirmed(v) else Settled(run[..|run| - 1], j)
  }

  /** Such a byte holds what the plain array holds, however many earlier writes failed. */
  lemma {:induction false} RunIsFold(ds: seq<seq<u8>>, run: seq<Served>, j: nat)
    requires Run(ds, run) && j < |ds[0]| && Settled(run, j)
    ensures |ds[|run|]| == |ds[0]| && ds[|run|][j] == Carried(ds[0], run)[j]
    decreases |run|
  {
    RunLength(ds, run);
    if run != [] {
      var k := |run| - 1;
      var v := run[k];
      RunPrefix(ds, run);
      RunLength(ds[..k + 1], run[..k]);
      ServedByte(v, ds[k], ds[k + 1], j);
      if Carries(v) {
        OverwriteByte(Carried(ds[0], run[..k]), v.req.hdr.value.sector * 512, v.req.out, j);
      }
      if !Writes(v, j) {
        RunIsFold(ds[..k + 1], run[..k], j);
      }
    }
  }

  /** The whole disk, once every byte is settled. */
  lemma SettledRunIsFold(ds: seq<seq<u8>>, run: seq<Served>)
    requires Run(ds, run) && forall j :: 0 <= j < |ds[0]| ==> Settled(run, j)
    ensures ds[|run|] == Carried(ds[0], run)
  {
    RunLength(ds, run);
    forall j | 0 <= j < |ds[0]| ensures ds[|run|][j] == Carried(ds[0], run)[j] {
      RunIsFold(ds, run, j);
    }
  }

  /** Each byte of a successful read is possible, and is the fold's if it is settled. */
  lemma ReadSeesWrites(ds: seq<seq<u8>>, run: seq<Served>, read: Served, d': seq<u8>, i: nat)
    requires Run(ds, run) && Serves(read, ds[|run|], d')
    requires read.req.hdr.Some? && read.req.hdr.value.kind == T_IN && Confirmed(read) && i < |read.reply.data|
    ensures var j := read.req.hdr.value.sector * 512 + i;
            && j < |ds[0]|
            && read.reply.data[i] in Possible(ds[0][j], run, j)
            && (Settled(run, j) ==> read.reply.data[i] == Carried(ds[0], run)[j])
  {
    ByteRead(read, ds[|run|], d', i);
    ByteSeen(ds, run, read.req.hdr.value.sector * 512 + i, read.reply.data[i]);
  }

  /** A byte of a successful read is the byte there. */
  lemma ByteRead(read: Served, d: seq<u8>, d': seq<u8>, i: nat)
    requires Serves(read, d, d')
    requires read.req.hdr.Some? && read.req.hdr.value.kind == T_IN && Confirmed(read) && i < |read.reply.data|
    ensures var j := read.req.hdr.value.sector * 512 + i; j < |d| && read.reply.data[i] == d[j]
  {
  }

  lemma ByteSeen(ds: seq<seq<u8>>, run: seq<Served>, j: nat, b: u8)
    requires Run(ds, run) && j < |ds[|run|]| && ds[|run|][j] == b
    ensures j < |ds[0]| && b in Possible(ds[0][j], run, j)
    ensures Settled(run, j) ==> b == Carried(ds[0], run)[j]
  {
    RunLength(ds, run);
    ByteIsPossible(ds, run, j);
    if Settled(run, j) {
      RunIsFold(ds, run, j);
    }
  }

  /** Without that the fold can fail: a one-sector write whose call errors after its first byte. */
  function TornChain(): Popped {
    Popped(0, Config(1, false, 0), Request(Some(ReqHdr(T_OUT, 0)), Ones(), 1), Env(true, true, Fails({0}), Fails({0}), []))
  }

  function Ones(): (ones: seq<u8>)
    ensures |ones| == SECTOR_SIZE && forall i :: 0 <= i < SECTOR_SIZE ==> ones[i] == 1
  {
    seq(SECTOR_SIZE, _ => 1)
  }

  /** The queue reports the error and leaves a disk that is neither the old nor the new. */
  lemma TornWrite(v: Drive)
    requires v.data == Zeros(SECTOR_SIZE)
    ensures var c := TornChain();
            var d := After(v, [c]).data;
            && Log(v, [c])[0].reply == Answer([], S_IOERR)
            && d != v.data && d != Carried(v.data, Log(v, [c]))
  {
    var c := TornChain();
    var w := v.(room := Grown(v.room, SECTOR_SIZE, true));
    assert [c][..0] == [];
    FailsWrites(w, 0, Ones(), {0});
    var run := Log(v, [c]);
    assert run == [Record(v, c.cfg, c.req, c.env)] && run[..0] == [];
    var d := After(v, [c]).data;
    assert d == Hit(v.data, 0, Ones(), {0});
    assert d[0] == 1 && d[1] == 0;
    OverwriteByte(v.data, 0, Ones(), 1);
  }
}
