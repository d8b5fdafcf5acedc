/** The multiplexer as the object the device worker drives, each method proved against its transition. */
module MuxDevice {
  import opened Machine
  import opened Wire
  import opened MuxSpec
  import opened MuxRuns
  import opened MuxClock

  // ---- one connection ----

  /** The flags of `mark_local_shut` that were not up yet. */
  method RaiseFlags(conn: Conn, recv: bool, send: bool) returns (c: Conn, flags: u32)
    ensures flags == ShutFlags(conn, recv, send)
    ensures c == conn.(localShutSend := conn.localShutSend || send, localShutRecv := conn.localShutRecv || recv)
  {
    c, flags := conn, 0;
    if send && !c.localShutSend {
      c := c.(localShutSend := true);
      flags := flags + SHUTDOWN_SEND;
    }
    if recv && !c.localShutRecv {
      c := c.(localShutRecv := true);
      flags := flags + SHUTDOWN_RCV;
    }
  }

  /** `flush_ok`: push the OK line out until it is gone or the socket refuses. */
  method FlushOkLoop(conn: Conn, sends: seq<Send>) returns (c: Conn, rest: seq<Send>, ok: bool)
    ensures Flushed(c, rest, ok) == FlushOk(conn, sends)
    ensures ok <==> c.okPending == []
  {
    c, rest := conn, sends;
    while c.okPending != []
      invariant FlushOk(c, rest) == FlushOk(conn, sends)
      decreases |rest|
    {
      if rest == [] {
        return c, [], false;
      }
      var sent := rest[0];
      rest := rest[1..];
      if sent.Refused? || sent.n == 0 {
        return c, rest, false;
      }
      var n := Min(sent.n, |c.okPending|);
      c := c.(okPending := c.okPending[n..], log := c.log.(written := c.log.written + c.okPending[..n]));
    }
    ok := true;
  }

  /** `flush_to_host`: push guest bytes out, advancing the forward counter with each partial send. */
  method FlushToHostLoop(conn: Conn, sends: seq<Send>) returns (c: Conn, rest: seq<Send>, ok: bool)
    ensures Flushed(c, rest, ok) == FlushToHost(conn, sends)
    ensures ok <==> c.toHost == []
  {
    c, rest := conn, sends;
    while c.toHost != []
      invariant FlushToHost(c, rest) == FlushToHost(conn, sends)
      decreases |rest|
    {
      if rest == [] {
        return c, [], false;
      }
      var sent := rest[0];
      rest := rest[1..];
      if sent.Refused? || sent.n == 0 {
        return c, rest, false;
      }
      var n := Min(sent.n, |c.toHost|);
      c := c.(toHost := c.toHost[n..], fwdCnt := Add32(c.fwdCnt, n),
              log := c.log.(written := c.log.written + c.toHost[..n]));
    }
    ok := true;
  }

  /** One round of the `ingest` loop sends a chunk and leaves the rest of the job unchanged. */
  lemma IngestUnroll(s: State, f: Flow, data: seq<u8>)
    requires f in s.conns && data != [] && CanSend(s.conns[f]) && PeerAvail(s.conns[f]) > 0
    ensures var n := Min(Min(|data|, PeerAvail(s.conns[f])), MAX_CHUNK);
            var s1 := SetConn(s, f, SendChunk(s.conns[f], data[..n]));
            var s2 := s1.(outData := s.outData + [OutPkt(f, OP_RW, 0, data[..n])]);
            Ingest(s2, f, data[n..]) == Ingest(s, f, data)
  {
    var c := s.conns[f];
    var k := Min(|data|, PeerAvail(c));
    var n := Min(k, MAX_CHUNK);
    var c1 := SendChunk(c, data[..n]);
    var s2 := SetConn(s, f, c1).(outData := s.outData + [OutPkt(f, OP_RW, 0, data[..n])]);
    SentChunkCredit(c, data[..n]);
    var k' := Min(|data[n..]|, PeerAvail(c1));
    assert k' == k - n;
    assert data[n..][..k'] == data[n..k] == data[..k][n..];
    assert data[..n] == data[..k][..n];
    assert data[n..][k'..] == data[k..];
    SendTwice(c, data[..n], data[n..k]);
    assert data[..n] + data[n..k] == data[..k];
    var p := [OutPkt(f, OP_RW, 0, data[..n])];
    assert p + Chunks(f, data[n..k]) == Chunks(f, data[..k]);
    assert (s.outData + p) + Chunks(f, data[n..k]) == s.outData + Chunks(f, data[..k]);
    var c2 := SendChunk(c1, data[n..k]);
    assert s2.conns[f := c2] == s.conns[f := c2];
    if data[n..] == [] {
      assert k == |data| && data[n..k] == [];
      assert s2.conns == s.conns[f := SendChunk(c, data[..k])];
    }
  }

  /** Sending within the credit uses up exactly that much of it. */
  lemma SentChunkCredit(c: Conn, chunk: seq<u8>)
    requires |chunk| <= PeerAvail(c)
    ensures PeerAvail(SendChunk(c, chunk)) == PeerAvail(c) - |chunk|
  {
    if |chunk| > 0 {
      SubAdd(c.sentToGuest, c.peerFwdCnt, |chunk|);
    }
  }

  lemma SendTwice(c: Conn, a: seq<u8>, b: seq<u8>)
    ensures SendChunk(SendChunk(c, a), b) == SendChunk(c, a + b)
  {
    assert c.log.queued + (a + b) == (c.log.queued + a) + b;
    WrapAdd(c.sentToGuest + |a|, |b|);
  }

  lemma {:induction false} DropExpiredPush(s: State, order: seq<Flow>, f: Flow, now: nat)
    ensures DropExpired(s, order + [f], now) ==
            var s1 := DropExpired(s, order, now);
            if f in s1.conns && Expired(s1.conns[f], now) then DropConn(s1, f, true) else s1
    decreases |order|
  {
    if order == [] {
      assert order + [f] == [f];
      assert [f][1..] == [];
    } else {
      var s1 := if order[0] in s.conns && Expired(s.conns[order[0]], now) then DropConn(s, order[0], true) else s;
      assert (order + [f])[1..] == order[1..] + [f];
      DropExpiredPush(s1, order[1..], f, now);
    }
  }

  class Mux {
    const guestCid: u64
    var incoming: seq<seq<u8>>
    var conns: map<Flow, Conn>
    var nextHostPort: u32
    var outCtrl: seq<OutPkt>
    var outData: seq<OutPkt>
    var nextId: nat              // history: numbers connections
    ghost var wire: seq<Delivery>

    ghost function Model(): State
      reads this
    {
      State(guestCid, incoming, conns, nextHostPort, outCtrl, outData, nextId, wire)
    }

    constructor (cid: u64)
      ensures guestCid == cid && Model() == Init(cid)
    {
      guestCid := cid;
      incoming, conns, nextHostPort, outCtrl, outData := [], map[], FIRST_PORT, [], [];
      nextId, wire := 0, [];
    }

    // ---- queues ----

    method EnqueuePkt(p: OutPkt)
      modifies this
      ensures Model() == Enqueue(old(Model()), p)
    {
      if p.op == OP_RW {
        outData := outData + [p];
      } else {
        outCtrl := outCtrl + [p];
      }
    }

    method QueueRst(f: Flow)
      modifies this
      ensures Model() == EnqueueRst(old(Model()), f)
    {
      outCtrl := WithoutRst(outCtrl, f);
      EnqueuePkt(Ctrl(f, OP_RST, 0));
    }

    method Remove(f: Flow, rst: bool)
      modifies this
      ensures Model() == DropConn(old(Model()), f, rst)
    {
      conns := conns - {f};
      outCtrl := WithoutFlow(outCtrl, f);
      outData := WithoutFlow(outData, f);
      if rst {
        QueueRst(f);
      }
    }

    method AskForCredit(f: Flow)
      modifies this
      ensures Model() == RequestCredit(old(Model()), f)
    {
      if Queued(outCtrl, f, OP_CREDIT_REQUEST) {
        return;
      }
      EnqueuePkt(Ctrl(f, OP_CREDIT_REQUEST, 0));
    }

    method QueueCredit(f: Flow)
      modifies this
      ensures Model() == EnqueueCredit(old(Model()), f)
    {
      if Queued(outCtrl, f, OP_CREDIT_UPDATE) {
        return;
      }
      if f in conns {
        conns := conns[f := Announce(conns[f])];
      }
      EnqueuePkt(Ctrl(f, OP_CREDIT_UPDATE, 0));
    }

    method OfferCredit(f: Flow)
      modifies this
      ensures Model() == MaybeCredit(old(Model()), f)
    {
      if f !in conns {
        return;
      }
      var delta := Sub32(conns[f].fwdCnt, conns[f].lastFwdSent);
      if delta < Threshold(conns[f]) {
        return;
      }
      QueueCredit(f);
    }

    method ShutLocal(f: Flow, recv: bool, send: bool, now: nat)
      modifies this
      ensures Model() == MarkLocalShut(old(Model()), f, recv, send, now)
    {
      if f !in conns {
        return;
      }
      if conns[f].phase == WaitGuest {
        Remove(f, true);
        return;
      }
      var c, flags := RaiseFlags(conns[f], recv, send);
      if flags != 0 {
        c := c.(expiry := Some(now + SHUTDOWN_TIMEOUT), log := c.log.(said := c.log.said + 1, connectedSince := false));
        conns := conns[f := c];
        EnqueuePkt(Ctrl(f, OP_SHUTDOWN, flags));
      }
    }

    // ---- host to guest ----

    /** `ingest`: the chunk loop does what the closed form says. */
    method IngestBytes(f: Flow, data: seq<u8>)
      modifies this
      ensures Model() == Ingest(old(Model()), f, data)
    {
      var rest := data;
      while rest != []
        invariant Ingest(Model(), f, rest) == Ingest(old(Model()), f, data)
        decreases |rest|
      {
        if f !in conns {
          return;
        }
        var c := conns[f];
        if c.phase != Established || c.localShutSend || c.peerShutRecv {
          if |c.prefetched| < MAX_PREFETCH {
            var n := Min(|rest|, MAX_PREFETCH - |c.prefetched|);
            conns := conns[f := c.(prefetched := c.prefetched + rest[..n])];
          } else {
            assert Stash(c, rest) == c by { assert c.prefetched + rest[..0] == c.prefetched; }
            assert conns[f := c] == conns;
          }
          return;
        }
        var credit := PeerAvail(c);
        if credit == 0 {
          NoCredit(Model(), f, rest);
          conns := conns[f := Stash(c, rest)];
          AskForCredit(f);
          return;
        }
        IngestUnroll(Model(), f, rest);
        var n := Min(Min(|rest|, credit), MAX_CHUNK);
        var chunk := rest[..n];
        rest := rest[n..];
        conns := conns[f := SendChunk(c, chunk)];
        outData := outData + [OutPkt(f, OP_RW, 0, chunk)];
      }
    }

    // ---- guest to host ----

    method Flush(f: Flow, sends: seq<Send>, now: nat)
      modifies this
      ensures Model() == FlushConn(old(Model()), f, sends, now)
    {
      if f !in conns {
        return;
      }
      var c, rest, ok := FlushOkLoop(conns[f], sends);
      if ok {
        c, rest, ok := FlushToHostLoop(c, rest);
      }
      conns := conns[f := c];
      if !ok {
        ShutLocal(f, true, true, now);
        return;
      }
      ghost var flushed := c;
      if c.peerShutSend && c.toHost == [] && !c.hostWriteShut {
        c := c.(hostWriteShut := true, log := c.log.(shutWr := c.log.shutWr + 1, shutWrote := c.log.written,
                                                     shutEarly := c.phase == WaitGuest));
        conns := conns[f := c];
      }
      assert c == ShutWrite(flushed);
      assert conns == old(conns)[f := c];
      if c.okPending != [] {
        return;
      }
      var prefetched := c.prefetched;
      conns := conns[f := c.(prefetched := [])];
      assert conns == old(conns)[f := c.(prefetched := [])];
      if prefetched != [] {
        IngestBytes(f, prefetched);
      }
      OfferCredit(f);
    }

    method HandleResponse(f: Flow, sends: seq<Send>, now: nat)
      modifies this
      ensures Model() == OnResponse(old(Model()), f, sends, now)
    {
      if f !in conns || conns[f].phase != WaitGuest {
        return;
      }
      var c := conns[f];
      var ok := OkLine(f.hostPort);
      conns := conns[f := c.(phase := Established, expiry := None, okPending := ok, log := c.log.(okLine := ok))];
      Flush(f, sends, now);
    }

    method HandleShutdown(f: Flow, flags: u32, sends: seq<Send>, now: nat)
      modifies this
      ensures Model() == OnShutdown(old(Model()), f, flags, sends, now)
    {
      if f !in conns {
        return;
      }
      var c := conns[f];
      if HasRecv(flags) {
        c := c.(peerShutRecv := true, localShutSend := true);
      }
      if HasSend(flags) {
        c := c.(peerShutSend := true);
      }
      conns := conns[f := c];
      Flush(f, sends, now);
    }

    method HandleRw(f: Flow, data: seq<u8>, sends: seq<Send>, now: nat)
      modifies this
      ensures Model() == OnRw(old(Model()), f, data, sends, now)
    {
      if data == [] || f !in conns || !AcceptsRw(conns[f]) {
        return;
      }
      if Wrap(|data|) > LocalFree(conns[f]) {
        Remove(f, true);
        return;
      }
      conns := conns[f := TakeRw(conns[f], data)];
      Flush(f, sends, now);
    }

    // ---- guest packets ----

    method HandleRequest(f: Flow, hdr: Header, host: Host)
      modifies this
      ensures Model() == OnGuestRequest(old(Model()), f, hdr, host)
    {
      if f in conns {
        Remove(f, true);
        return;
      }
      if hdr.len != 0 {
        QueueRst(f);
        return;
      }
      if host.connect == Fail {
        QueueRst(f);
        return;
      }
      var c := NewConn(Established, nextId, false);
      c := c.(peerBufAlloc := hdr.bufAlloc, peerFwdCnt := hdr.fwdCnt,
              log := c.log.(guestFwd := hdr.fwdCnt, honest := hdr.fwdCnt == 0));
      nextId := nextId + 1;
      if host.connect == Done {
        conns := conns[f := c];
        EnqueuePkt(Ctrl(f, OP_RESPONSE, 0));
      } else {
        conns := conns[f := c.(connecting := true, expiry := Some(host.now + REQUEST_TIMEOUT))];
      }
    }

    /** `handle_guest_pkt`. */
    method HandlePacket(hdr: Header, data: seq<u8>, host: Host)
      requires Inv(Model())
      modifies this
      ensures Model() == HandleGuestPkt(old(Model()), hdr, data, host)
      ensures Inv(Model()) && Evolves(old(Model()), Model())
    {
      StepKeeps(Model(), GuestTx(Packet(hdr, data), host));
      if hdr.srcCid != guestCid || hdr.dstCid != HOST_CID {
        return;
      }
      var f := Flow(hdr.srcPort, hdr.dstPort);
      if hdr.kind != TYPE_STREAM {
        if hdr.op != OP_RST {
          QueueRst(f);
        }
        return;
      }
      if hdr.op == OP_REQUEST {
        HandleRequest(f, hdr, host);
        return;
      }
      if f !in conns {
        if hdr.op != OP_RST {
          QueueRst(f);
        }
        return;
      }
      conns := conns[f := NoteCredit(conns[f], hdr)];
      if hdr.op == OP_RESPONSE {
        HandleResponse(f, host.sends, host.now);
      } else if hdr.op == OP_RST {
        Remove(f, false);
      } else if hdr.op == OP_SHUTDOWN {
        HandleShutdown(f, hdr.flags, host.sends, host.now);
      } else if hdr.op == OP_RW {
        if |data| > MAX_PAYLOAD {
          Remove(f, true);
        } else {
          HandleRw(f, data, host.sends, host.now);
        }
      } else if hdr.op == OP_CREDIT_REQUEST {
        QueueCredit(f);
      }
    }

    // ---- host sockets ----

    method HandleEof(f: Flow, now: nat)
      modifies this
      ensures Model() == OnHostEof(old(Model()), f, now)
    {
      if f in conns && conns[f].phase == WaitGuest {
        Remove(f, true);
      } else {
        ShutLocal(f, false, true, now);
      }
    }

    method ReadSocket(f: Flow, read: Read, now: nat)
      modifies this
      ensures Model() == ReadConn(old(Model()), f, read, now)
    {
      if f !in conns {
        return;
      }
      match read {
        case Bytes(data) =>
          if data == [] {
            HandleEof(f, now);
          } else {
            IngestBytes(f, data[..Min(|data|, MAX_CHUNK)]);
          }
        case Eof => HandleEof(f, now);
        case Again =>
        case Broken => ShutLocal(f, true, true, now);
      }
    }

    method Connected(f: Flow, ok: bool)
      modifies this
      ensures Model() == FinishConnect(old(Model()), f, ok)
    {
      if f !in conns {
        return;
      }
      if ok {
        conns := conns[f := ConnectDone(conns[f])];
        EnqueuePkt(Ctrl(f, OP_RESPONSE, 0));
      } else {
        Remove(f, true);
      }
    }

    method ConnFdReady(f: Flow, r: Ready)
      modifies this
      ensures Model() == OnConnFd(old(Model()), f, r)
    {
      if f !in conns {
        return;
      }
      if r.readable {
        ReadSocket(f, r.read, r.now);
      }
      if f in conns && r.writable {
        if conns[f].connecting {
          Connected(f, r.connectOk);
        } else {
          Flush(f, r.sends, r.now);
        }
      }
    }

    // ---- host-initiated connections ----

    method AcceptSocket()
      modifies this
      ensures Model() == AcceptOne(old(Model()))
    {
      if |incoming| + |conns| >= MAX_CONNS {
        return;
      }
      incoming := incoming + [[]];
    }

    /** `alloc_host_port`: at most 60,000 tries from the cursor. */
    method TakePort() returns (port: Option<u32>)
      modifies this`nextHostPort
      ensures Alloc(port, nextHostPort) == AllocPort(old(nextHostPort), HostPorts(old(Model())), PORT_TRIES)
      ensures Model() == old(Model()).(nextHostPort := nextHostPort)
    {
      ghost var live := HostPorts(Model());
      var tries := 0;
      while tries < PORT_TRIES
        invariant tries <= PORT_TRIES
        invariant AllocPort(nextHostPort, live, PORT_TRIES - tries) == AllocPort(old(nextHostPort), live, PORT_TRIES)
        invariant Model() == old(Model()).(nextHostPort := nextHostPort)
      {
        var p := nextHostPort;
        nextHostPort := if p == MAX_U32 then FIRST_PORT else p + 1;
        tries := tries + 1;
        if p < FIRST_PORT || exists f :: f in conns && f.hostPort == p {
          assert p < FIRST_PORT || p in live;
          continue;
        }
        assert p !in live;
        return Some(p);
      }
      return None;
    }

    method OpenConn(guestPort: u32, rest: seq<u8>, now: nat)
      modifies this
      ensures Model() == OpenHostConn(old(Model()), guestPort, rest, now)
    {
      var port := TakePort();
      if port == None {
        return;
      }
      var f := Flow(guestPort, port.value);
      if f in conns {
        QueueRst(f);
        return;
      }
      var c := NewConn(WaitGuest, nextId, true);
      nextId := nextId + 1;
      conns := conns[f := c.(prefetched := rest, expiry := Some(now + REQUEST_TIMEOUT))];
      EnqueuePkt(Ctrl(f, OP_REQUEST, 0));
    }

    method FinishLine(i: nat, now: nat)
      requires i < |incoming|
      modifies this
      ensures Model() == FinishIncoming(old(Model()), i, now)
    {
      var buf := incoming[i];
      incoming := incoming[..i] + incoming[i + 1..];
      var nl := IndexOfNewline(buf);
      if nl == |buf| {
        return;
      }
      var guestPort := ParseConnect(StripCr(buf[..nl]));
      if guestPort.Some? {
        OpenConn(guestPort.value, buf[nl + 1..], now);
      }
    }

    method ReadLine(i: nat, read: Read, now: nat)
      modifies this
      ensures Model() == ReadIncoming(old(Model()), i, read, now)
    {
      if i >= |incoming| || read.Again? {
        return;
      }
      if read.Bytes? && read.data != [] {
        incoming := incoming[i := incoming[i] + read.data[..Min(|read.data|, 64)]];
        var ready := IndexOfNewline(incoming[i]) < |incoming[i]|;
        if ready {
          FinishLine(i, now);
        } else if |incoming[i]| > 64 {
          incoming := incoming[..i] + incoming[i + 1..];
        }
      } else {
        incoming := incoming[..i] + incoming[i + 1..];
      }
    }

    /** `on_fd`: a ready socket is the listener, one still sending its line, or a connection's. */
    method OnFd(e: Event)
      requires Inv(Model()) && (e.Accept? || e.IncomingReady? || e.ConnReady?)
      modifies this
      ensures Model() == Step(old(Model()), e)
      ensures Inv(Model()) && Evolves(old(Model()), Model())
    {
      StepKeeps(Model(), e);
      match e {
        case Accept => AcceptSocket();
        case IncomingReady(i, read, now) => ReadLine(i, read, now);
        case ConnReady(f, ready) => ConnFdReady(f, ready);
      }
    }

    // ---- deadlines and resets ----

    /** `check_timeouts`: drops every connection past its deadline, in some order, and leaves none. */
    method CheckTimeouts(now: nat) returns (ghost order: seq<Flow>)
      requires Inv(Model())
      modifies this
      ensures Model() == Step(old(Model()), Timeouts(order, now))
      ensures Inv(Model()) && Evolves(old(Model()), Model()) && OnTime(Model(), now)
      ensures forall f :: f in old(conns) && !Expired(old(conns)[f], now) ==> f in conns && conns[f] == old(conns)[f]
    {
      order := DropOverdue(now);
      StepKeeps(old(Model()), Timeouts(order, now));
      NoneOverdue(old(Model()), order, now);
      DropExpiredConns(old(Model()), order, now);
    }

    method DropOverdue(now: nat) returns (ghost order: seq<Flow>)
      modifies this
      ensures Model() == DropExpired(old(Model()), order, now)
      ensures forall f :: f in order <==> f in old(conns) && Expired(old(conns)[f], now)
    {
      order := [];
      var todo := set f | f in conns && Expired(conns[f], now);
      while todo != {}
        invariant Model() == DropExpired(old(Model()), order, now)
        invariant forall f :: f in todo ==> f in conns && f in old(conns) && conns[f] == old(conns)[f]
        invariant forall f :: f in todo ==> Expired(conns[f], now)
        invariant forall f :: f in order || f in todo <==> f in old(conns) && Expired(old(conns)[f], now)
        decreases todo
      {
        var f :| f in todo;
        DropExpiredPush(old(Model()), order, f, now);
        Remove(f, true);
        todo := todo - {f};
        order := order + [f];
      }
    }

    /** `kill_connections`. */
    method Kill()
      requires Inv(Model())
      modifies this
      ensures Model() == Step(old(Model()), TransportDown)
      ensures Inv(Model()) && Evolves(old(Model()), Model())
    {
      StepKeeps(Model(), TransportDown);
      incoming, conns, outCtrl, outData := [], map[], [], [];
    }

    // ---- delivery ----

    method PopOut() returns (p: Option<OutPkt>)
      modifies this
      ensures p.Some? <==> HasOut(old(Model()))
      ensures p.Some? ==> p.value == Front(old(Model())) && Model() == PopFront(old(Model()))
      ensures p.None? ==> Model() == old(Model())
    {
      if outCtrl != [] {
        p := Some(outCtrl[0]);
        outCtrl := outCtrl[1..];
      } else if outData != [] {
        p := Some(outData[0]);
        outData := outData[1..];
      } else {
        p := None;
      }
    }

    method PushFrontOut(p: OutPkt)
      modifies this
      ensures Model() == PushFront(old(Model()), p)
    {
      if p.op == OP_RW {
        outData := [p] + outData;
      } else {
        outCtrl := [p] + outCtrl;
      }
    }
  }

  /** With no credit left the rest is stashed and a CREDIT_REQUEST queued. */
  lemma NoCredit(s: State, f: Flow, data: seq<u8>)
    requires f in s.conns && data != [] && CanSend(s.conns[f]) && PeerAvail(s.conns[f]) == 0
    ensures Ingest(s, f, data) == RequestCredit(SetConn(s, f, Stash(s.conns[f], data)), f)
  {
    var c := s.conns[f];
    assert data[..0] == [] && data[0..] == data;
    assert c.log.queued + [] == c.log.queued;
    assert SendChunk(c, []) == c;
    assert s.outData + Chunks(f, []) == s.outData;
    assert s.conns[f := c] == s.conns;
  }
}
