/**
 Credit announcements and a polite guest: one that never sends past the buffer announced by the last header
 it received. For its connections the announcements keep up without any bound on the bytes in between.
 */
module MuxCredit {
  import opened Machine
  import opened Wire
  import opened MuxSpec
  import opened MuxQueues
  import opened MuxInvariant
  import opened MuxRuns
  import opened MuxTheorems

  /** At most this many control packets of one connection are queued at a time. */
  const SLOTS: nat := 6

  /** Packets before the first CREDIT_UPDATE. */
  function Ahead(q: seq<OutPkt>): (n: nat)
    ensures n <= |q|
  {
    if q == [] || q[0].op == OP_CREDIT_UPDATE then 0 else 1 + Ahead(q[1..])
  }

  predicate Updating(q: seq<OutPkt>) {
    CountOp(q, OP_CREDIT_UPDATE) > 0
  }

  lemma {:induction false} AheadPush(q: seq<OutPkt>, p: OutPkt)
    ensures Updating(q) ==> Ahead(q + [p]) == Ahead(q)
  {
    if q != [] {
      assert (q + [p])[1..] == q[1..] + [p];
      AheadPush(q[1..], p);
    }
  }

  lemma {:induction false} AheadNoRst(q: seq<OutPkt>)
    ensures Ahead(NoRst(q)) <= Ahead(q)
  {
    if q != [] {
      AheadNoRst(q[1..]);
      if q[0].op != OP_RST {
        assert NoRst(q)[1..] == NoRst(q[1..]);
      }
    }
  }

  lemma AheadCons(p: OutPkt, q: seq<OutPkt>)
    ensures Ahead([p] + q) == if p.op == OP_CREDIT_UPDATE then 0 else 1 + Ahead(q)
  {
    assert ([p] + q)[1..] == q;
  }

  // ---- how many control packets there can be ----

  lemma {:induction false} CountAll(f: Flow, q: seq<OutPkt>)
    requires forall i :: 0 <= i < |q| ==> CtrlPkt(f, q[i])
    ensures |q| == CountOp(q, OP_REQUEST) + CountOp(q, OP_RESPONSE) + CountOp(q, OP_RST) + CountOp(q, OP_SHUTDOWN)
                   + CountOp(q, OP_CREDIT_UPDATE) + CountOp(q, OP_CREDIT_REQUEST)
    ensures CountOp(q, OP_SHUTDOWN) <= CountSend(q) + CountRecv(q)
  {
    if q != [] {
      assert CtrlPkt(f, q[0]);
      CountAll(f, q[1..]);
    }
  }

  lemma CtrlLength(f: Flow, c: Conn, ctrl: seq<OutPkt>, data: seq<OutPkt>)
    requires QueueInv(f, ctrl, data) && ConnInv(f, c, ctrl, data)
    ensures |ctrl| <= SLOTS && (!Updating(ctrl) ==> |ctrl| < SLOTS)
  {
    CountAll(f, ctrl);
  }

  // ---- the lag of the announcements ----

  /** What an update still queued is behind, or what was forwarded since the last one, in buffers. */
  predicate Lag(c: Conn, ctrl: seq<OutPkt>, n: nat) {
    c.log.polite ==>
      && |c.log.accepted| <= c.log.covered + BUF_ALLOC
      && (!c.localShutRecv ==>
            if Updating(ctrl) then c.log.covered - c.log.announced <= (SLOTS - Ahead(ctrl)) * BUF_ALLOC
            else Forwarded(c) - c.log.announced <= n * BUF_ALLOC)
  }

  /** A connection, if any, is within the lag; `polite` is what its history says of the guest. */
  predicate Lags(v: View, n: nat, polite: bool) {
    v.conn.Some? ==> Lag(v.conn.value, v.ctrl, n) && v.conn.value.log.polite == polite
  }

  /** Nothing the lag depends on has moved, except that other control packets came or went. */
  predicate Calm(a: View, b: View) {
    && a.conn.Some? && b.conn.Some?
    && CalmConn(a.conn.value, b.conn.value)
    && (Updating(b.ctrl) <==> Updating(a.ctrl))
    && (Updating(a.ctrl) ==> Ahead(b.ctrl) <= Ahead(a.ctrl))
  }

  predicate CalmConn(c: Conn, c': Conn) {
    && c'.log.accepted == c.log.accepted && c'.toHost == c.toHost && c'.log.polite == c.log.polite
    && c'.log.covered == c.log.covered && c'.log.announced == c.log.announced
    && (c.localShutRecv ==> c'.localShutRecv)
  }

  lemma CalmLags(a: View, b: View, n: nat, polite: bool)
    requires Calm(a, b) && Lags(a, n, polite)
    ensures Lags(b, n, polite)
  {
  }

  lemma SetCalm(s: State, f: Flow, c: Conn)
    requires f in s.conns && CalmConn(s.conns[f], c)
    ensures Calm(ViewOf(s, f), ViewOf(SetConn(s, f, c), f))
  {
  }

  lemma PushCalm(s: State, p: OutPkt)
    requires p.flow in s.conns && p.op != OP_RW && p.op != OP_CREDIT_UPDATE
    ensures Calm(ViewOf(s, p.flow), ViewOf(Enqueue(s, p), p.flow))
  {
    EnqueueView(s, p);
    AheadPush(OfFlow(s.outCtrl, p.flow), p);
    CountPush(OfFlow(s.outCtrl, p.flow), p);
  }

  lemma RstCalm(s: State, f: Flow)
    requires f in s.conns
    ensures Calm(ViewOf(s, f), ViewOf(EnqueueRst(s, f), f))
  {
    EnqueueRstView(s, f);
    var q := OfFlow(s.outCtrl, f);
    CountNoRst(q);
    AheadNoRst(q);
    AheadPush(NoRst(q), Ctrl(f, OP_RST, 0));
    CountPush(NoRst(q), Ctrl(f, OP_RST, 0));
  }

  lemma CalmTransitive(a: View, b: View, c: View)
    requires Calm(a, b) && Calm(b, c)
    ensures Calm(a, c)
  {
  }

  lemma IngestCalm(s: State, f: Flow, data: seq<u8>)
    requires f in s.conns
    ensures Calm(ViewOf(s, f), ViewOf(Ingest(s, f, data), f))
  {
    var c := s.conns[f];
    if data != [] {
      if !CanSend(c) {
        SetCalm(s, f, Stash(c, data));
      } else {
        var k := Min(|data|, PeerAvail(c));
        var c1 := SendChunk(c, data[..k]);
        var s1 := SetConn(s, f, c1).(outData := s.outData + Chunks(f, data[..k]));
        assert Calm(ViewOf(s, f), ViewOf(s1, f));
        if k < |data| {
          var s2 := SetConn(s1, f, Stash(c1, data[k..]));
          SetCalm(s1, f, Stash(c1, data[k..]));
          CalmTransitive(ViewOf(s, f), ViewOf(s1, f), ViewOf(s2, f));
          PushCalm(s2, Ctrl(f, OP_CREDIT_REQUEST, 0));
          CalmTransitive(ViewOf(s, f), ViewOf(s2, f), ViewOf(Ingest(s, f, data), f));
        }
      }
    }
  }

  lemma MarkShutCalm(s: State, f: Flow, recv: bool, send: bool, now: nat)
    requires f in s.conns && f in MarkLocalShut(s, f, recv, send, now).conns
    ensures Calm(ViewOf(s, f), ViewOf(MarkLocalShut(s, f, recv, send, now), f))
  {
    var c := s.conns[f];
    var flags := ShutFlags(c, recv, send);
    if c.phase == Established && flags != 0 {
      var s1 := SetConn(s, f, LocalShut(c, recv, send, now));
      SetCalm(s, f, LocalShut(c, recv, send, now));
      PushCalm(s1, Ctrl(f, OP_SHUTDOWN, flags));
      CalmTransitive(ViewOf(s, f), ViewOf(s1, f), ViewOf(MarkLocalShut(s, f, recv, send, now), f));
    }
  }

  // ---- announcing ----

  lemma CreditLags(s: State, f: Flow, n: nat, polite: bool)
    requires f in s.conns && CoreInv(f, ViewOf(s, f)) && Lags(ViewOf(s, f), n, polite)
    ensures Lags(ViewOf(EnqueueCredit(s, f), f), n, polite)
    ensures Updating(OfFlow(EnqueueCredit(s, f).outCtrl, f))
  {
    var q, p := OfFlow(s.outCtrl, f), Ctrl(f, OP_CREDIT_UPDATE, 0);
    QueuedIsCount(s.outCtrl, f, OP_CREDIT_UPDATE);
    if !Updating(q) {
      CtrlLength(f, s.conns[f], q, OfFlow(s.outData, f));
      var s1 := SetConn(s, f, Announce(s.conns[f]));
      EnqueueView(s1, p);
      CountPush(q, p);
      assert OfFlow(EnqueueCredit(s, f).outCtrl, f) == q + [p];
      LagNonNegative(|q| + 1, Ahead(q + [p]));
    }
  }

  lemma LagNonNegative(len: nat, ahead: nat)
    requires ahead <= len <= SLOTS
    ensures 0 <= (SLOTS - ahead) * BUF_ALLOC
  {
  }

  /** `maybe_credit` takes back the slack a flush may have used. */
  lemma MaybeCreditLags(s: State, f: Flow, polite: bool)
    requires f in s.conns && CoreInv(f, ViewOf(s, f)) && Lags(ViewOf(s, f), SLOTS + 2, polite)
    ensures Lags(ViewOf(MaybeCredit(s, f), f), SLOTS + 1, polite)
  {
    var c := s.conns[f];
    WrapSub(Forwarded(c), c.log.announced);
    if Sub32(c.fwdCnt, c.lastFwdSent) >= Threshold(c) {
      CreditLags(s, f, SLOTS + 2, polite);
    }
  }

  // ---- taking and flushing guest bytes ----

  lemma FlushBothLags(f: Flow, c: Conn, sends: seq<Send>, ctrl: seq<OutPkt>)
    requires GuestToHost(f, c) && Lag(c, ctrl, SLOTS + 1)
    ensures Lag(FlushBoth(c, sends).conn, ctrl, SLOTS + 2)
    ensures FlushBoth(c, sends).conn.log.polite == c.log.polite
  {
    var n := FlushOkTakes(c, sends);
    var r := FlushOk(c, sends);
    if r.ok {
      var m := FlushToHostTakes(r.conn, r.rest);
    }
  }

  lemma FlushLags(s: State, f: Flow, sends: seq<Send>, now: nat, polite: bool)
    requires f in s.conns && CoreInv(f, ViewOf(s, f)) && Lags(ViewOf(s, f), SLOTS + 1, polite)
    ensures Lags(ViewOf(FlushConn(s, f, sends, now), f), SLOTS + 1, polite)
  {
    var v := ViewOf(s, f);
    var r := FlushBoth(s.conns[f], sends);
    FlushBothLags(f, s.conns[f], sends, v.ctrl);
    FlushBothKeeps(f, s.conns[f], sends, v.ctrl, v.data);
    if r.ok {
      FlushedLags(s, f, r.conn, polite);
    } else {
      FailedLags(s, f, r.conn, now, polite);
    }
  }

  lemma FlushedLags(s: State, f: Flow, c: Conn, polite: bool)
    requires f in s.conns && QueueInv(f, ViewOf(s, f).ctrl, ViewOf(s, f).data)
    requires ConnInv(f, c, ViewOf(s, f).ctrl, ViewOf(s, f).data) && c.okPending == []
    requires Lag(c, ViewOf(s, f).ctrl, SLOTS + 2) && c.log.polite == polite
    ensures var c1 := ShutWrite(c);
            var s' := MaybeCredit(Ingest(SetConn(s, f, c1.(prefetched := [])), f, c1.prefetched), f);
            Lags(ViewOf(s', f), SLOTS + 1, polite)
  {
    var c1 := ShutWrite(c);
    var s1 := SetConn(s, f, c1.(prefetched := []));
    ShutWriteKeeps(f, c, ViewOf(s, f).ctrl, ViewOf(s, f).data);
    assert ViewOf(s1, f) == ViewOf(s, f).(conn := Some(c1.(prefetched := [])));
    IngestKeeps(s1, f, c1.prefetched);
    IngestCalm(s1, f, c1.prefetched);
    CalmLags(ViewOf(s1, f), ViewOf(Ingest(s1, f, c1.prefetched), f), SLOTS + 2, polite);
    MaybeCreditLags(Ingest(s1, f, c1.prefetched), f, polite);
  }

  lemma FailedLags(s: State, f: Flow, c: Conn, now: nat, polite: bool)
    requires f in s.conns && Lag(c, ViewOf(s, f).ctrl, SLOTS + 2) && c.log.polite == polite
    ensures Lags(ViewOf(MarkLocalShut(SetConn(s, f, c), f, true, true, now), f), SLOTS + 1, polite)
  {
    var s1 := SetConn(s, f, c);
    var s' := MarkLocalShut(s1, f, true, true, now);
    assert ViewOf(s1, f) == ViewOf(s, f).(conn := Some(c));
    if f in s'.conns {
      MarkShutCalm(s1, f, true, true, now);
      CalmLags(ViewOf(s1, f), ViewOf(s', f), SLOTS + 2, polite);
      assert s'.conns[f].localShutRecv;
    }
  }

  /** Setting a connection within the invariant, then flushing. */
  lemma SetFlushLags(s: State, f: Flow, c: Conn, sends: seq<Send>, now: nat)
    requires f in s.conns && QueueInv(f, ViewOf(s, f).ctrl, ViewOf(s, f).data)
    requires ConnInv(f, c, ViewOf(s, f).ctrl, ViewOf(s, f).data) && Lag(c, ViewOf(s, f).ctrl, SLOTS + 1)
    ensures Lags(ViewOf(FlushConn(SetConn(s, f, c), f, sends, now), f), SLOTS + 1, c.log.polite)
  {
    assert ViewOf(SetConn(s, f, c), f) == ViewOf(s, f).(conn := Some(c));
    FlushLags(SetConn(s, f, c), f, sends, now, c.log.polite);
  }

  /** `data` stays within the buffer announced by the last header the guest received. */
  predicate Within(c: Conn, data: seq<u8>) {
    data != [] && AcceptsRw(c) ==> |c.log.accepted| + |data| <= c.log.covered + BUF_ALLOC
  }

  lemma RwLags(s: State, f: Flow, data: seq<u8>, sends: seq<Send>, now: nat, polite: bool)
    requires f in s.conns && FlowInv(f, ViewOf(s, f)) && |data| <= MAX_PAYLOAD
    requires Lags(ViewOf(s, f), SLOTS + 1, polite)
    ensures Lags(ViewOf(OnRw(s, f, data, sends, now), f), SLOTS + 1, polite && Within(s.conns[f], data))
  {
    var c := s.conns[f];
    if data != [] && AcceptsRw(c) && Wrap(|data|) <= LocalFree(c) {
      TakenLags(s, f, c, data, sends, now);
      TakenPolite(c, data);
    }
  }

  lemma TakenLags(s: State, f: Flow, c: Conn, data: seq<u8>, sends: seq<Send>, now: nat)
    requires f in s.conns && c == s.conns[f] && QueueInv(f, ViewOf(s, f).ctrl, ViewOf(s, f).data)
    requires ConnInv(f, c, ViewOf(s, f).ctrl, ViewOf(s, f).data) && Lag(c, ViewOf(s, f).ctrl, SLOTS + 1)
    requires AcceptsRw(c) && 0 < |data| <= MAX_PAYLOAD && Wrap(|data|) <= LocalFree(c)
    ensures Lags(ViewOf(FlushConn(SetConn(s, f, TakeRw(c, data)), f, sends, now), f), SLOTS + 1, TakeRw(c, data).log.polite)
  {
    TakeRwConn(f, c, data, ViewOf(s, f).ctrl, ViewOf(s, f).data);
    TakeRwLags(c, data, ViewOf(s, f).ctrl);
    SetFlushLags(s, f, TakeRw(c, data), sends, now);
  }

  lemma TakenPolite(c: Conn, data: seq<u8>)
    requires AcceptsRw(c) && data != [] && c.bufAlloc == BUF_ALLOC
    ensures TakeRw(c, data).log.polite == (c.log.polite && Within(c, data))
  {
  }

  lemma TakeRwLags(c: Conn, data: seq<u8>, ctrl: seq<OutPkt>)
    requires Lag(c, ctrl, SLOTS + 1) && c.bufAlloc == BUF_ALLOC
    ensures Lag(TakeRw(c, data), ctrl, SLOTS + 1)
  {
    assert Forwarded(TakeRw(c, data)) == Forwarded(c);
  }

  // ---- guest packets and host sockets ----

  lemma ResponseLags(s: State, f: Flow, sends: seq<Send>, now: nat, polite: bool)
    requires f in s.conns && FlowInv(f, ViewOf(s, f)) && Lags(ViewOf(s, f), SLOTS + 1, polite)
    ensures Lags(ViewOf(OnResponse(s, f, sends, now), f), SLOTS + 1, polite)
  {
    if s.conns[f].phase == WaitGuest {
      AnsweredKeeps(f, s.conns[f], ViewOf(s, f).ctrl, ViewOf(s, f).data);
      SetFlushLags(s, f, Answered(f, s.conns[f]), sends, now);
    }
  }

  lemma ShutdownLags(s: State, f: Flow, flags: u32, sends: seq<Send>, now: nat, polite: bool)
    requires f in s.conns && FlowInv(f, ViewOf(s, f)) && Lags(ViewOf(s, f), SLOTS + 1, polite)
    ensures Lags(ViewOf(OnShutdown(s, f, flags, sends, now), f), SLOTS + 1, polite)
  {
    PeerShutKeeps(f, s.conns[f], ViewOf(s, f).ctrl, ViewOf(s, f).data, flags);
    SetFlushLags(s, f, PeerShut(s.conns[f], flags), sends, now);
  }

  lemma DispatchLags(s: State, f: Flow, hdr: Header, data: seq<u8>, host: Host, polite: bool)
    requires f in s.conns && FlowInv(f, ViewOf(s, f)) && Lags(ViewOf(s, f), SLOTS + 1, polite)
    ensures Lags(ViewOf(Dispatch(s, f, hdr, data, host), f), SLOTS + 1,
                 polite && (hdr.op == OP_RW ==> Within(s.conns[f], data)))
  {
    if hdr.op == OP_RESPONSE {
      ResponseLags(s, f, host.sends, host.now, polite);
    } else if hdr.op == OP_SHUTDOWN {
      ShutdownLags(s, f, hdr.flags, host.sends, host.now, polite);
    } else if hdr.op == OP_RW && |data| <= MAX_PAYLOAD {
      RwLags(s, f, data, host.sends, host.now, polite);
    } else if hdr.op == OP_CREDIT_REQUEST {
      CreditLags(s, f, SLOTS + 1, polite);
    }
  }

  /** The guest keeps to the announced buffer with this event, if it is a data packet on flow `f`. */
  predicate KeepsWithin(s: State, e: Event, f: Flow) {
    Speaks(s, e, f) && e.chain.hdr.op == OP_RW && f in s.conns ==> Within(s.conns[f], e.chain.data)
  }

  lemma SpokenLags(s: State, e: Event, f: Flow, polite: bool)
    requires Inv(s) && Speaks(s, e, f) && f in s.conns && f in Step(s, e).conns
    requires Lags(ViewOf(s, f), SLOTS + 1, polite)
    ensures Lags(ViewOf(Step(s, e), f), SLOTS + 1, polite && KeepsWithin(s, e, f))
  {
    SpokenStep(s, e, f);
    assert FlowInv(f, ViewOf(s, f));
    var h := e.chain.hdr;
    if h.op != OP_REQUEST {
      NotedFlow(s, f, h);
      SetCalm(s, f, NoteCredit(s.conns[f], h));
      DispatchLags(SetConn(s, f, NoteCredit(s.conns[f], h)), f, h, e.chain.data, e.host, polite);
    }
  }

  lemma OtherTxLags(s: State, e: Event, f: Flow, polite: bool)
    requires Inv(s) && e.GuestTx? && f in s.conns && f in Step(s, e).conns && !Speaks(s, e, f)
    requires Lags(ViewOf(s, f), SLOTS + 1, polite)
    ensures Lags(ViewOf(Step(s, e), f), SLOTS + 1, polite)
  {
    match e.chain
    case Short =>
    case Damaged(g) => DroppedOther(s, g, f);
    case Packet(h, data) => OtherPacketLags(s, h, data, e.host, f, polite);
  }

  lemma DroppedOther(s: State, g: Flow, f: Flow)
    requires f in DropConn(s, g, true).conns
    ensures ViewOf(DropConn(s, g, true), f) == ViewOf(s, f)
  {
    DropConnView(s, g, true);
  }

  lemma OtherPacketLags(s: State, h: Header, data: seq<u8>, host: Host, f: Flow, polite: bool)
    requires Inv(s) && f in s.conns && Lags(ViewOf(s, f), SLOTS + 1, polite)
    requires !(h.srcCid == s.guestCid && h.dstCid == HOST_CID && h.kind == TYPE_STREAM && HdrFlow(h) == f)
    ensures Lags(ViewOf(HandleGuestPkt(s, h, data, host), f), SLOTS + 1, polite)
  {
    if HdrFlow(h) == f {
      RstCalm(s, f);
      CalmLags(ViewOf(s, f), ViewOf(EnqueueRst(s, f), f), SLOTS + 1, polite);
      SilentPacket(s, h, data, host, f);
    } else {
      OtherView(s, h, data, host, f);
    }
  }

  /** A packet that is no stream packet of this guest queues a RST at most. */
  lemma SilentPacket(s: State, h: Header, data: seq<u8>, host: Host, f: Flow)
    requires HdrFlow(h) == f && !(h.srcCid == s.guestCid && h.dstCid == HOST_CID && h.kind == TYPE_STREAM)
    ensures HandleGuestPkt(s, h, data, host) == s || HandleGuestPkt(s, h, data, host) == EnqueueRst(s, f)
  {
  }

  lemma OtherView(s: State, h: Header, data: seq<u8>, host: Host, f: Flow)
    requires Inv(s) && HdrFlow(h) != f
    ensures ViewOf(HandleGuestPkt(s, h, data, host), f) == ViewOf(s, f)
  {
    assert FlowInv(HdrFlow(h), ViewOf(s, HdrFlow(h)));
    HandleGuestPktKeeps(s, h, data, host);
  }

  lemma EofCalm(s: State, f: Flow, now: nat)
    requires f in s.conns && f in OnHostEof(s, f, now).conns
    ensures Calm(ViewOf(s, f), ViewOf(OnHostEof(s, f, now), f))
  {
    MarkShutCalm(s, f, false, true, now);
  }

  lemma ReadLags(s: State, f: Flow, read: Read, now: nat, polite: bool)
    requires f in s.conns && f in ReadConn(s, f, read, now).conns && Lags(ViewOf(s, f), SLOTS + 1, polite)
    ensures Lags(ViewOf(ReadConn(s, f, read, now), f), SLOTS + 1, polite)
  {
    if read.Again? {
      return;
    }
    if read.Bytes? && read.data != [] {
      IngestCalm(s, f, read.data[..Min(|read.data|, MAX_CHUNK)]);
    } else if read.Broken? {
      MarkShutCalm(s, f, true, true, now);
    } else {
      EofCalm(s, f, now);
    }
    CalmLags(ViewOf(s, f), ViewOf(ReadConn(s, f, read, now), f), SLOTS + 1, polite);
  }

  lemma ConnFdLags(s: State, f: Flow, r: Ready, polite: bool)
    requires Inv(s) && f in s.conns && f in OnConnFd(s, f, r).conns && Lags(ViewOf(s, f), SLOTS + 1, polite)
    ensures Lags(ViewOf(OnConnFd(s, f, r), f), SLOTS + 1, polite)
  {
    assert FlowInv(f, ViewOf(s, f));
    var s1 := if r.readable then ReadConn(s, f, r.read, r.now) else s;
    ReadConnKeeps(s, f, r.read, r.now);
    if r.readable {
      ReadLags(s, f, r.read, r.now, polite);
    }
    if r.writable {
      if s1.conns[f].connecting {
        ConnectLags(s1, f, polite);
      } else {
        FlushLags(s1, f, r.sends, r.now, polite);
      }
    }
  }

  lemma ConnectLags(s: State, f: Flow, polite: bool)
    requires f in s.conns && Lags(ViewOf(s, f), SLOTS + 1, polite)
    ensures Lags(ViewOf(FinishConnect(s, f, true), f), SLOTS + 1, polite)
  {
    var s1 := SetConn(s, f, ConnectDone(s.conns[f]));
    SetCalm(s, f, ConnectDone(s.conns[f]));
    PushCalm(s1, Ctrl(f, OP_RESPONSE, 0));
  }

  // ---- delivery ----

  lemma DeliverLags(s: State, avail: nat, f: Flow, polite: bool)
    requires Inv(s) && HasOut(s) && Fits(Front(s), avail) && f in s.conns && Lags(ViewOf(s, f), SLOTS + 1, polite)
    ensures Lags(ViewOf(Deliver(s, avail), f), SLOTS + 1, polite)
  {
    var p := Front(s);
    var s' := Deliver(s, avail);
    DeliverView(s, avail);
    if p.flow != f {
      assert ViewOf(s', f) == ViewOf(s, f);
    } else {
      assert FlowInv(f, ViewOf(s, f));
      var c, ctrl := s.conns[f], OfFlow(s'.outCtrl, f);
      if s.outCtrl != [] {
        CtrlDelivered(c, p, ctrl);
      } else {
        DataDelivered(c, p, p.data[..Min(|p.data|, avail - HDR_LEN)]);
        assert ctrl == [];
      }
    }
  }

  lemma CtrlDelivered(c: Conn, p: OutPkt, ctrl: seq<OutPkt>)
    requires Lag(c, [p] + ctrl, SLOTS + 1) && Announced(c, [p] + ctrl) && CountOp([p] + ctrl, OP_CREDIT_UPDATE) <= 1
    requires |c.toHost| <= |c.log.accepted|
    ensures Lag(NoteDelivered(c, p, p.data[..0]), ctrl, SLOTS + 1)
  {
    AheadCons(p, ctrl);
    CountCons(p, ctrl);
  }

  lemma DataDelivered(c: Conn, p: OutPkt, bytes: seq<u8>)
    requires Lag(c, [], SLOTS + 1) && Announced(c, []) && |c.toHost| <= |c.log.accepted|
    ensures Lag(NoteDelivered(c, p, bytes), [], SLOTS + 1)
  {
  }

  // ---- runs ----

  /** A connection that has taken no byte yet. */
  lemma NewLags(s: State, f: Flow)
    requires Inv(s) && f in s.conns && Unused(s.conns[f])
    ensures Lags(ViewOf(s, f), SLOTS + 1, true)
  {
    assert FlowInv(f, ViewOf(s, f));
    CtrlLength(f, s.conns[f], ViewOf(s, f).ctrl, ViewOf(s, f).data);
    LagNonNegative(|ViewOf(s, f).ctrl|, Ahead(ViewOf(s, f).ctrl));
  }

  lemma {:induction false} TimeoutView(s: State, order: seq<Flow>, now: nat, f: Flow)
    requires f in DropExpired(s, order, now).conns
    ensures ViewOf(DropExpired(s, order, now), f) == ViewOf(s, f)
    decreases |order|
  {
    if order != [] {
      var g := order[0];
      var s1 := if g in s.conns && Expired(s.conns[g], now) then DropConn(s, g, true) else s;
      TimeoutView(s1, order[1..], now, f);
      DropConnView(s, g, true);
    }
  }

  lemma OtherEventView(s: State, e: Event, f: Flow)
    requires Inv(s) && f in s.conns && f in Step(s, e).conns
    requires !e.GuestTx? && !e.GuestRx? && !(e.ConnReady? && e.flow == f)
    ensures ViewOf(Step(s, e), f).conn == ViewOf(s, f).conn && ViewOf(Step(s, e), f).ctrl == ViewOf(s, f).ctrl
  {
    if e.IncomingReady? {
      IncomingNew(s, e.i, e.read, e.now);
    } else if e.ConnReady? {
      assert FlowInv(e.flow, ViewOf(s, e.flow));
      OnConnFdKeeps(s, e.flow, e.ready);
      assert ViewOf(Step(s, e), f) == ViewOf(s, f);
    } else if e.Timeouts? {
      TimeoutView(s, e.order, e.now, f);
    }
  }

  lemma StepLags(s: State, e: Event, f: Flow, polite: bool)
    requires Inv(s) && f in s.conns && f in Step(s, e).conns && Lags(ViewOf(s, f), SLOTS + 1, polite)
    ensures Lags(ViewOf(Step(s, e), f), SLOTS + 1, polite && KeepsWithin(s, e, f))
  {
    if e.GuestTx? {
      if Speaks(s, e, f) {
        SpokenLags(s, e, f, polite);
      } else {
        OtherTxLags(s, e, f, polite);
      }
    } else if e.GuestRx? {
      if HasOut(s) && Fits(Front(s), e.avail) {
        DeliverLags(s, e.avail, f, polite);
      }
    } else if e.ConnReady? && e.flow == f {
      ConnFdLags(s, f, e.ready, polite);
    } else {
      OtherEventView(s, e, f);
    }
  }

  /** Some verdict on the guest stands, and the lag is bounded if it is good. */
  predicate Judged(s: State, f: Flow) {
    f in s.conns ==> Lags(ViewOf(s, f), SLOTS + 1, s.conns[f].log.polite)
  }

  lemma StepJudged(s: State, e: Event, f: Flow)
    requires Inv(s) && Judged(s, f)
    ensures Judged(Step(s, e), f)
    ensures f in s.conns && f in Step(s, e).conns ==>
              Step(s, e).conns[f].log.polite == (s.conns[f].log.polite && KeepsWithin(s, e, f))
    ensures f !in s.conns && f in Step(s, e).conns ==> Step(s, e).conns[f].log.polite
  {
    if f in Step(s, e).conns {
      if f in s.conns {
        StepLags(s, e, f, s.conns[f].log.polite);
      } else {
        StepKeeps(s, e);
        Appears(s, e, f);
        NewLags(Step(s, e), f);
      }
    }
  }

  lemma {:induction false} RunJudged(guestCid: u64, es: seq<Event>, f: Flow)
    ensures Judged(Run(Init(guestCid), es), f)
  {
    if es != [] {
      var k := |es| - 1;
      RunJudged(guestCid, es[..k], f);
      Reachable(guestCid, es[..k]);
      StepJudged(Run(Init(guestCid), es[..k]), es[k], f);
    }
  }

  /**
   For a connection whose guest never sent past the buffer its last header announced, at every point of every run:
   a CREDIT_UPDATE is queued, or fewer than max(buf_alloc/4, 4096) forwarded bytes are missing from that header.
   The unannounced bytes are bounded throughout, so the 32-bit distance is never ambiguous.
   */
  lemma PoliteKeepsUp(guestCid: u64, es: seq<Event>, f: Flow)
    requires f in Run(Init(guestCid), es).conns && Run(Init(guestCid), es).conns[f].log.polite
    requires !Run(Init(guestCid), es).conns[f].localShutRecv
    ensures var s := Run(Init(guestCid), es);
            var c := s.conns[f];
            && Forwarded(c) - c.log.announced <= (SLOTS + 1) * BUF_ALLOC < M32
            && (Queued(s.outCtrl, f, OP_CREDIT_UPDATE) || Forwarded(c) - c.log.covered < Max(c.bufAlloc / 4, 4096))
  {
    Reachable(guestCid, es);
    RunJudged(guestCid, es, f);
    var s := Run(Init(guestCid), es);
    assert FlowInv(f, ViewOf(s, f));
    QueuedIsCount(s.outCtrl, f, OP_CREDIT_UPDATE);
    AheadBound(s.conns[f], OfFlow(s.outCtrl, f));
  }

  lemma AheadBound(c: Conn, ctrl: seq<OutPkt>)
    requires Lag(c, ctrl, SLOTS + 1) && c.log.polite && !c.localShutRecv && |c.toHost| <= |c.log.accepted|
    ensures Forwarded(c) - c.log.announced <= (SLOTS + 1) * BUF_ALLOC
  {
    assert (SLOTS - Ahead(ctrl)) * BUF_ALLOC <= SLOTS * BUF_ALLOC;
  }

  /** The guest stays within the announced buffer on flow `f` throughout a run. */
  predicate PoliteRun(s: State, es: seq<Event>, f: Flow) {
    es == [] ||
    var k := |es| - 1;
    PoliteRun(s, es[..k], f) && KeepsWithin(Run(s, es[..k]), es[k], f)
  }

  /** Then every connection on that flow is one `PoliteKeepsUp` speaks of. */
  lemma {:induction false} PoliteRunKeeps(guestCid: u64, es: seq<Event>, f: Flow)
    requires PoliteRun(Init(guestCid), es, f)
    ensures var s := Run(Init(guestCid), es); f in s.conns ==> s.conns[f].log.polite
  {
    if es != [] {
      var k := |es| - 1;
      PoliteRunKeeps(guestCid, es[..k], f);
      Reachable(guestCid, es[..k]);
      RunJudged(guestCid, es[..k], f);
      StepJudged(Run(Init(guestCid), es[..k]), es[k], f);
    }
  }
}
