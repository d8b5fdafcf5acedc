/** The laws of the vsock device, stated for every run from the initial state. */
module MuxTheorems {
  import opened Machine
  import opened Wire
  import opened MuxSpec
  import opened MuxQueues
  import opened MuxInvariant
  import opened MuxRuns

  // ---- what only a guest packet can change ----

  /** Phase and recorded guest credit of every surviving connection are as before. */
  predicate Steady(s: State, s': State) {
    forall f :: f in s.conns && f in s'.conns ==> SteadyConn(s.conns[f], s'.conns[f])
  }

  predicate SteadyConn(c: Conn, c': Conn) {
    && c'.phase == c.phase && c'.peerBufAlloc == c.peerBufAlloc && c'.peerFwdCnt == c.peerFwdCnt
    && c'.log.guestFwd == c.log.guestFwd && c'.log.honest == c.log.honest
    && c'.log.id == c.log.id
  }

  /** Beyond that, a pending connect stays pending, and only a new announcement touches the history of the last. */
  predicate FirmConn(c: Conn, c': Conn) {
    SteadyConn(c, c') && c'.connecting == c.connecting && SinceAnnounced(c, c')
  }

  predicate SinceAnnounced(c: Conn, c': Conn) {
    && c.log.said <= c'.log.said
    && c'.log.connectedSince == (c'.log.said == c.log.said && c.log.connectedSince)
  }

  /** And nothing is delivered. */
  predicate StillConn(c: Conn, c': Conn) {
    FirmConn(c, c') && c'.log.delivered == c.log.delivered
  }

  /** No connection appears, and those that stay are still. */
  predicate Settles(s: State, s': State) {
    && s'.conns.Keys <= s.conns.Keys
    && forall f :: f in s.conns && f in s'.conns ==> StillConn(s.conns[f], s'.conns[f])
  }

  lemma SettlesTransitive(a: State, b: State, c: State)
    requires Settles(a, b) && Settles(b, c)
    ensures Settles(a, c)
  {
    forall f | f in a.conns && f in c.conns ensures StillConn(a.conns[f], c.conns[f]) {
      assert f in b.conns;
      assert StillConn(a.conns[f], b.conns[f]) && StillConn(b.conns[f], c.conns[f]);
    }
  }

  lemma SetConnSettles(s: State, f: Flow, c: Conn)
    requires f in s.conns && StillConn(s.conns[f], c)
    ensures Settles(s, SetConn(s, f, c))
  {
  }

  lemma IngestSettles(s: State, f: Flow, data: seq<u8>)
    ensures Settles(s, Ingest(s, f, data))
  {
  }

  lemma MarkLocalShutSettles(s: State, f: Flow, recv: bool, send: bool, now: nat)
    ensures Settles(s, MarkLocalShut(s, f, recv, send, now))
  {
  }

  lemma MaybeCreditSettles(s: State, f: Flow)
    ensures Settles(s, MaybeCredit(s, f))
  {
  }

  lemma FlushBothSteady(c: Conn, sends: seq<Send>)
    ensures StillConn(c, FlushBoth(c, sends).conn)
  {
    var n := FlushOkTakes(c, sends);
    var r := FlushOk(c, sends);
    if r.ok {
      var m := FlushToHostTakes(r.conn, r.rest);
    }
  }

  lemma FlushConnSettles(s: State, f: Flow, sends: seq<Send>, now: nat)
    ensures Settles(s, FlushConn(s, f, sends, now))
  {
    if f in s.conns {
      FlushBothSteady(s.conns[f], sends);
      var r := FlushBoth(s.conns[f], sends);
      var c := ShutWrite(r.conn);
      SetConnSettles(s, f, c);
      SetConnSettles(s, f, r.conn);
      if !r.ok {
        var s1 := SetConn(s, f, r.conn);
        MarkLocalShutSettles(s1, f, true, true, now);
        SettlesTransitive(s, s1, FlushConn(s, f, sends, now));
      } else if c.okPending == [] {
        var s1 := SetConn(s, f, c.(prefetched := []));
        SetConnSettles(s, f, c.(prefetched := []));
        var s2 := Ingest(s1, f, c.prefetched);
        IngestSettles(s1, f, c.prefetched);
        SettlesTransitive(s, s1, s2);
        MaybeCreditSettles(s2, f);
        SettlesTransitive(s, s2, MaybeCredit(s2, f));
      }
    }
  }

  /** A ready socket: firm, except that a pending connect may complete. */
  lemma ConnFdSettles(s: State, f: Flow, r: Ready)
    ensures OnConnFd(s, f, r).conns.Keys <= s.conns.Keys && Steady(s, OnConnFd(s, f, r))
    ensures f in s.conns && r.writable && s.conns[f].connecting && f in OnConnFd(s, f, r).conns ==>
              OnConnFd(s, f, r).conns[f].log.connectedSince
    ensures !(f in s.conns && r.writable && s.conns[f].connecting) ==> Settles(s, OnConnFd(s, f, r))
  {
    if f in s.conns {
      var s1 := if r.readable then ReadConn(s, f, r.read, r.now) else s;
      ReadConnSettles(s, f, r.read, r.now);
      assert Settles(s, s1);
      if f in s1.conns && r.writable {
        if s1.conns[f].connecting {
          ConnectSteady(s, s1, f, r.connectOk);
        } else {
          FlushConnSettles(s1, f, r.sends, r.now);
          SettlesTransitive(s, s1, FlushConn(s1, f, r.sends, r.now));
        }
      }
    }
  }

  lemma ConnectSteady(s: State, s1: State, f: Flow, ok: bool)
    requires Settles(s, s1) && f in s1.conns
    ensures var s' := FinishConnect(s1, f, ok);
            s'.conns.Keys <= s.conns.Keys && Steady(s, s') && (f in s'.conns ==> s'.conns[f].log.connectedSince)
  {
    var s' := FinishConnect(s1, f, ok);
    forall g | g in s.conns && g in s'.conns ensures SteadyConn(s.conns[g], s'.conns[g]) {
      assert g in s1.conns;
      assert StillConn(s.conns[g], s1.conns[g]);
    }
  }

  lemma ReadConnSettles(s: State, f: Flow, read: Read, now: nat)
    ensures Settles(s, ReadConn(s, f, read, now))
  {
    MarkLocalShutSettles(s, f, true, true, now);
    MarkLocalShutSettles(s, f, false, true, now);
    if read.Bytes? {
      IngestSettles(s, f, read.data[..Min(|read.data|, MAX_CHUNK)]);
    }
  }

  /** A live connection's packet: note the credit, then act; only RESPONSE touches the phase. */
  lemma DispatchSettles(s: State, f: Flow, hdr: Header, data: seq<u8>, host: Host)
    requires hdr.op != OP_RESPONSE
    ensures Settles(s, Dispatch(s, f, hdr, data, host))
  {
    if f in s.conns {
      if hdr.op == OP_SHUTDOWN {
        var c1 := PeerShut(s.conns[f], hdr.flags);
        SetConnSettles(s, f, c1);
        FlushConnSettles(SetConn(s, f, c1), f, host.sends, host.now);
        SettlesTransitive(s, SetConn(s, f, c1), OnShutdown(s, f, hdr.flags, host.sends, host.now));
      } else if hdr.op == OP_RW {
        RwSettles(s, f, data, host.sends, host.now);
      }
    }
  }

  lemma RwSettles(s: State, f: Flow, data: seq<u8>, sends: seq<Send>, now: nat)
    ensures Settles(s, OnRw(s, f, data, sends, now))
  {
    if data != [] && f in s.conns && AcceptsRw(s.conns[f]) && Wrap(|data|) <= LocalFree(s.conns[f]) {
      var s1 := SetConn(s, f, TakeRw(s.conns[f], data));
      SetConnSettles(s, f, TakeRw(s.conns[f], data));
      FlushConnSettles(s1, f, sends, now);
      SettlesTransitive(s, s1, OnRw(s, f, data, sends, now));
    }
  }

  /** The event is a stream packet of this guest on flow `f`. */
  predicate Speaks(s: State, e: Event, f: Flow) {
    && e.GuestTx? && e.chain.Packet?
    && var h := e.chain.hdr;
       h.srcCid == s.guestCid && h.dstCid == HOST_CID && h.kind == TYPE_STREAM && HdrFlow(h) == f
  }

  /** A guest packet that is not a stream packet on `f` leaves the connection of `f` alone or removes it. */
  lemma OtherTxSame(s: State, e: Event, f: Flow)
    requires Inv(s) && e.GuestTx? && f in s.conns && f in Step(s, e).conns && !Speaks(s, e, f)
    ensures Step(s, e).conns[f] == s.conns[f]
  {
    match e.chain
    case Short =>
    case Damaged(g) =>
    case Packet(h, data) =>
      var g := HdrFlow(h);
      assert FlowInv(g, ViewOf(s, g));
      HandleGuestPktKeeps(s, h, data, e.host);
      if g != f {
        assert ViewOf(Step(s, e), f) == ViewOf(s, f);
      }
  }

  /** A new connection: nothing taken, nothing announced. */
  predicate Unused(c: Conn) {
    c.log.polite && c.log.accepted == [] && c.log.covered == c.log.announced == 0 && !c.hostWriteShut
  }

  lemma OpenHostConnSteady(s: State, guestPort: u32, rest: seq<u8>, now: nat)
    requires FIRST_PORT <= s.nextHostPort
    ensures var s' := OpenHostConn(s, guestPort, rest, now);
            && s.conns.Keys <= s'.conns.Keys
            && (forall f :: f in s.conns ==> s'.conns[f] == s.conns[f])
            && (forall f :: f in s'.conns && f !in s.conns ==> Unused(s'.conns[f]) && s'.conns[f].log.honest)
            && (forall f :: f in s.conns ==> OfFlow(s'.outCtrl, f) == OfFlow(s.outCtrl, f))
  {
    AllocatedFlowIsNew(s, guestPort);
    var a := AllocPort(s.nextHostPort, HostPorts(s), PORT_TRIES);
    if a.port.Some? {
      var f := Flow(guestPort, a.port.value);
      HostConnViews(s.(nextHostPort := a.next), f, HostConn(s.nextId, rest, now));
      forall g | g in s.conns ensures OfFlow(OpenHostConn(s, guestPort, rest, now).outCtrl, g) == OfFlow(s.outCtrl, g) {
        assert g != f;
        OfFlowPush(s.outCtrl, Ctrl(f, OP_REQUEST, 0), g);
      }
    }
  }

  /** The event completes a connect that was pending on flow `f`. */
  predicate Connects(s: State, e: Event, f: Flow) {
    e.ConnReady? && e.flow == f && e.ready.writable && f in s.conns && s.conns[f].connecting
  }

  lemma QuietSteady(s: State, e: Event, f: Flow)
    requires Inv(s) && f in s.conns && f in Step(s, e).conns && !Speaks(s, e, f)
    ensures SteadyConn(s.conns[f], Step(s, e).conns[f])
    ensures !Connects(s, e, f) ==> FirmConn(s.conns[f], Step(s, e).conns[f])
    ensures Connects(s, e, f) ==> Step(s, e).conns[f].log.connectedSince
  {
    match e
    case Accept =>
    case IncomingReady(i, read, now) => IncomingNew(s, i, read, now);
    case ConnReady(g, ready) =>
      if g == f {
        ConnFdSettles(s, g, ready);
      } else {
        OtherFdSteady(s, g, ready, f);
      }
    case GuestTx(_, _) => OtherTxSame(s, e, f);
    case GuestRx(avail) => RxFirm(s, avail, f);
    case Timeouts(order, now) => DropExpiredConns(s, order, now);
    case TransportDown =>
  }

  lemma RxFirm(s: State, avail: nat, f: Flow)
    requires f in s.conns
    ensures f in RxBuffer(s, avail).conns && FirmConn(s.conns[f], RxBuffer(s, avail).conns[f])
  {
  }

  lemma OtherFdSteady(s: State, g: Flow, ready: Ready, f: Flow)
    requires Inv(s) && f != g && f in s.conns && f in OnConnFd(s, g, ready).conns
    ensures OnConnFd(s, g, ready).conns[f] == s.conns[f]
  {
    assert FlowInv(g, ViewOf(s, g));
    OnConnFdKeeps(s, g, ready);
    assert ViewOf(OnConnFd(s, g, ready), f) == ViewOf(s, f);
  }

  lemma IncomingNew(s: State, i: nat, read: Read, now: nat)
    requires FIRST_PORT <= s.nextHostPort
    ensures var s' := ReadIncoming(s, i, read, now);
            && s.conns.Keys <= s'.conns.Keys
            && (forall f :: f in s.conns ==> s'.conns[f] == s.conns[f])
            && (forall f :: f in s'.conns && f !in s.conns ==> Unused(s'.conns[f]) && s'.conns[f].log.honest)
            && (forall f :: f in s.conns ==> OfFlow(s'.outCtrl, f) == OfFlow(s.outCtrl, f))
  {
    if i < |s.incoming| && read.Bytes? && read.data != [] {
      var buf := s.incoming[i] + read.data[..Min(|read.data|, 64)];
      var nl := IndexOfNewline(buf);
      if nl < |buf| && ParseConnect(StripCr(buf[..nl])).Some? {
        var s1 := s.(incoming := RemoveAt(s.incoming[i := buf], i));
        OpenHostConnSteady(s1, ParseConnect(StripCr(buf[..nl])).value, buf[nl + 1..], now);
      }
    }
  }

  /** A stream packet on a live flow first notes its credit fields, then acts. */
  lemma SpokenStep(s: State, e: Event, f: Flow)
    requires Speaks(s, e, f) && f in s.conns
    ensures var h := e.chain.hdr;
            Step(s, e) == if h.op == OP_REQUEST then DropConn(s, f, true)
                          else Dispatch(SetConn(s, f, NoteCredit(s.conns[f], h)), f, h,
                                        e.chain.data, e.host)
  {
  }

  // ---- handshake ----

  /** A connection waiting for the guest leaves that phase only through a RESPONSE on its own flow. */
  lemma LeavesWaitingOnlyByResponse(s: State, e: Event, f: Flow)
    requires Inv(s) && f in s.conns && s.conns[f].phase == WaitGuest
    requires f in Step(s, e).conns && Step(s, e).conns[f].phase != WaitGuest
    ensures Speaks(s, e, f) && e.chain.hdr.op == OP_RESPONSE
  {
    if !Speaks(s, e, f) {
      QuietSteady(s, e, f);
    } else {
      var h := e.chain.hdr;
      SpokenStep(s, e, f);
      if h.op != OP_RESPONSE && h.op != OP_REQUEST {
        DispatchSettles(SetConn(s, f, NoteCredit(s.conns[f], h)), f, h, e.chain.data, e.host);
      }
    }
  }

  /** Handshake and deadlines of a live connection in every reachable state. */
  lemma HandshakeLaws(guestCid: u64, es: seq<Event>, f: Flow)
    requires f in Run(Init(guestCid), es).conns
    ensures var s := Run(Init(guestCid), es);
            var c := s.conns[f];
            && (c.phase == WaitGuest ==>
                  && c.sentToGuest == c.received == c.fwdCnt == c.lastFwdSent == 0
                  && c.toHost == c.okPending == [] && OfFlow(s.outData, f) == []
                  && c.log.hostInit && c.expiry.Some?)
            && (c.connecting ==> !c.log.hostInit && c.expiry.Some?)
            && (c.log.hostInit ==> CountOp(OfFlow(s.outCtrl, f), OP_REQUEST) + c.log.requestOut == 1)
            && (!c.log.hostInit ==>
                  CountOp(OfFlow(s.outCtrl, f), OP_RESPONSE) + c.log.responseOut == if c.connecting then 0 else 1)
            && (c.log.hostInit && (c.log.rwOut > 0 || c.log.delivered != []) ==> c.log.requestOut == 1)
  {
    Reachable(guestCid, es);
    var s := Run(Init(guestCid), es);
    assert FlowInv(f, ViewOf(s, f));
  }

  // ---- host to guest: credit ----

  /**
   What the credit rules ask of a guest packet on flow `f`: `g` is the guest's own count of bytes it forwarded,
   which never falls and never passes what it was sent, and the buffer it grants never shrinks.
   */
  predicate KeepsCreditRules(s: State, e: Event, g: nat, f: Flow) {
    Speaks(s, e, f) ==>
      var h := e.chain.hdr;
      if h.op == OP_REQUEST then h.fwdCnt == 0
      else f in s.conns ==>
        && s.conns[f].log.guestFwd <= g <= |s.conns[f].log.delivered|
        && h.fwdCnt == Wrap(g) && s.conns[f].peerBufAlloc <= h.bufAlloc
  }

  /** Every guest packet of the run on flow `f` keeps the rules, `gs` giving the guest's counter at each event. */
  predicate HonestRun(s: State, es: seq<Event>, gs: seq<nat>, f: Flow)
    requires |es| == |gs|
  {
    es == [] ||
    var k := |es| - 1;
    HonestRun(s, es[..k], gs[..k], f) && KeepsCreditRules(Run(s, es[..k]), es[k], gs[k], f)
  }

  predicate Honest(s: State, f: Flow) {
    f in s.conns ==> s.conns[f].log.honest
  }

  /** From the 32-bit field alone the guest's unbounded counter is recovered, across wrap-around. */
  lemma UnwrapExact(c: Conn, hdr: Header, data: seq<OutPkt>, g: nat)
    requires HostToGuest(c, data) && c.log.honest
    requires c.log.guestFwd <= g <= |c.log.delivered| && hdr.fwdCnt == Wrap(g) && c.peerBufAlloc <= hdr.bufAlloc
    ensures UnwrapFwd(c, hdr.fwdCnt) == g
    ensures NoteCredit(c, hdr).log.honest && NoteCredit(c, hdr).log.guestFwd == g
  {
    WrapSub(g, c.log.guestFwd);
  }

  lemma SpokenHonest(s: State, e: Event, f: Flow, g: nat)
    requires Inv(s) && Honest(s, f) && KeepsCreditRules(s, e, g, f) && Speaks(s, e, f)
    requires f in s.conns && f in Step(s, e).conns
    ensures Step(s, e).conns[f].log.honest
  {
    var h := e.chain.hdr;
    SpokenStep(s, e, f);
    assert FlowInv(f, ViewOf(s, f));
    if h.op != OP_REQUEST {
      var c := s.conns[f];
      UnwrapExact(c, h, ViewOf(s, f).data, g);
      var s1 := SetConn(s, f, NoteCredit(c, h));
      if h.op == OP_RESPONSE {
        FlushConnSettles(SetConn(s1, f, Answered(f, NoteCredit(c, h))), f, e.host.sends, e.host.now);
      } else {
        DispatchSettles(s1, f, h, e.chain.data, e.host);
      }
    }
  }

  /** How connections appear: by a host's CONNECT line, or by a guest REQUEST. */
  lemma Appears(s: State, e: Event, f: Flow)
    requires Inv(s) && f !in s.conns && f in Step(s, e).conns
    ensures (e.IncomingReady? && e.read.Bytes?) || (Speaks(s, e, f) && e.chain.hdr.op == OP_REQUEST)
    ensures Unused(Step(s, e).conns[f])
    ensures Step(s, e).conns[f].log.honest
            || (Speaks(s, e, f) && e.chain.hdr.op == OP_REQUEST && e.chain.hdr.fwdCnt != 0)
  {
    match e
    case Accept =>
    case IncomingReady(i, read, now) => IncomingNew(s, i, read, now);
    case ConnReady(h, ready) => ConnFdSettles(s, h, ready);
    case GuestTx(chain, host) => NewGuestConn(s, chain, host, f);
    case GuestRx(avail) =>
    case Timeouts(order, now) => DropExpiredConns(s, order, now);
    case TransportDown =>
  }

  /** A guest packet creates a connection only by a REQUEST on its flow. */
  lemma NewGuestConn(s: State, chain: TxChain, host: Host, f: Flow)
    requires Inv(s) && f !in s.conns && f in GuestChain(s, chain, host).conns
    ensures Speaks(s, GuestTx(chain, host), f) && chain.hdr.op == OP_REQUEST
    ensures GuestChain(s, chain, host).conns[f] == GuestConn(s.nextId, chain.hdr, host)
  {
    if chain.Packet? {
      var h := chain.hdr;
      assert FlowInv(HdrFlow(h), ViewOf(s, HdrFlow(h)));
      HandleGuestPktKeeps(s, h, chain.data, host);
      assert HdrFlow(h) != f ==> ViewOf(GuestChain(s, chain, host), f) == ViewOf(s, f);
    }
  }

  lemma HonestStep(s: State, e: Event, g: nat, f: Flow)
    requires Inv(s) && Honest(s, f) && KeepsCreditRules(s, e, g, f)
    ensures Honest(Step(s, e), f)
  {
    if f in Step(s, e).conns {
      if f !in s.conns {
        Appears(s, e, f);
      } else if Speaks(s, e, f) {
        SpokenHonest(s, e, f, g);
      } else {
        QuietSteady(s, e, f);
      }
    }
  }

  lemma {:induction false} HonestRunKeeps(guestCid: u64, es: seq<Event>, gs: seq<nat>, f: Flow)
    requires |es| == |gs| && HonestRun(Init(guestCid), es, gs, f)
    ensures Honest(Run(Init(guestCid), es), f)
  {
    if es != [] {
      var k := |es| - 1;
      HonestRunKeeps(guestCid, es[..k], gs[..k], f);
      Reachable(guestCid, es[..k]);
      HonestStep(Run(Init(guestCid), es[..k]), es[k], gs[k], f);
    }
  }

  /** The bytes queued or delivered but not yet forwarded fit what the guest granted, and `peer_avail` is exact. */
  predicate WithinGrant(s: State, f: Flow)
    requires f in s.conns
  {
    var c := s.conns[f];
    && c.log.guestFwd <= |c.log.delivered|
    && (|c.log.delivered| - c.log.guestFwd) + |Payload(OfFlow(s.outData, f))| <= c.peerBufAlloc
    && PeerAvail(c) == c.peerBufAlloc - (|c.log.queued| - c.log.guestFwd)
  }

  /**
   Credit safety over whole runs. Whatever the hosts do, and whatever the guest sends on other flows, a flow
   whose packets keep the credit rules is never sent more than the guest granted, and the 32-bit arithmetic
   of `peer_avail` is exact, however often the counters have wrapped.
   */
  lemma CreditSafety(guestCid: u64, es: seq<Event>, gs: seq<nat>, f: Flow)
    requires |es| == |gs| && HonestRun(Init(guestCid), es, gs, f)
    requires f in Run(Init(guestCid), es).conns
    ensures WithinGrant(Run(Init(guestCid), es), f)
  {
    HonestRunKeeps(guestCid, es, gs, f);
    ConnCreditSafety(guestCid, es, f);
  }

  /** So it is for a single connection judged by its own headers, whatever an earlier one on its flow did. */
  lemma ConnCreditSafety(guestCid: u64, es: seq<Event>, f: Flow)
    requires f in Run(Init(guestCid), es).conns && Run(Init(guestCid), es).conns[f].log.honest
    ensures WithinGrant(Run(Init(guestCid), es), f)
  {
    Reachable(guestCid, es);
    var s := Run(Init(guestCid), es);
    assert FlowInv(f, ViewOf(s, f));
    PeerAvailExact(s.conns[f], ViewOf(s, f).data);
  }

  // ---- host to guest: fragmentation ----

  /** The RW bytes the guest was handed on flow `f`, in order. */
  function DeliveredTo(wire: seq<Delivery>, f: Flow): seq<u8> {
    if wire == [] then []
    else
      var d := wire[|wire| - 1];
      var before := DeliveredTo(wire[..|wire| - 1], f);
      if d.flow == f && d.op == OP_RW then before + d.payload else before
  }

  lemma DeliverConserves(s: State, avail: nat, f: Flow)
    requires Inv(s) && HasOut(s) && Fits(Front(s), avail)
    ensures var s' := Deliver(s, avail);
            DeliveredTo(s'.wire, f) + Payload(OfFlow(s'.outData, f)) ==
            DeliveredTo(s.wire, f) + Payload(OfFlow(s.outData, f))
  {
    DeliverView(s, avail);
    var p := Front(s);
    var s' := Deliver(s, avail);
    assert s'.wire[..|s'.wire| - 1] == s.wire;
    if p.flow != f {
      assert ViewOf(s', f) == ViewOf(s, f);
    } else if s.outCtrl == [] {
      var n := Min(|p.data|, avail - HDR_LEN);
      var tail := OfFlow(s.outData[1..], f);
      var head := if n < |p.data| then [p.(data := p.data[n..])] else [];
      SplitBytes(p, n, head, tail, DeliveredTo(s.wire, f));
    }
  }

  /**
   `push_rx` over any sequence of buffer sizes: on every flow, what the guest was handed followed by what
   is still queued is the same byte stream before and after.
   */
  lemma {:induction false} PushRxConserves(s: State, bufs: seq<nat>, f: Flow)
    requires Inv(s)
    ensures var r := PushRx(s, bufs);
            && DeliveredTo(r.mux.wire, f) + Payload(OfFlow(r.mux.outData, f)) ==
               DeliveredTo(s.wire, f) + Payload(OfFlow(s.outData, f))
    decreases |bufs|
  {
    if bufs != [] && HasOut(s) && Fits(Front(s), bufs[0]) {
      var s1 := Deliver(s, bufs[0]);
      DeliverKeeps(s, bufs[0]);
      DeliverConserves(s, bufs[0], f);
      PushRxConserves(s1, bufs[1..], f);
    }
  }

  /** Each buffer taken is reported used within its size, the rest stay in the ring, and the invariant holds on. */
  lemma {:induction false} PushRxKeeps(s: State, bufs: seq<nat>)
    requires Inv(s)
    ensures var r := PushRx(s, bufs);
            && Inv(r.mux) && Evolves(s, r.mux)
            && |r.used| <= |bufs| && r.left == bufs[|r.used|..]
            && (forall i :: 0 <= i < |r.used| ==> r.used[i] <= bufs[i])
    decreases |bufs|
  {
    if bufs != [] && HasOut(s) && Fits(Front(s), bufs[0]) {
      var s1 := Deliver(s, bufs[0]);
      DeliverKeeps(s, bufs[0]);
      PushRxKeeps(s1, bufs[1..]);
      var r, r1 := PushRx(s, bufs), PushRx(s1, bufs[1..]);
      EvolvesTransitive(s, s1, r.mux);
      UsedCons(r1.used, bufs, r.used[0]);
    }
  }

  lemma UsedCons(used: seq<nat>, bufs: seq<nat>, n: nat)
    requires bufs != [] && n <= bufs[0] && |used| <= |bufs| - 1
    requires forall i :: 0 <= i < |used| ==> used[i] <= bufs[1..][i]
    ensures forall i :: 0 <= i < |used| + 1 ==> ([n] + used)[i] <= bufs[i]
    ensures bufs[1..][|used|..] == bufs[|used| + 1..]
  {
    forall i | 0 <= i < |used| + 1 ensures ([n] + used)[i] <= bufs[i] {
      if i > 0 {
        assert used[i - 1] <= bufs[1..][i - 1];
      }
    }
  }

  /** The packets handed over are exactly the non-zero used lengths, in order. */
  lemma {:induction false} PushRxUsed(s: State, bufs: seq<nat>)
    requires Inv(s)
    ensures UsedMatches(s.wire, PushRx(s, bufs).mux.wire, PushRx(s, bufs).used)
    decreases |bufs|
  {
    if bufs != [] && HasOut(s) && Fits(Front(s), bufs[0]) {
      var s1 := Deliver(s, bufs[0]);
      DeliverKeeps(s, bufs[0]);
      PushRxUsed(s1, bufs[1..]);
      var r, r1 := PushRx(s, bufs), PushRx(s1, bufs[1..]);
      var d := s1.wire[|s.wire|];
      assert s1.wire == s.wire + [d];
      UsedMatchesCons(s.wire, d, r.mux.wire, r1.used);
    }
  }

  /** `used` lists the lengths of the packets `wire` gained over `before`, then possibly one zero. */
  predicate UsedMatches(before: seq<Delivery>, wire: seq<Delivery>, used: seq<nat>) {
    && |before| <= |wire| && wire[..|before|] == before
    && |wire| - |before| <= |used| <= |wire| - |before| + 1
    && forall i :: 0 <= i < |used| ==>
         used[i] == if |before| + i < |wire| then HDR_LEN + |wire[|before| + i].payload| else 0
  }

  lemma UsedMatchesCons(before: seq<Delivery>, d: Delivery, wire: seq<Delivery>, used: seq<nat>)
    requires UsedMatches(before + [d], wire, used)
    ensures UsedMatches(before, wire, [HDR_LEN + |d.payload|] + used)
  {
    var b1, u1 := before + [d], [HDR_LEN + |d.payload|] + used;
    assert wire[..|before|] == wire[..|b1|][..|before|];
    assert wire[|before|] == wire[..|b1|][|before|] == d;
    forall i | 0 <= i < |u1|
      ensures u1[i] == if |before| + i < |wire| then HDR_LEN + |wire[|before| + i].payload| else 0
    {
      if i > 0 {
        assert u1[i] == used[i - 1] && |b1| + (i - 1) == |before| + i;
      }
    }
  }

  /** The stream of a live connection: delivered, then queued, and the 32-bit counter follows its length. */
  lemma HostToGuestStream(guestCid: u64, es: seq<Event>, f: Flow)
    requires f in Run(Init(guestCid), es).conns
    ensures var s := Run(Init(guestCid), es);
            var c := s.conns[f];
            && c.log.delivered + Payload(OfFlow(s.outData, f)) == c.log.queued
            && c.sentToGuest == |c.log.queued| % M32
            && |c.prefetched| <= MAX_PREFETCH
  {
    Reachable(guestCid, es);
    assert FlowInv(f, ViewOf(Run(Init(guestCid), es), f));
  }

  // ---- guest to host ----

  /**
   What the host socket took, then what is pending, is the OK line (host-initiated connections the guest
   answered) followed by the accepted guest bytes in order; the held part never exceeds BUF_ALLOC and the
   32-bit counters say exactly how much it is.
   */
  predicate HostStream(f: Flow, c: Conn) {
    && c.log.written + c.okPending + c.toHost ==
       (if c.log.hostInit && c.phase == Established then OkLine(f.hostPort) else []) + c.log.accepted
    && (c.received - c.fwdCnt) % M32 == |c.toHost| <= BUF_ALLOC
    && c.received == |c.log.accepted| % M32
    && LocalFree(c) == BUF_ALLOC - |c.toHost|
  }

  lemma StreamLaw(f: Flow, c: Conn)
    requires GuestToHost(f, c)
    ensures HostStream(f, c)
  {
    LocalFreeExact(f, c);
  }

  /** So it is for every live connection in every reachable state, under any schedule of partial sends and errors. */
  lemma GuestToHostStream(guestCid: u64, es: seq<Event>, f: Flow)
    requires f in Run(Init(guestCid), es).conns
    ensures HostStream(f, Run(Init(guestCid), es).conns[f])
  {
    Reachable(guestCid, es);
    var s := Run(Init(guestCid), es);
    assert FlowInv(f, ViewOf(s, f));
    StreamLaw(f, s.conns[f]);
  }

  /**
   Credit announcements keep up: a connection still receiving has a CREDIT_UPDATE queued, or fewer than
   max(buf_alloc/4, 4096) forwarded bytes are missing from the last header delivered to the guest, unless
   2^32 bytes went by since the last announcement.
   */
  lemma AnnouncementsKeepUp(guestCid: u64, es: seq<Event>, f: Flow)
    requires f in Run(Init(guestCid), es).conns
    ensures var s := Run(Init(guestCid), es);
            var c := s.conns[f];
            && c.log.announced <= Forwarded(c) && c.log.covered <= Forwarded(c)
            && c.fwdCnt == Wrap(Forwarded(c)) && c.lastFwdSent == Wrap(c.log.announced)
            && (!c.localShutRecv && Forwarded(c) - c.log.announced < M32 ==>
                  || Queued(s.outCtrl, f, OP_CREDIT_UPDATE)
                  || Forwarded(c) - c.log.covered < Max(c.bufAlloc / 4, 4096))
  {
    Reachable(guestCid, es);
    var s := Run(Init(guestCid), es);
    assert FlowInv(f, ViewOf(s, f));
    QueuedIsCount(s.outCtrl, f, OP_CREDIT_UPDATE);
  }

  // ---- queues ----

  lemma QueueLaws(guestCid: u64, es: seq<Event>, p: OutPkt)
    ensures var s := Run(Init(guestCid), es);
            && (p in s.outCtrl ==> p.op != OP_RW && p.data == [])
            && (p in s.outData ==> p.op == OP_RW && 1 <= |p.data| <= MAX_CHUNK)
            && (p in s.outCtrl + s.outData && p.op != OP_RST ==> p.flow in s.conns)
            && CountOp(OfFlow(s.outCtrl, p.flow), OP_RST) <= 1
            && CountOp(OfFlow(s.outCtrl, p.flow), OP_CREDIT_UPDATE) <= 1
            && CountOp(OfFlow(s.outCtrl, p.flow), OP_CREDIT_REQUEST) <= 1
  {
    Reachable(guestCid, es);
    var s := Run(Init(guestCid), es);
    var f := p.flow;
    var v := ViewOf(s, f);
    assert FlowInv(f, v);
    OfFlowMember(s.outCtrl, f, p);
    OfFlowMember(s.outData, f, p);
    if p in s.outCtrl {
      var i :| 0 <= i < |v.ctrl| && v.ctrl[i] == p;
      assert CtrlPkt(f, v.ctrl[i]);
    }
    if p in s.outData {
      var i :| 0 <= i < |v.data| && v.data[i] == p;
      assert RwPkt(f, v.data[i]);
    }
  }

  /** Host-initiated flows never share a host port, and the port cursor stays in its range. */
  lemma PortLaws(guestCid: u64, es: seq<Event>)
    ensures var s := Run(Init(guestCid), es);
            && FIRST_PORT <= s.nextHostPort <= MAX_U32
            && forall f, g :: f in s.conns && g in s.conns && f != g
                              && s.conns[f].log.hostInit && s.conns[g].log.hostInit
                              ==> f.hostPort != g.hostPort
  {
    Reachable(guestCid, es);
  }

  // ---- half-close ----

  /**
   Half-close of one connection between any two points of a run: flags only ever rise, what is sent to
   the guest is frozen once sending is shut, what is accepted from it is frozen once receiving is.
   */
  lemma HalfCloseOverRuns(guestCid: u64, es: seq<Event>, more: seq<Event>, f: Flow)
    requires f in Run(Init(guestCid), es).conns && f in Run(Run(Init(guestCid), es), more).conns
    requires Run(Run(Init(guestCid), es), more).conns[f].log.id == Run(Init(guestCid), es).conns[f].log.id
    ensures var c := Run(Init(guestCid), es).conns[f];
            var c' := Run(Run(Init(guestCid), es), more).conns[f];
            && (c.localShutSend ==> c'.localShutSend) && (c.localShutRecv ==> c'.localShutRecv)
            && (c.peerShutSend ==> c'.peerShutSend) && (c.peerShutRecv ==> c'.peerShutRecv)
            && (c.hostWriteShut ==> c'.hostWriteShut)
            && (c.localShutSend || c.peerShutRecv ==> c'.log.queued == c.log.queued && c'.sentToGuest == c.sentToGuest)
            && (c.localShutRecv || c.peerShutSend ==> c'.log.accepted == c.log.accepted && c'.received == c.received)
            && c.log.written <= c'.log.written
  {
    Reachable(guestCid, es);
    RunKeeps(Run(Init(guestCid), es), more);
  }
}
