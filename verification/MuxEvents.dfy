/** What single events do: connecting sockets, ignored packets, deadlines, and the packets the guest is given. */
module MuxEvents {
  import opened Machine
  import opened Wire
  import opened MuxSpec
  import opened MuxQueues
  import opened MuxInvariant
  import opened MuxRuns
  import opened MuxTheorems
  import opened MuxEffects
  import opened MuxFlush

  // ---- connecting hosts ----

  /** A socket is accepted exactly while fewer than 128 sockets are open; then it has sent nothing yet. */
  lemma AcceptsExactly(s: State)
    ensures Step(s, Accept) ==
              s.(incoming := if |s.incoming| + |s.conns| < 128 then s.incoming + [[]] else s.incoming)
  {
  }

  /** So the sockets that have not named a port yet are bounded in every run. */
  lemma {:induction false} IncomingBounded(guestCid: u64, es: seq<Event>)
    ensures |Run(Init(guestCid), es).incoming| <= 128
  {
    if es != [] {
      var k := |es| - 1;
      IncomingBounded(guestCid, es[..k]);
      Reachable(guestCid, es[..k]);
      if !es[k].Accept? {
        IncomingShrinks(Run(Init(guestCid), es[..k]), es[k]);
      }
    }
  }

  lemma IncomingShrinks(s: State, e: Event)
    requires Inv(s) && !e.Accept?
    ensures |Step(s, e).incoming| <= |s.incoming|
  {
    match e
    case IncomingReady(_, _, _) =>
    case ConnReady(f, ready) =>
      assert FlowInv(f, ViewOf(s, f));
      OnConnFdKeeps(s, f, ready);
    case GuestTx(chain, host) =>
      if chain.Packet? {
        assert FlowInv(HdrFlow(chain.hdr), ViewOf(s, HdrFlow(chain.hdr)));
        HandleGuestPktKeeps(s, chain.hdr, chain.data, host);
      }
    case GuestRx(_) =>
    case Timeouts(order, now) => TimeoutIncoming(s, order, now);
    case TransportDown =>
  }

  lemma {:induction false} TimeoutIncoming(s: State, order: seq<Flow>, now: nat)
    ensures DropExpired(s, order, now).incoming == s.incoming && DropExpired(s, order, now).wire == s.wire
    decreases |order|
  {
    if order != [] {
      var f := order[0];
      TimeoutIncoming(if f in s.conns && Expired(s.conns[f], now) then DropConn(s, f, true) else s, order[1..], now);
    }
  }

  /** Bytes without a newline yet: kept up to 64 in all, more close the socket; nothing else happens. */
  lemma LineGoesOn(s: State, i: nat, data: seq<u8>, now: nat)
    requires i < |s.incoming| && 0 < |data| <= 64 && 10 !in s.incoming[i] + data
    ensures ReadIncoming(s, i, Bytes(data), now) ==
              s.(incoming := if |s.incoming[i] + data| <= 64 then s.incoming[i := s.incoming[i] + data]
                             else s.incoming[..i] + s.incoming[i + 1..])
  {
    assert data[..|data|] == data;
  }

  /** End of file and errors close a socket that has not named its port; a read to be repeated changes nothing. */
  lemma LineEnds(s: State, i: nat, read: Read, now: nat)
    requires i < |s.incoming| && (read.Bytes? ==> read.data == [])
    ensures ReadIncoming(s, i, read, now) ==
              if read == Again then s else s.(incoming := s.incoming[..i] + s.incoming[i + 1..])
  {
  }

  // ---- connects of the guest ----

  /**
   A pending connect completes with the first writable event: then it is announced by one RESPONSE and has no deadline
   any more, or it failed and the connection ends with one RST and nothing else queued.
   */
  lemma ConnectCompletes(s: State, f: Flow, r: Ready)
    requires Inv(s) && f in s.conns && s.conns[f].connecting && r.writable
    ensures var t, s' := AfterRead(s, f, r), OnConnFd(s, f, r);
            && f in t.conns
            && if r.connectOk then
                 && f in s'.conns && !s'.conns[f].connecting && s'.conns[f].expiry == None
                 && OfFlow(s'.outCtrl, f) == OfFlow(t.outCtrl, f) + [Ctrl(f, OP_RESPONSE, 0)] && s'.outData == t.outData
               else f !in s'.conns && OfFlow(s'.outCtrl, f) == [Ctrl(f, OP_RST, 0)] && OfFlow(s'.outData, f) == []
  {
    assert FlowInv(f, ViewOf(s, f));
    ReadStays(s, f, r);
    var t := AfterRead(s, f, r);
    if r.connectOk {
      var t1 := SetConn(t, f, ConnectDone(t.conns[f]));
      EnqueueView(t1, Ctrl(f, OP_RESPONSE, 0));
      assert ViewOf(Enqueue(t1, Ctrl(f, OP_RESPONSE, 0)), f).ctrl == OfFlow(t.outCtrl, f) + [Ctrl(f, OP_RESPONSE, 0)];
    } else {
      DroppedWithRst(t, f);
    }
  }

  lemma ReadStays(s: State, f: Flow, r: Ready)
    requires f in s.conns && s.conns[f].phase == Established
    ensures f in AfterRead(s, f, r).conns && AfterRead(s, f, r).conns[f].connecting == s.conns[f].connecting
  {
    if r.readable {
      ReadConnSettles(s, f, r.read, r.now);
      if r.read.Bytes? && r.read.data != [] {
        IngestStays(s, f, r.read.data[..Min(|r.read.data|, MAX_CHUNK)]);
      } else if r.read != Again {
        MarkShutStays(s, f, r.read.Broken?, r.now);
      }
    }
  }

  lemma IngestStays(s: State, f: Flow, data: seq<u8>)
    requires f in s.conns
    ensures f in Ingest(s, f, data).conns
  {
  }

  lemma MarkShutStays(s: State, f: Flow, recv: bool, now: nat)
    requires f in s.conns && s.conns[f].phase == Established
    ensures f in MarkLocalShut(s, f, recv, true, now).conns
  {
  }

  // ---- packets that change little ----

  /** Every packet on a flow that it leaves alive has its credit fields recorded. */
  lemma CreditNoted(s: State, e: Event, f: Flow)
    requires Inv(s) && Speaks(s, e, f) && f in s.conns && f in Step(s, e).conns
    ensures var c' := Step(s, e).conns[f];
            c'.peerBufAlloc == e.chain.hdr.bufAlloc && c'.peerFwdCnt == e.chain.hdr.fwdCnt
  {
    SpokenStep(s, e, f);
    var h := e.chain.hdr;
    if h.op != OP_REQUEST {
      var s1 := SetConn(s, f, NoteCredit(s.conns[f], h));
      if h.op != OP_RESPONSE {
        DispatchSettles(s1, f, h, e.chain.data, e.host);
      } else if s1.conns[f].phase == WaitGuest {
        FlushConnSettles(SetConn(s1, f, Answered(f, s1.conns[f])), f, e.host.sends, e.host.now);
      }
    }
  }

  /** The packet has no business with the connection: a RESPONSE nobody waits for, data that is empty or not wanted. */
  predicate Idle(c: Conn, h: Header, data: seq<u8>) {
    || (h.op == OP_RESPONSE && c.phase != WaitGuest)
    || (h.op == OP_RW && |data| <= 64 * 1024
        && (data == [] || c.phase == WaitGuest || c.localShutRecv || c.peerShutSend))
  }

  /** It is ignored but for its credit fields. */
  lemma IdlePackets(s: State, e: Event, f: Flow)
    requires Speaks(s, e, f) && f in s.conns && Idle(s.conns[f], e.chain.hdr, e.chain.data)
    ensures var s' := Step(s, e);
            && s' == SetConn(s, f, s'.conns[f]) && SameBytes(s.conns[f], s'.conns[f])
            && s'.conns[f].peerBufAlloc == e.chain.hdr.bufAlloc && s'.conns[f].peerFwdCnt == e.chain.hdr.fwdCnt
  {
    SpokenStep(s, e, f);
  }

  // ---- deadlines ----

  /** A connection past its deadline ends with one RST and nothing else queued; one that is not stays as it is. */
  lemma {:induction false} TimeoutResets(s: State, order: seq<Flow>, now: nat, f: Flow)
    requires f in s.conns
    ensures var s' := DropExpired(s, order, now);
            if f in order && s.conns[f].expiry.Some? && s.conns[f].expiry.value <= now then
              f !in s'.conns && OfFlow(s'.outCtrl, f) == [Ctrl(f, OP_RST, 0)] && OfFlow(s'.outData, f) == []
            else ViewOf(s', f) == ViewOf(s, f)
    decreases |order|
  {
    if order != [] {
      var g := order[0];
      if g in s.conns && Expired(s.conns[g], now) {
        DropConnView(s, g, true);
        if g == f {
          DroppedWithRst(s, f);
          GoneStays(DropConn(s, f, true), order[1..], now, f);
        } else {
          assert ViewOf(DropConn(s, g, true), f) == ViewOf(s, f);
          TimeoutResets(DropConn(s, g, true), order[1..], now, f);
        }
      } else {
        TimeoutResets(s, order[1..], now, f);
      }
    }
  }

  lemma {:induction false} GoneStays(s: State, order: seq<Flow>, now: nat, f: Flow)
    requires f !in s.conns
    ensures ViewOf(DropExpired(s, order, now), f) == ViewOf(s, f)
    decreases |order|
  {
    if order != [] {
      var g := order[0];
      if g in s.conns && Expired(s.conns[g], now) {
        DropConnView(s, g, true);
        GoneStays(DropConn(s, g, true), order[1..], now, f);
      } else {
        GoneStays(s, order[1..], now, f);
      }
    }
  }

  // ---- what the guest is given ----

  /**
   The packet written into a buffer: as much of the front packet as fits, under a header from host to guest that says
   exactly that; read as the guest's own chains are read, it is that packet.
   */
  lemma DeliveredPacket(s: State, avail: nat)
    requires Inv(s) && HasOut(s) && Fits(Front(s), avail)
    ensures var s', p := Deliver(s, avail), Front(s);
            var d := s'.wire[|s.wire|];
            && s'.wire == s.wire + [d] && d.flow == p.flow && d.payload == p.data[..Min(|p.data|, avail - 44)]
            && d.hdr.srcCid == 2 && d.hdr.dstCid == s.guestCid && d.hdr.kind == 1
            && d.hdr.srcPort == p.flow.hostPort && d.hdr.dstPort == p.flow.guestPort
            && d.hdr.len == |d.payload| && d.hdr.op == p.op && d.hdr.flags == p.flags
            && (p.flow !in s.conns ==> d.hdr.bufAlloc == d.hdr.fwdCnt == 0)
            && ReadChain(Serialize(d.hdr) + d.payload) == Packet(d.hdr, d.payload)
  {
    FrontSmall(s, avail);
    StampedRead(s, Front(s), Front(s).data[..Min(|Front(s).data|, avail - HDR_LEN)]);
  }

  lemma FrontSmall(s: State, avail: nat)
    requires Inv(s) && HasOut(s) && Fits(Front(s), avail)
    ensures |Front(s).data| <= MAX_CHUNK
  {
    DeliverView(s, avail);
  }

  lemma StampedRead(s: State, p: OutPkt, payload: seq<u8>)
    requires |payload| <= MAX_CHUNK
    ensures var h := StampedHeader(s, p, payload);
            h.len == |payload| && ReadChain(Serialize(h) + payload) == Packet(h, payload)
  {
    ReadBack(StampedHeader(s, p, payload), payload);
  }

  lemma ReadBack(h: Header, payload: seq<u8>)
    requires h.len == |payload| <= MAX_PAYLOAD
    ensures ReadChain(Serialize(h) + payload) == Packet(h, payload)
  {
    ChainExactly(h, payload);
    assert payload[..|payload|] == payload;
  }

  /** A buffer is filled exactly if there is a packet and a header fits. */
  lemma FillsExactly(s: State, avail: nat)
    requires Inv(s)
    ensures |RxBuffer(s, avail).wire| == |s.wire| + if HasOut(s) && avail >= 44 then 1 else 0
  {
    if HasOut(s) {
      FrontFits(s, avail);
    }
  }

  lemma FrontFits(s: State, avail: nat)
    requires Inv(s) && HasOut(s)
    ensures Fits(Front(s), avail) <==> avail >= 44
  {
    var p := Front(s);
    var v := ViewOf(s, p.flow);
    assert FlowInv(p.flow, v);
    if s.outCtrl != [] {
      OfFlowPop(s.outCtrl, p.flow);
      assert CtrlPkt(p.flow, v.ctrl[0]);
    } else {
      OfFlowPop(s.outData, p.flow);
      assert RwPkt(p.flow, v.data[0]);
    }
  }

  /**
   How far `push_rx` goes: on to the next buffer until the packets or the buffers run out, or a buffer is too small for
   a header; that one is given back empty and ends it.
   */
  lemma {:induction false} PushRxStops(s: State, bufs: seq<nat>)
    requires Inv(s)
    ensures var r := PushRx(s, bufs);
            && |r.used| <= |bufs| && r.left == bufs[|r.used|..]
            && (forall i :: 0 <= i < |r.used| ==> (r.used[i] == 0 <==> bufs[i] < 44))
            && (forall i :: 0 <= i < |r.used| - 1 ==> r.used[i] != 0)
            && (r.left == [] || !HasOut(r.mux) || (r.used != [] && r.used[|r.used| - 1] == 0))
    decreases |bufs|
  {
    if bufs != [] && HasOut(s) {
      FrontFits(s, bufs[0]);
      if bufs[0] >= 44 {
        DeliverKeeps(s, bufs[0]);
        PushRxStops(Deliver(s, bufs[0]), bufs[1..]);
      }
    }
  }

  /** One step adds at most one packet to what the guest received, and to the connection's history its bytes. */
  lemma StepDelivers(s: State, e: Event, f: Flow)
    requires Inv(s) && f in s.conns && f in Step(s, e).conns
    ensures s.wire <= Step(s, e).wire
    ensures Step(s, e).conns[f].log.delivered ==
              s.conns[f].log.delivered + DeliveredTo(Step(s, e).wire[|s.wire|..], f)
  {
    if e.GuestRx? && HasOut(s) && Fits(Front(s), e.avail) {
      RxDelivers(s, e.avail, f);
    } else {
      QuietWire(s, e, f);
      assert s.wire[|s.wire|..] == [];
    }
  }

  lemma RxDelivers(s: State, avail: nat, f: Flow)
    requires Inv(s) && f in s.conns && HasOut(s) && Fits(Front(s), avail)
    ensures var s' := Deliver(s, avail);
            && f in s'.conns && s.wire <= s'.wire
            && s'.conns[f].log.delivered == s.conns[f].log.delivered + DeliveredTo(s'.wire[|s.wire|..], f)
  {
    var s' := Deliver(s, avail);
    var d := s'.wire[|s.wire|];
    DeliverView(s, avail);
    assert s'.wire[|s.wire|..] == [d] && [d][..0] == [];
    assert DeliveredTo([d], f) == if d.flow == f && d.op == OP_RW then d.payload else [];
    if Front(s).flow != f {
      assert ViewOf(s', f) == ViewOf(s, f);
    }
  }

  lemma QuietWire(s: State, e: Event, f: Flow)
    requires Inv(s) && f in s.conns && f in Step(s, e).conns
    requires !(e.GuestRx? && HasOut(s) && Fits(Front(s), e.avail))
    ensures Step(s, e).wire == s.wire && Step(s, e).conns[f].log.delivered == s.conns[f].log.delivered
  {
    match e
    case Accept =>
    case IncomingReady(i, read, now) => IncomingWire(s, i, read, now, f);
    case ConnReady(g, ready) => ConnFdWire(s, g, ready, f);
    case GuestTx(chain, host) => GuestTxWire(s, e, f);
    case GuestRx(_) =>
    case Timeouts(order, now) =>
      TimeoutIncoming(s, order, now);
      TimeoutResets(s, order, now, f);
    case TransportDown =>
  }

  lemma IncomingWire(s: State, i: nat, read: Read, now: nat, f: Flow)
    requires Inv(s) && f in s.conns
    ensures var s' := ReadIncoming(s, i, read, now); s'.wire == s.wire && f in s'.conns && s'.conns[f] == s.conns[f]
  {
    IncomingNew(s, i, read, now);
  }

  lemma ConnFdWire(s: State, g: Flow, r: Ready, f: Flow)
    requires Inv(s) && f in s.conns && f in OnConnFd(s, g, r).conns
    ensures OnConnFd(s, g, r).wire == s.wire && OnConnFd(s, g, r).conns[f].log.delivered == s.conns[f].log.delivered
  {
    assert FlowInv(g, ViewOf(s, g));
    OnConnFdKeeps(s, g, r);
    if f != g {
      assert ViewOf(OnConnFd(s, g, r), f) == ViewOf(s, f);
    } else {
      ConnFdSettles(s, g, r);
      ReadConnSettles(s, g, r.read, r.now);
    }
  }

  lemma GuestTxWire(s: State, e: Event, f: Flow)
    requires Inv(s) && e.GuestTx? && f in s.conns && f in Step(s, e).conns
    ensures Step(s, e).wire == s.wire && Step(s, e).conns[f].log.delivered == s.conns[f].log.delivered
  {
    if e.chain.Packet? {
      var h := e.chain.hdr;
      assert FlowInv(HdrFlow(h), ViewOf(s, HdrFlow(h)));
      HandleGuestPktKeeps(s, h, e.chain.data, e.host);
    }
    if !Speaks(s, e, f) {
      OtherTxSame(s, e, f);
    } else {
      SpokenStep(s, e, f);
      var h := e.chain.hdr;
      if h.op != OP_REQUEST {
        var s1 := SetConn(s, f, NoteCredit(s.conns[f], h));
        if h.op != OP_RESPONSE {
          DispatchSettles(s1, f, h, e.chain.data, e.host);
        } else if s1.conns[f].phase == WaitGuest {
          FlushConnSettles(SetConn(s1, f, Answered(f, s1.conns[f])), f, e.host.sends, e.host.now);
        }
      }
    }
  }

  /**
   What the guest received on a flow between any two points of a connection's life is what the connection's history of
   delivered bytes gained.
   */
  lemma {:induction false} WireCarries(s: State, es: seq<Event>, f: Flow)
    requires Inv(s) && f in s.conns && f in Run(s, es).conns && Run(s, es).conns[f].log.id == s.conns[f].log.id
    ensures s.wire <= Run(s, es).wire
    ensures Run(s, es).conns[f].log.delivered == s.conns[f].log.delivered + DeliveredTo(Run(s, es).wire[|s.wire|..], f)
  {
    if es == [] {
      assert s.wire[|s.wire|..] == [];
    } else {
      var k := |es| - 1;
      var t := Run(s, es[..k]);
      RunKeeps(s, es[..k]);
      StepKeeps(t, es[k]);
      WireCarries(s, es[..k], f);
      StepDelivers(t, es[k], f);
      DeliveredSplit(s.wire, t.wire, Run(s, es).wire, f);
      Assoc(s.conns[f].log.delivered, DeliveredTo(t.wire[|s.wire|..], f), DeliveredTo(Run(s, es).wire[|t.wire|..], f));
    }
  }

  lemma DeliveredSplit(a: seq<Delivery>, b: seq<Delivery>, c: seq<Delivery>, f: Flow)
    requires a <= b <= c
    ensures DeliveredTo(c[|a|..], f) == DeliveredTo(b[|a|..], f) + DeliveredTo(c[|b|..], f)
  {
    assert c[|a|..] == b[|a|..] + c[|b|..];
    DeliveredConcat(b[|a|..], c[|b|..], f);
  }

  lemma {:induction false} DeliveredConcat(a: seq<Delivery>, b: seq<Delivery>, f: Flow)
    ensures DeliveredTo(a + b, f) == DeliveredTo(a, f) + DeliveredTo(b, f)
  {
    if b == [] {
      assert a + b == a;
    } else {
      var k := |b| - 1;
      DeliveredConcat(a, b[..k], f);
      assert (a + b)[..|a + b| - 1] == a + b[..k];
    }
  }
}
