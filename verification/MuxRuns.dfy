/** The multiplexer's invariant over every run, and what it says in the protocol's own terms. */
module MuxRuns {
  import opened Machine
  import opened Wire
  import opened MuxSpec
  import opened MuxQueues
  import opened MuxInvariant
  import opened MuxPorts

  // ---- the global invariant ----

  /** A delivered packet: its header says what it is and how long, and it fitted its buffer. */
  predicate DeliveryOk(guestCid: u64, d: Delivery) {
    && HDR_LEN + |d.payload| <= d.avail
    && d.hdr.len == |d.payload| && d.hdr.op == d.op && d.hdr.kind == TYPE_STREAM
    && d.hdr.srcCid == HOST_CID && d.hdr.dstCid == guestCid
    && d.hdr.srcPort == d.flow.hostPort && d.hdr.dstPort == d.flow.guestPort
  }

  predicate WireOk(guestCid: u64, wire: seq<Delivery>) {
    forall i :: 0 <= i < |wire| ==> DeliveryOk(guestCid, wire[i])
  }

  ghost predicate Inv(s: State) {
    && (forall f :: FlowInv(f, ViewOf(s, f)))
    && FIRST_PORT <= s.nextHostPort
    && (forall f :: f in s.conns ==> s.conns[f].log.id < s.nextId)
    && HostFlowsDistinct(s)
    && (forall i :: 0 <= i < |s.incoming| ==> |s.incoming[i]| <= 64)
    && WireOk(s.guestCid, s.wire)
  }

  ghost predicate HostFlowsDistinct(s: State) {
    forall f, g :: f in s.conns && g in s.conns && f != g && s.conns[f].log.hostInit && s.conns[g].log.hostInit
                   ==> f.hostPort != g.hostPort
  }

  /** Every connection of the later state is new or the continuation of the one its flow had. */
  ghost predicate Evolves(s: State, s': State) {
    && s.nextId <= s'.nextId && s'.guestCid == s.guestCid
    && (forall f :: f in s'.conns ==> s.nextId <= s'.conns[f].log.id
                                      || (f in s.conns && Later(s.conns[f], s'.conns[f])))
  }

  lemma EvolvesTransitive(a: State, b: State, c: State)
    requires Inv(a) && Evolves(a, b) && Evolves(b, c)
    ensures Evolves(a, c)
  {
    forall f | f in c.conns
      ensures a.nextId <= c.conns[f].log.id || (f in a.conns && Later(a.conns[f], c.conns[f]))
    {
      if c.conns[f].log.id < a.nextId {
        LaterTransitive(a.conns[f], b.conns[f], c.conns[f]);
      }
    }
  }

  lemma LiftHandled(s: State, s': State, f: Flow)
    requires Inv(s) && Handled(s, s', f) && FlowInv(f, ViewOf(s', f))
    ensures Inv(s') && Evolves(s, s')
  {
    LiftViews(s, s', f);
  }

  /** If only flow `f` sees a difference, its own invariant is all there is to check. */
  lemma LiftViews(s: State, s': State, f: Flow)
    requires forall g :: FlowInv(g, ViewOf(s, g))
    requires (forall g :: g != f ==> ViewOf(s', g) == ViewOf(s, g)) && FlowInv(f, ViewOf(s', f))
    ensures forall g :: FlowInv(g, ViewOf(s', g))
    ensures forall g :: g != f ==> (g in s'.conns <==> g in s.conns)
    ensures forall g :: g in s'.conns && g != f ==> s'.conns[g] == s.conns[g]
  {
    forall g ensures FlowInv(g, ViewOf(s', g)) {
      if g != f {
        assert ViewOf(s', g) == ViewOf(s, g);
      }
    }
    forall g | g != f
      ensures g in s'.conns <==> g in s.conns
      ensures g in s'.conns ==> s'.conns[g] == s.conns[g]
    {
      assert ViewOf(s', g) == ViewOf(s, g);
    }
  }

  // ---- delivery ----

  lemma OfFlowPop(q: seq<OutPkt>, f: Flow)
    requires q != []
    ensures OfFlow(q, f) == if q[0].flow == f then [q[0]] + OfFlow(q[1..], f) else OfFlow(q[1..], f)
  {
  }

  /** The view of the delivered packet's flow loses a control packet, or some bytes of its first RW packet. */
  lemma DeliverView(s: State, avail: nat)
    requires Inv(s) && HasOut(s) && Fits(Front(s), avail)
    ensures var p := Front(s);
            var s' := Deliver(s, avail);
            && (forall g :: g != p.flow ==> ViewOf(s', g) == ViewOf(s, g))
            && (p.flow in s'.conns <==> p.flow in s.conns)
            && s'.conns.Keys == s.conns.Keys
            && (if s.outCtrl != [] then
                  && p.data == [] && p.op != OP_RW
                  && OfFlow(s.outCtrl, p.flow) == [p] + OfFlow(s'.outCtrl, p.flow)
                  && s'.outData == s.outData
                else
                  && RwPkt(p.flow, p) && s'.outCtrl == s.outCtrl
                  && OfFlow(s.outData, p.flow) == [p] + OfFlow(s.outData[1..], p.flow)
                  && var n := Min(|p.data|, avail - HDR_LEN);
                     OfFlow(s'.outData, p.flow) ==
                     (if n < |p.data| then [p.(data := p.data[n..])] else []) + OfFlow(s.outData[1..], p.flow))
  {
    var p := Front(s);
    var f := p.flow;
    var s' := Deliver(s, avail);
    assert FlowInv(f, ViewOf(s, f));
    if s.outCtrl != [] {
      OfFlowPop(s.outCtrl, f);
      assert OfFlow(s.outCtrl, f)[0] == p;
      assert CtrlPkt(f, p);
      forall g | g != f ensures ViewOf(s', g) == ViewOf(s, g) {
        OfFlowPop(s.outCtrl, g);
      }
    } else {
      OfFlowPop(s.outData, f);
      assert OfFlow(s.outData, f)[0] == p;
      assert RwPkt(f, p);
      var n := Min(|p.data|, avail - HDR_LEN);
      var q := p.(data := p.data[n..]);
      forall g | g != f ensures ViewOf(s', g) == ViewOf(s, g) {
        OfFlowPop(s.outData, g);
        if n < |p.data| {
          OfFlowPop([q] + s.outData[1..], g);
          assert ([q] + s.outData[1..])[1..] == s.outData[1..];
        }
      }
      if n < |p.data| {
        OfFlowPop([q] + s.outData[1..], f);
        assert ([q] + s.outData[1..])[1..] == s.outData[1..];
      }
    }
  }

  lemma DeliverCtrlConn(f: Flow, c: Conn, p: OutPkt, ctrl: seq<OutPkt>, data: seq<OutPkt>)
    requires FlowInv(f, View(Some(c), [p] + ctrl, data)) && p.op != OP_RW
    ensures var c' := NoteDelivered(c, p, []); FlowInv(f, View(Some(c'), ctrl, data)) && Later(c, c')
  {
    CountCons(p, ctrl);
    TailQueue(f, p, ctrl, data);
    assert c.log.delivered + [] == c.log.delivered;
    DeliverCtrlInv(f, c, p, [p] + ctrl, ctrl, data);
  }

  lemma TailQueue(f: Flow, p: OutPkt, ctrl: seq<OutPkt>, data: seq<OutPkt>)
    requires QueueInv(f, [p] + ctrl, data)
    ensures QueueInv(f, ctrl, data)
  {
    var q := [p] + ctrl;
    CountCons(p, ctrl);
    assert forall i :: 0 <= i < |ctrl| ==> ctrl[i] == q[i + 1];
  }

  lemma OrphanTail(p: OutPkt, ctrl: seq<OutPkt>, data: seq<OutPkt>)
    requires Orphan([p] + ctrl, data)
    ensures Orphan(ctrl, data)
  {
    var q := [p] + ctrl;
    assert forall i :: 0 <= i < |ctrl| ==> ctrl[i] == q[i + 1];
  }

  lemma DeliverCtrlInv(f: Flow, c: Conn, p: OutPkt, q: seq<OutPkt>, ctrl: seq<OutPkt>, data: seq<OutPkt>)
    requires ConnInv(f, c, q, data) && p.op != OP_RW && NoteDelivered(c, p, []).log.delivered == c.log.delivered
    requires forall op: u16 :: CountOp(q, op) == (if p.op == op then 1 else 0) + CountOp(ctrl, op)
    requires CountSend(q) == (if p.op == OP_SHUTDOWN && HasSend(p.flags) then 1 else 0) + CountSend(ctrl)
    requires CountRecv(q) == (if p.op == OP_SHUTDOWN && HasRecv(p.flags) then 1 else 0) + CountRecv(ctrl)
    ensures var c' := NoteDelivered(c, p, []); ConnInv(f, c', ctrl, data) && Later(c, c') && KeepsUp(c', ctrl)
  {
    DeliverShut(c, p, q, ctrl);
  }

  lemma DeliverShut(c: Conn, p: OutPkt, q: seq<OutPkt>, ctrl: seq<OutPkt>)
    requires HalfClose(c, q) && Deadline(c, q)
    requires CountSend(q) == (if p.op == OP_SHUTDOWN && HasSend(p.flags) then 1 else 0) + CountSend(ctrl)
    requires CountRecv(q) == (if p.op == OP_SHUTDOWN && HasRecv(p.flags) then 1 else 0) + CountRecv(ctrl)
    ensures HalfClose(NoteDelivered(c, p, []), ctrl) && Deadline(NoteDelivered(c, p, []), ctrl)
  {
  }

  lemma DeliverDataConn(f: Flow, c: Conn, p: OutPkt, n: nat, data: seq<OutPkt>)
    requires FlowInv(f, View(Some(c), [], [p] + data)) && n <= |p.data|
    ensures var c' := NoteDelivered(c, p, p.data[..n]);
            var rest := (if n < |p.data| then [p.(data := p.data[n..])] else []) + data;
            FlowInv(f, View(Some(c'), [], rest)) && Later(c, c')
  {
    var q := [p] + data;
    assert q[1..] == data && q[0] == p;
    assert RwPkt(f, p);
    var head := if n < |p.data| then [p.(data := p.data[n..])] else [];
    TailData(f, p, n, head, data);
    SplitBytes(p, n, head, data, c.log.delivered);
    DeliverDataInv(f, c, p, n, q, head + data);
  }

  lemma TailData(f: Flow, p: OutPkt, n: nat, head: seq<OutPkt>, data: seq<OutPkt>)
    requires QueueInv(f, [], [p] + data) && RwPkt(f, p) && n <= |p.data|
    requires head == if n < |p.data| then [p.(data := p.data[n..])] else []
    ensures QueueInv(f, [], head + data)
  {
    var q, rest := [p] + data, head + data;
    forall i | 0 <= i < |rest| ensures RwPkt(f, rest[i]) {
      if i >= |head| {
        assert rest[i] == q[i - |head| + 1];
      }
    }
  }

  /** Handing over the first `n` bytes of the front packet moves them from the queue to the delivered stream. */
  lemma SplitBytes(p: OutPkt, n: nat, head: seq<OutPkt>, data: seq<OutPkt>, delivered: seq<u8>)
    requires n <= |p.data| && head == if n < |p.data| then [p.(data := p.data[n..])] else []
    ensures delivered + Payload([p] + data) == (delivered + p.data[..n]) + Payload(head + data)
  {
    assert ([p] + data)[1..] == data;
    PayloadConcat(head, data);
    assert Payload(head) == p.data[n..] by {
      if head != [] { assert head[1..] == []; }
    }
    assert p.data == p.data[..n] + p.data[n..];
    Assoc(p.data[..n], p.data[n..], Payload(data));
    Assoc(delivered, p.data[..n], Payload(head + data));
  }

  lemma DeliverDataInv(f: Flow, c: Conn, p: OutPkt, n: nat, q: seq<OutPkt>, rest: seq<OutPkt>)
    requires ConnInv(f, c, [], q) && RwPkt(f, p) && n <= |p.data| && q != []
    requires c.log.delivered + Payload(q) == (c.log.delivered + p.data[..n]) + Payload(rest)
    ensures ConnInv(f, NoteDelivered(c, p, p.data[..n]), [], rest)
    ensures Later(c, NoteDelivered(c, p, p.data[..n]))
    ensures KeepsUp(NoteDelivered(c, p, p.data[..n]), [])
  {
  }

  lemma DeliverWire(s: State, avail: nat)
    requires Inv(s) && HasOut(s) && Fits(Front(s), avail)
    ensures WireOk(s.guestCid, Deliver(s, avail).wire)
  {
    DeliverView(s, avail);
  }

  lemma DeliverFlow(s: State, avail: nat)
    requires Inv(s) && HasOut(s) && Fits(Front(s), avail)
    ensures var f := Front(s).flow;
            var s' := Deliver(s, avail);
            FlowInv(f, ViewOf(s', f)) && (f in s.conns ==> Later(s.conns[f], s'.conns[f]))
  {
    var p := Front(s);
    var f := p.flow;
    var s' := Deliver(s, avail);
    var v := ViewOf(s, f);
    assert FlowInv(f, v);
    DeliverView(s, avail);
    if s.outCtrl != [] {
      var ctrl := OfFlow(s'.outCtrl, f);
      assert v.ctrl == [p] + ctrl;
      if f in s.conns {
        assert p.data[..0] == [];
        assert s'.conns[f] == NoteDelivered(s.conns[f], p, []);
        DeliverCtrlConn(f, s.conns[f], p, ctrl, v.data);
      } else {
        TailQueue(f, p, ctrl, v.data);
        OrphanTail(p, ctrl, v.data);
      }
    } else {
      assert v.ctrl == [] && v.data != [];
      var data := OfFlow(s.outData[1..], f);
      var n := Min(|p.data|, avail - HDR_LEN);
      assert s'.conns[f] == NoteDelivered(s.conns[f], p, p.data[..n]);
      DeliverDataConn(f, s.conns[f], p, n, data);
    }
  }

  lemma DeliverKeeps(s: State, avail: nat)
    requires Inv(s) && HasOut(s) && Fits(Front(s), avail)
    ensures Inv(Deliver(s, avail)) && Evolves(s, Deliver(s, avail))
  {
    var f := Front(s).flow;
    var s' := Deliver(s, avail);
    DeliverView(s, avail);
    DeliverFlow(s, avail);
    DeliverWire(s, avail);
    LiftDelivered(s, s', f);
  }

  lemma LiftDelivered(s: State, s': State, f: Flow)
    requires Inv(s) && FlowInv(f, ViewOf(s', f)) && WireOk(s.guestCid, s'.wire)
    requires forall g :: g != f ==> ViewOf(s', g) == ViewOf(s, g)
    requires s' == s.(conns := s'.conns, outCtrl := s'.outCtrl, outData := s'.outData, wire := s'.wire)
    requires s'.conns.Keys == s.conns.Keys && (f in s.conns ==> Later(s.conns[f], s'.conns[f]))
    ensures Inv(s') && Evolves(s, s')
  {
    LiftViews(s, s', f);
    SameFlows(s, s');
  }

  lemma SameFlows(s: State, s': State)
    requires s'.conns.Keys == s.conns.Keys && s'.nextId == s.nextId && HostFlowsDistinct(s)
    requires forall g :: g in s.conns ==> Later(s.conns[g], s'.conns[g]) || s'.conns[g] == s.conns[g]
    requires forall g :: g in s.conns ==> s.conns[g].log.id < s.nextId
    ensures HostFlowsDistinct(s') && forall g :: g in s'.conns ==> s'.conns[g].log.id < s'.nextId
  {
    forall g | g in s.conns
      ensures s'.conns[g].log.id == s.conns[g].log.id && s'.conns[g].log.hostInit == s.conns[g].log.hostInit
    {
    }
  }

  // ---- host-initiated connections ----

  /** An allocated port belongs to no live flow, so the collision branch of `finish_incoming` is dead. */
  lemma AllocatedFlowIsNew(s: State, guestPort: u32)
    requires FIRST_PORT <= s.nextHostPort
    ensures var a := AllocPort(s.nextHostPort, HostPorts(s), PORT_TRIES);
            && FIRST_PORT <= a.next
            && (a.port.Some? ==> Flow(guestPort, a.port.value) !in s.conns
                                 && forall f :: f in s.conns ==> f.hostPort != a.port.value)
  {
    var k := AllocPortFinds(s.nextHostPort, HostPorts(s), PORT_TRIES);
    forall f | f in s.conns ensures f.hostPort in HostPorts(s) {
    }
  }

  lemma HostConnKeeps(s: State, f: Flow, rest: seq<u8>, now: nat)
    requires Inv(s) && |rest| <= MAX_PREFETCH
    requires forall g :: g in s.conns ==> g.hostPort != f.hostPort
    ensures var c := HostConn(s.nextId, rest, now);
            var s' := Enqueue(SetConn(s.(nextId := s.nextId + 1), f, c), Ctrl(f, OP_REQUEST, 0));
            Inv(s') && Evolves(s, s')
  {
    var c := HostConn(s.nextId, rest, now);
    HostConnFresh(f, s.nextId, rest, now);
    var s1 := SetConn(s.(nextId := s.nextId + 1), f, c);
    var s' := Enqueue(s1, Ctrl(f, OP_REQUEST, 0));
    assert FlowInv(f, ViewOf(s, f));
    NewConnKeeps(f, c, ViewOf(s, f).ctrl);
    HostConnViews(s, f, c);
    LiftViews(s, s', f);
    NewHostFlow(s, s', f);
  }

  lemma HostConnFresh(f: Flow, id: nat, rest: seq<u8>, now: nat)
    requires |rest| <= MAX_PREFETCH
    ensures var c := HostConn(id, rest, now); Fresh(f, c) && c.log.id == id && c.log.hostInit && !c.connecting
  {
  }

  lemma HostConnViews(s: State, f: Flow, c: Conn)
    ensures var p := Ctrl(f, OP_REQUEST, 0);
            var s' := Enqueue(SetConn(s.(nextId := s.nextId + 1), f, c), p);
            && ViewOf(s', f) == View(Some(c), ViewOf(s, f).ctrl + [p], ViewOf(s, f).data)
            && (forall g :: g != f ==> ViewOf(s', g) == ViewOf(s, g))
  {
    var s1 := SetConn(s.(nextId := s.nextId + 1), f, c);
    var s' := Enqueue(s1, Ctrl(f, OP_REQUEST, 0));
    EnqueueView(s1, Ctrl(f, OP_REQUEST, 0));
    forall g | g != f ensures ViewOf(s', g) == ViewOf(s, g) {
      assert ViewOf(s', g) == ViewOf(s1, g);
    }
  }

  lemma NewHostFlow(s: State, s': State, f: Flow)
    requires HostFlowsDistinct(s) && (forall g :: g in s.conns ==> g.hostPort != f.hostPort)
    requires forall g :: g in s'.conns && g != f ==> g in s.conns && s'.conns[g] == s.conns[g]
    ensures HostFlowsDistinct(s')
  {
  }

  lemma OpenHostConnKeeps(s: State, guestPort: u32, rest: seq<u8>, now: nat)
    requires Inv(s) && |rest| <= MAX_PREFETCH
    ensures Inv(OpenHostConn(s, guestPort, rest, now)) && Evolves(s, OpenHostConn(s, guestPort, rest, now))
  {
    AllocatedFlowIsNew(s, guestPort);
    var a := AllocPort(s.nextHostPort, HostPorts(s), PORT_TRIES);
    var s1 := s.(nextHostPort := a.next);
    SameViews(s, s1);
    if a.port.Some? {
      HostConnKeeps(s1, Flow(guestPort, a.port.value), rest, now);
    }
  }

  lemma FinishIncomingKeeps(s: State, i: nat, now: nat)
    requires i < |s.incoming| && |s.incoming[i]| <= 128
    requires Inv(s.(incoming := RemoveAt(s.incoming, i)))
    ensures Inv(FinishIncoming(s, i, now)) && Evolves(s, FinishIncoming(s, i, now))
  {
    var buf := s.incoming[i];
    var s1 := s.(incoming := RemoveAt(s.incoming, i));
    var nl := IndexOfNewline(buf);
    if nl < |buf| {
      var port := ParseConnect(StripCr(buf[..nl]));
      if port.Some? {
        OpenHostConnKeeps(s1, port.value, buf[nl + 1..], now);
      }
    }
  }

  /** The invariant does not depend on the pending CONNECT lines beyond their length, nor on the cursor. */
  lemma SameViews(s: State, s': State)
    requires Inv(s) && s' == s.(incoming := s'.incoming, nextHostPort := s'.nextHostPort)
    requires FIRST_PORT <= s'.nextHostPort
    requires forall i :: 0 <= i < |s'.incoming| ==> |s'.incoming[i]| <= 64
    ensures Inv(s') && Evolves(s, s')
  {
    forall f ensures FlowInv(f, ViewOf(s', f)) {
      assert ViewOf(s', f) == ViewOf(s, f);
    }
  }

  lemma ReadIncomingKeeps(s: State, i: nat, read: Read, now: nat)
    requires Inv(s)
    ensures Inv(ReadIncoming(s, i, read, now)) && Evolves(s, ReadIncoming(s, i, read, now))
  {
    if i < |s.incoming| {
      SameViews(s, s.(incoming := RemoveAt(s.incoming, i)));
      if read.Bytes? && read.data != [] {
        var buf := s.incoming[i] + read.data[..Min(|read.data|, 64)];
        var s1 := s.(incoming := s.incoming[i := buf]);
        if IndexOfNewline(buf) < |buf| {
          assert RemoveAt(s1.incoming, i) == RemoveAt(s.incoming, i);
          FinishIncomingKeeps(s1, i, now);
        } else if |buf| <= 64 {
          SameViews(s, s1);
        }
      }
    }
  }

  // ---- deadlines and resets ----

  lemma {:induction false} DropExpiredKeeps(s: State, order: seq<Flow>, now: nat)
    requires Inv(s)
    ensures Inv(DropExpired(s, order, now)) && Evolves(s, DropExpired(s, order, now))
    decreases |order|
  {
    if order != [] {
      var f := order[0];
      var s1 := if f in s.conns && Expired(s.conns[f], now) then DropConn(s, f, true) else s;
      DropConnKeeps(s, f, true);
      if s1 != s {
        LiftHandled(s, s1, f);
      }
      DropExpiredKeeps(s1, order[1..], now);
      EvolvesTransitive(s, s1, DropExpired(s, order, now));
    }
  }

  /** Exactly the flows listed and past their deadline go; every other connection is untouched. */
  lemma {:induction false} DropExpiredConns(s: State, order: seq<Flow>, now: nat)
    ensures var s' := DropExpired(s, order, now);
            && (forall f :: f in s'.conns <==> f in s.conns && !(f in order && Expired(s.conns[f], now)))
            && (forall f :: f in s'.conns ==> s'.conns[f] == s.conns[f])
    decreases |order|
  {
    if order != [] {
      var f := order[0];
      var s1 := if f in s.conns && Expired(s.conns[f], now) then DropConn(s, f, true) else s;
      DropExpiredConns(s1, order[1..], now);
      assert forall g :: g in order <==> g == f || g in order[1..];
    }
  }

  /** `check_timeouts` visits every expired flow, so none outlives its deadline. */
  lemma NoneOverdue(s: State, order: seq<Flow>, now: nat)
    requires forall f :: f in s.conns && Expired(s.conns[f], now) ==> f in order
    ensures forall f :: f in DropExpired(s, order, now).conns ==> !Expired(DropExpired(s, order, now).conns[f], now)
    ensures forall f :: f in s.conns && !Expired(s.conns[f], now) ==> f in DropExpired(s, order, now).conns
    ensures forall f :: f in DropExpired(s, order, now).conns ==>
              var e := DropExpired(s, order, now).conns[f].expiry; e.Some? ==> now < e.value
  {
    DropExpiredConns(s, order, now);
  }

  lemma KillKeeps(s: State)
    requires Inv(s)
    ensures Inv(KillConnections(s)) && Evolves(s, KillConnections(s))
  {
    forall f ensures FlowInv(f, ViewOf(KillConnections(s), f)) {
      assert ViewOf(KillConnections(s), f) == View(None, [], []);
    }
  }

  // ---- every step, every run ----

  lemma GuestChainKeeps(s: State, chain: TxChain, host: Host)
    requires Inv(s)
    ensures Inv(GuestChain(s, chain, host)) && Evolves(s, GuestChain(s, chain, host))
  {
    match chain
    case Short =>
    case Damaged(f) =>
      DropConnKeeps(s, f, true);
      LiftHandled(s, DropConn(s, f, true), f);
    case Packet(hdr, data) =>
      var f := HdrFlow(hdr);
      assert FlowInv(f, ViewOf(s, f));
      HandleGuestPktKeeps(s, hdr, data, host);
      LiftHandled(s, HandleGuestPkt(s, hdr, data, host), f);
  }

  lemma StepKeeps(s: State, e: Event)
    requires Inv(s)
    ensures Inv(Step(s, e)) && Evolves(s, Step(s, e))
  {
    match e
    case Accept => SameViews(s, AcceptOne(s));
    case IncomingReady(i, read, now) => ReadIncomingKeeps(s, i, read, now);
    case ConnReady(f, ready) =>
      assert FlowInv(f, ViewOf(s, f));
      OnConnFdKeeps(s, f, ready);
      LiftHandled(s, OnConnFd(s, f, ready), f);
    case GuestTx(chain, host) => GuestChainKeeps(s, chain, host);
    case GuestRx(avail) =>
      if HasOut(s) && Fits(Front(s), avail) {
        DeliverKeeps(s, avail);
      }
    case Timeouts(order, now) => DropExpiredKeeps(s, order, now);
    case TransportDown => KillKeeps(s);
  }

  lemma InitInv(guestCid: u64)
    ensures Inv(Init(guestCid))
  {
    forall f ensures FlowInv(f, ViewOf(Init(guestCid), f)) {
      assert ViewOf(Init(guestCid), f) == View(None, [], []);
    }
  }

  lemma {:induction false} RunKeeps(s: State, es: seq<Event>)
    requires Inv(s)
    ensures Inv(Run(s, es)) && Evolves(s, Run(s, es))
  {
    if es != [] {
      var es' := es[..|es| - 1];
      RunKeeps(s, es');
      StepKeeps(Run(s, es'), es[|es| - 1]);
      EvolvesTransitive(s, Run(s, es'), Run(s, es));
    }
  }

  lemma RunPush(s: State, es: seq<Event>, e: Event)
    ensures Run(s, es + [e]) == Step(Run(s, es), e)
  {
    assert (es + [e])[..|es|] == es;
  }

  lemma TwoSteps(s: State, a: Event, b: Event)
    ensures Run(s, [a, b]) == Step(Step(s, a), b)
  {
    RunPush(s, [], a);
    RunPush(s, [a], b);
    assert [] + [a] == [a] && [a] + [b] == [a, b];
  }

  lemma FourSteps(s: State, a: Event, b: Event, c: Event, d: Event)
    ensures Run(s, [a, b, c, d]) == Step(Step(Step(Step(s, a), b), c), d)
  {
    TwoSteps(s, a, b);
    RunPush(s, [a, b], c);
    RunPush(s, [a, b, c], d);
    assert [a, b] + [c] == [a, b, c] && [a, b, c] + [d] == [a, b, c, d];
  }

  /** The global invariant holds in every reachable state. */
  lemma Reachable(guestCid: u64, es: seq<Event>)
    ensures Inv(Run(Init(guestCid), es))
  {
    InitInv(guestCid);
    RunKeeps(Init(guestCid), es);
  }
}
