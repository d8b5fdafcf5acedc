/** What single operations do with the bytes and connections they are given. */
module MuxEffects {
  import opened Machine
  import opened Wire
  import opened MuxSpec
  import opened MuxQueues
  import opened MuxInvariant
  import opened MuxRuns
  import opened MuxTheorems

  // ---- bytes from the host ----

  /**
   `ingest` splits its bytes in order: a prefix within the peer's credit is queued, the next part is kept
   for later, and bytes are discarded only once the keep is full. A CREDIT_REQUEST is added exactly when the
   connection could send, the credit ran out, and none was queued; it is the only control packet added.
   */
  lemma IngestConserves(s: State, f: Flow, data: seq<u8>) returns (k: nat, m: nat)
    requires Inv(s) && f in s.conns && data != []
    ensures k <= m <= |data|
    ensures var s' := Ingest(s, f, data);
            && f in s'.conns
            && var c, c' := s.conns[f], s'.conns[f];
               && c'.log.queued == c.log.queued + data[..k]
               && Payload(OfFlow(s'.outData, f)) == Payload(OfFlow(s.outData, f)) + data[..k]
               && c'.prefetched == c.prefetched + data[k..m]
               && (m < |data| ==> |c'.prefetched| == MAX_PREFETCH)
               && k == (if c.phase == Established && !c.localShutSend && !c.peerShutRecv
                        then Min(|data|, PeerAvail(c)) else 0)
               && s'.outCtrl == s.outCtrl +
                    if c.phase == Established && !c.localShutSend && !c.peerShutRecv && k < |data| && !Queued(s.outCtrl, f, OP_CREDIT_REQUEST)
                    then [Ctrl(f, OP_CREDIT_REQUEST, 0)] else []
  {
    var c := s.conns[f];
    assert FlowInv(f, ViewOf(s, f));
    k := if CanSend(c) then Min(|data|, PeerAvail(c)) else 0;
    m := k + Min(|data| - k, MAX_PREFETCH - |c.prefetched|);
    IngestQueue(s, f, data, k);
    IngestConn(s, f, data, k);
    StashSplit(SendChunk(c, data[..k]), data, k, m);
    IngestCtrl(s, f, data, k);
  }

  lemma IngestCtrl(s: State, f: Flow, data: seq<u8>, k: nat)
    requires f in s.conns && data != []
    requires k == if CanSend(s.conns[f]) then Min(|data|, PeerAvail(s.conns[f])) else 0
    ensures Ingest(s, f, data).outCtrl == s.outCtrl +
              if CanSend(s.conns[f]) && k < |data| && !Queued(s.outCtrl, f, OP_CREDIT_REQUEST)
              then [Ctrl(f, OP_CREDIT_REQUEST, 0)] else []
  {
    assert s.outCtrl + [] == s.outCtrl;
  }

  /** The connection after `ingest`: a prefix sent, the rest stashed. */
  lemma IngestConn(s: State, f: Flow, data: seq<u8>, k: nat)
    requires f in s.conns && data != []
    requires k == if CanSend(s.conns[f]) then Min(|data|, PeerAvail(s.conns[f])) else 0
    ensures f in Ingest(s, f, data).conns
    ensures Ingest(s, f, data).conns[f] == Stash(SendChunk(s.conns[f], data[..k]), data[k..])
  {
    var c := s.conns[f];
    if !CanSend(c) {
      SendNothing(c, data);
    } else if k == |data| {
      StashNothing(SendChunk(c, data[..k]), data[k..]);
    }
  }

  lemma SendNothing(c: Conn, data: seq<u8>)
    ensures SendChunk(c, data[..0]) == c && data[0..] == data
  {
    assert c.log.queued + data[..0] == c.log.queued;
  }

  lemma StashNothing(c: Conn, none: seq<u8>)
    requires none == []
    ensures Stash(c, none) == c
  {
    assert c.prefetched + none[..0] == c.prefetched;
  }

  lemma StashSplit(c: Conn, data: seq<u8>, k: nat, m: nat)
    requires k <= |data| && |c.prefetched| <= MAX_PREFETCH
    requires m == k + Min(|data| - k, MAX_PREFETCH - |c.prefetched|)
    ensures Stash(c, data[k..]).prefetched == c.prefetched + data[k..m]
  {
    assert data[k..][..m - k] == data[k..m];
  }

  lemma IngestQueue(s: State, f: Flow, data: seq<u8>, k: nat)
    requires f in s.conns && data != []
    requires k == if CanSend(s.conns[f]) then Min(|data|, PeerAvail(s.conns[f])) else 0
    ensures Payload(OfFlow(Ingest(s, f, data).outData, f)) == Payload(OfFlow(s.outData, f)) + data[..k]
  {
    if CanSend(s.conns[f]) {
      PushChunksView(s, f, data[..k]);
      assert ViewOf(s.(outData := s.outData + Chunks(f, data[..k])), f).data ==
             OfFlow(s.outData, f) + Chunks(f, data[..k]);
      PayloadConcat(OfFlow(s.outData, f), Chunks(f, data[..k]));
      ChunksFacts(f, data[..k]);
    }
  }

  /** Flushing never loses a stashed byte: what leaves the stash is queued, in order. */
  lemma FlushConserves(s: State, f: Flow, sends: seq<Send>, now: nat)
    requires Inv(s) && f in s.conns && f in FlushConn(s, f, sends, now).conns
    ensures var c, c' := s.conns[f], FlushConn(s, f, sends, now).conns[f];
            && c.log.queued + c.prefetched == c'.log.queued + c'.prefetched
            && c'.log.accepted == c.log.accepted
            && (FlushBoth(c, sends).ok ==>
                  && c'.okPending == c'.toHost == [] && (c'.peerShutSend ==> c'.hostWriteShut)
                  && (c'.prefetched == [] || c'.phase == WaitGuest || c'.localShutSend || c'.peerShutRecv
                      || PeerAvail(c') == 0))
            && (!FlushBoth(c, sends).ok ==> c'.localShutRecv && c'.localShutSend)
  {
    var c := s.conns[f];
    var v := ViewOf(s, f);
    assert FlowInv(f, v);
    FlushBothKeeps(f, c, sends, v.ctrl, v.data);
    var r := FlushBoth(c, sends);
    FlushBothShape(c, sends);
    if r.ok {
      var s1 := SetConn(s, f, ShutWrite(r.conn).(prefetched := []));
      var s2 := Ingest(s1, f, c.prefetched);
      IngestAllKept(s1, f, c.prefetched);
      IngestSpends(s1, f, c.prefetched);
      MaybeCreditConn(s2, f);
      assert FlushConn(s, f, sends, now) == MaybeCredit(s2, f);
    } else {
      MarkShutConn(SetConn(s, f, r.conn), f, now);
    }
  }

  /** With an empty stash, `ingest` keeps a byte back only if it must. */
  lemma IngestSpends(s: State, f: Flow, data: seq<u8>)
    requires f in s.conns && s.conns[f].prefetched == [] && HostToGuest(s.conns[f], OfFlow(s.outData, f))
    ensures var s' := Ingest(s, f, data);
            && f in s'.conns
            && var c, c' := s.conns[f], s'.conns[f];
               && (c'.prefetched == [] || !CanSend(c') || PeerAvail(c') == 0)
               && c'.peerShutSend == c.peerShutSend && c'.hostWriteShut == c.hostWriteShut
  {
    var c := s.conns[f];
    if data != [] {
      var k := if CanSend(c) then Min(|data|, PeerAvail(c)) else 0;
      IngestConn(s, f, data, k);
      if CanSend(c) && k < |data| {
        SpentCredit(c, data[..k]);
      }
    }
  }

  /** Sending as much as the credit allows uses it up. */
  lemma SpentCredit(c: Conn, chunk: seq<u8>)
    requires |chunk| == PeerAvail(c)
    ensures PeerAvail(SendChunk(c, chunk)) == 0
  {
  }

  /** The fields of a connection that credit and half-close packets leave alone. */
  predicate SameBytes(c: Conn, c': Conn) {
    && c'.log.queued == c.log.queued && c'.prefetched == c.prefetched && c'.log.accepted == c.log.accepted
    && c'.okPending == c.okPending && c'.toHost == c.toHost && c'.phase == c.phase
  }

  lemma MaybeCreditConn(s: State, f: Flow)
    requires f in s.conns
    ensures f in MaybeCredit(s, f).conns && SameBytes(s.conns[f], MaybeCredit(s, f).conns[f])
    ensures MaybeCredit(s, f).conns[f] == s.conns[f] || MaybeCredit(s, f).conns[f] == Announce(s.conns[f])
  {
  }

  lemma MarkShutConn(s: State, f: Flow, now: nat)
    requires f in s.conns
    ensures var s' := MarkLocalShut(s, f, true, true, now);
            && (f in s'.conns <==> s.conns[f].phase == Established)
            && (f in s'.conns ==> SameBytes(s.conns[f], s'.conns[f]) && s'.conns[f].localShutRecv && s'.conns[f].localShutSend)
  {
  }

  lemma FlushBothShape(c: Conn, sends: seq<Send>)
    ensures var c' := FlushBoth(c, sends).conn;
            c'.prefetched == c.prefetched && c'.log.queued == c.log.queued && c'.log.accepted == c.log.accepted
  {
    var n := FlushOkTakes(c, sends);
    var r := FlushOk(c, sends);
    if r.ok {
      var m := FlushToHostTakes(r.conn, r.rest);
    }
  }

  /** With an empty stash, `ingest` of at most MAX_PREFETCH bytes keeps them all. */
  lemma IngestAllKept(s: State, f: Flow, data: seq<u8>)
    requires f in s.conns && s.conns[f].prefetched == [] && |data| <= MAX_PREFETCH
    ensures var s' := Ingest(s, f, data);
            && f in s'.conns
            && var c, c' := s.conns[f], s'.conns[f];
               && c.log.queued + data == c'.log.queued + c'.prefetched
               && c'.log.accepted == c.log.accepted && c'.okPending == c.okPending && c'.toHost == c.toHost
               && c'.phase == c.phase
  {
    var c := s.conns[f];
    if data == [] {
      assert c.log.queued + data == c.log.queued + c.prefetched;
    } else {
      var k := if CanSend(c) then Min(|data|, PeerAvail(c)) else 0;
      IngestConn(s, f, data, k);
      StashSplit(SendChunk(c, data[..k]), data, k, |data|);
      Rejoin(c.log.queued, data, k);
    }
  }

  lemma Rejoin(q: seq<u8>, data: seq<u8>, k: nat)
    requires k <= |data|
    ensures (q + data[..k]) + ([] + data[k..|data|]) == q + data
  {
  }

  // ---- bytes from the guest ----

  /** A data packet is accepted whole exactly when it fits; one that does not ends the connection with a RST. */
  lemma RwAllOrNothing(s: State, f: Flow, data: seq<u8>, sends: seq<Send>, now: nat)
    requires Inv(s) && f in s.conns && AcceptsRw(s.conns[f]) && 0 < |data| <= MAX_PAYLOAD
    ensures var s' := OnRw(s, f, data, sends, now);
            var c := s.conns[f];
            && (f in s'.conns <==> |c.toHost| + |data| <= BUF_ALLOC)
            && (f in s'.conns ==> s'.conns[f].log.accepted == c.log.accepted + data)
            && (f !in s'.conns ==> OfFlow(s'.outCtrl, f) == [Ctrl(f, OP_RST, 0)] && OfFlow(s'.outData, f) == [])
  {
    RoomLeft(s, f);
    if |data| > LocalFree(s.conns[f]) {
      RwRefused(s, f, data, sends, now);
    } else {
      RwTaken(s, f, data, sends, now);
    }
  }

  lemma RoomLeft(s: State, f: Flow)
    requires Inv(s) && f in s.conns
    ensures LocalFree(s.conns[f]) == BUF_ALLOC - |s.conns[f].toHost|
  {
    assert FlowInv(f, ViewOf(s, f));
    LocalFreeExact(f, s.conns[f]);
  }

  lemma RwRefused(s: State, f: Flow, data: seq<u8>, sends: seq<Send>, now: nat)
    requires f in s.conns && AcceptsRw(s.conns[f]) && LocalFree(s.conns[f]) < |data| <= MAX_PAYLOAD
    ensures var s' := OnRw(s, f, data, sends, now);
            f !in s'.conns && OfFlow(s'.outCtrl, f) == [Ctrl(f, OP_RST, 0)] && OfFlow(s'.outData, f) == []
  {
    assert Wrap(|data|) == |data|;
    assert OnRw(s, f, data, sends, now) == DropConn(s, f, true);
    DroppedWithRst(s, f);
  }

  lemma RwTaken(s: State, f: Flow, data: seq<u8>, sends: seq<Send>, now: nat)
    requires f in s.conns && AcceptsRw(s.conns[f]) && 0 < |data| <= LocalFree(s.conns[f])
    ensures var s' := OnRw(s, f, data, sends, now);
            f in s'.conns && s'.conns[f].log.accepted == s.conns[f].log.accepted + data
  {
    EstablishedSurvives(SetConn(s, f, TakeRw(s.conns[f], data)), f, sends, now);
  }

  lemma DroppedWithRst(s: State, f: Flow)
    ensures var s' := DropConn(s, f, true);
            f !in s'.conns && OfFlow(s'.outCtrl, f) == [Ctrl(f, OP_RST, 0)] && OfFlow(s'.outData, f) == []
  {
    DropConnView(s, f, true);
    assert ViewOf(DropConn(s, f, true), f).ctrl == [Ctrl(f, OP_RST, 0)];
  }

  /** Flushing never removes an established connection and never touches what it accepted. */
  lemma EstablishedSurvives(s: State, f: Flow, sends: seq<Send>, now: nat)
    requires f in s.conns && s.conns[f].phase == Established
    ensures var s' := FlushConn(s, f, sends, now);
            f in s'.conns && s'.conns[f].log.accepted == s.conns[f].log.accepted
  {
    var c := s.conns[f];
    FlushBothShape(c, sends);
    FlushBothSteady(c, sends);
    var r := FlushBoth(c, sends);
    if !r.ok {
      MarkShutConn(SetConn(s, f, r.conn), f, now);
    } else {
      var c1 := ShutWrite(r.conn);
      var s1 := SetConn(s, f, c1.(prefetched := []));
      var s2 := Ingest(s1, f, c1.prefetched);
      IngestAccepted(s1, f, c1.prefetched);
      MaybeCreditConn(s2, f);
    }
  }

  lemma IngestAccepted(s: State, f: Flow, data: seq<u8>)
    requires f in s.conns
    ensures var s' := Ingest(s, f, data); f in s'.conns && s'.conns[f].log.accepted == s.conns[f].log.accepted
  {
    if data != [] {
      IngestConn(s, f, data, if CanSend(s.conns[f]) then Min(|data|, PeerAvail(s.conns[f])) else 0);
    }
  }

  /** A RESPONSE establishes the waiting connection and makes the OK line due, written or pending. */
  lemma ResponseEstablishes(s: State, f: Flow, sends: seq<Send>, now: nat)
    requires Inv(s) && f in s.conns && s.conns[f].phase == WaitGuest
    ensures var s' := OnResponse(s, f, sends, now);
            && f in s'.conns
            && var c' := s'.conns[f];
               c'.phase == Established && c'.log.written + c'.okPending == OkLine(f.hostPort)
  {
    assert FlowInv(f, ViewOf(s, f));
    OnResponseKeeps(s, f, sends, now);
    var c := s.conns[f];
    var c1 := Answered(f, c);
    EstablishedSurvives(SetConn(s, f, c1), f, sends, now);
    FlushConnSettles(SetConn(s, f, c1), f, sends, now);
    OnlyOkLine(f, OnResponse(s, f, sends, now).conns[f]);
  }

  lemma OnlyOkLine(f: Flow, c: Conn)
    requires GuestToHost(f, c) && c.log.hostInit && c.phase == Established && c.log.accepted == []
    ensures c.log.written + c.okPending == OkLine(f.hostPort)
  {
    assert c.toHost == [];
    assert c.log.written + c.okPending + c.toHost == c.log.written + c.okPending;
    assert c.log.okLine + [] == c.log.okLine;
  }

  /** A guest REQUEST: refused with a RST alone, or a new connection; on a live flow it ends that connection. */
  lemma RequestOpensOrResets(s: State, f: Flow, hdr: Header, host: Host)
    requires Inv(s)
    ensures var s' := OnGuestRequest(s, f, hdr, host);
            && (f in s'.conns <==> f !in s.conns && hdr.len == 0 && host.connect != Fail)
            && (f in s'.conns ==>
                  && s'.conns[f].log.id == s.nextId && s'.conns[f].phase == Established
                  && s'.conns[f].peerBufAlloc == hdr.bufAlloc && s'.conns[f].peerFwdCnt == hdr.fwdCnt
                  && s'.conns[f].connecting == (host.connect == Pending)
                  && s'.conns[f].expiry == (if host.connect == Pending then Some(host.now + REQUEST_TIMEOUT) else None)
                  && CountOp(OfFlow(s'.outCtrl, f), OP_RESPONSE) == (if host.connect == Done then 1 else 0))
            && (f !in s'.conns ==> CountOp(OfFlow(s'.outCtrl, f), OP_RST) == 1 && OfFlow(s'.outData, f) == [])
  {
    assert FlowInv(f, ViewOf(s, f));
    if f in s.conns {
      DroppedWithRst(s, f);
      assert [Ctrl(f, OP_RST, 0)][1..] == [];
    } else if hdr.len != 0 || host.connect == Fail {
      RefusedWithRst(s, f);
    } else {
      RequestOpens(s, f, hdr, host);
    }
  }

  lemma RefusedWithRst(s: State, f: Flow)
    requires CoreInv(f, ViewOf(s, f)) && f !in s.conns
    ensures var s' := EnqueueRst(s, f);
            f !in s'.conns && CountOp(OfFlow(s'.outCtrl, f), OP_RST) == 1 && OfFlow(s'.outData, f) == []
  {
    EnqueueRstView(s, f);
    CountNoRst(OfFlow(s.outCtrl, f));
    CountPush(NoRst(OfFlow(s.outCtrl, f)), Ctrl(f, OP_RST, 0));
    assert ViewOf(EnqueueRst(s, f), f).ctrl == NoRst(OfFlow(s.outCtrl, f)) + [Ctrl(f, OP_RST, 0)];
    assert ViewOf(EnqueueRst(s, f), f).data == [];
  }

  lemma RequestOpens(s: State, f: Flow, hdr: Header, host: Host)
    requires CoreInv(f, ViewOf(s, f)) && f !in s.conns && hdr.len == 0 && host.connect != Fail
    ensures var s' := OnGuestRequest(s, f, hdr, host);
            && f in s'.conns && s'.conns[f] == GuestConn(s.nextId, hdr, host)
            && CountOp(OfFlow(s'.outCtrl, f), OP_RESPONSE) == (if host.connect == Done then 1 else 0)
  {
    OpenGuestConnKeeps(s, f, hdr, host);
    assert FlowInv(f, ViewOf(OnGuestRequest(s, f, hdr, host), f));
  }

  /** Packets that belong to no connection: strangers are ignored, the rest draw one RST, a RST draws none. */
  lemma StrayPackets(s: State, hdr: Header, data: seq<u8>, host: Host)
    requires Inv(s)
    ensures var s' := HandleGuestPkt(s, hdr, data, host);
            var f := HdrFlow(hdr);
            && (hdr.srcCid != s.guestCid || hdr.dstCid != HOST_CID ==> s' == s)
            && (hdr.srcCid == s.guestCid && hdr.dstCid == HOST_CID && hdr.op != OP_REQUEST
                && (hdr.kind != TYPE_STREAM || f !in s.conns) ==>
                  if hdr.op == OP_RST then s' == s
                  else s'.conns == s.conns && s'.outData == s.outData
                       && CountOp(OfFlow(s'.outCtrl, f), OP_RST) == 1
                       && NoRst(OfFlow(s'.outCtrl, f)) == NoRst(OfFlow(s.outCtrl, f)))
  {
    var f := HdrFlow(hdr);
    EnqueueRstView(s, f);
    var q := NoRst(OfFlow(s.outCtrl, f));
    CountNoRst(OfFlow(s.outCtrl, f));
    CountPush(q, Ctrl(f, OP_RST, 0));
    NoRstPush(OfFlow(s.outCtrl, f), Ctrl(f, OP_RST, 0));
    assert OfFlow(EnqueueRst(s, f).outCtrl, f) == q + [Ctrl(f, OP_RST, 0)] by {
      assert ViewOf(EnqueueRst(s, f), f).ctrl == q + [Ctrl(f, OP_RST, 0)];
    }
  }

  lemma {:induction false} NoRstPush(q: seq<OutPkt>, p: OutPkt)
    requires p.op == OP_RST
    ensures NoRst(NoRst(q) + [p]) == NoRst(q)
  {
    if q == [] {
      assert [p][1..] == [];
      assert NoRst(q) + [p] == [p];
    } else if q[0].op == OP_RST {
      NoRstPush(q[1..], p);
    } else {
      NoRstPush(q[1..], p);
      NoRstCons(q[0], NoRst(q[1..]) + [p]);
      assert NoRst(q) + [p] == [q[0]] + (NoRst(q[1..]) + [p]);
    }
  }

  lemma NoRstCons(x: OutPkt, q: seq<OutPkt>)
    requires x.op != OP_RST
    ensures NoRst([x] + q) == [x] + NoRst(q)
  {
    assert ([x] + q)[1..] == q;
  }

  // ---- host sockets ----

  /** End of file from the host: an unanswered connection goes with a RST, another shuts its send side, once. */
  lemma HostEofShutsSend(s: State, f: Flow, read: Read, now: nat)
    requires Inv(s) && f in s.conns && (read == Eof || read == Bytes([]))
    ensures var s' := ReadConn(s, f, read, now);
            var c := s.conns[f];
            if c.phase == WaitGuest then
              f !in s'.conns && OfFlow(s'.outCtrl, f) == [Ctrl(f, OP_RST, 0)]
            else if c.localShutSend then s' == s
            else
              && f in s'.conns && s'.conns[f].localShutSend && s'.conns[f].localShutRecv == c.localShutRecv
              && s'.conns[f].expiry == Some(now + SHUTDOWN_TIMEOUT)
              && OfFlow(s'.outCtrl, f) == OfFlow(s.outCtrl, f) + [Ctrl(f, OP_SHUTDOWN, SHUTDOWN_SEND)]
  {
    var c := s.conns[f];
    if c.phase == WaitGuest {
      DroppedWithRst(s, f);
    } else if !c.localShutSend {
      var c1 := LocalShut(c, false, true, now);
      EnqueueView(SetConn(s, f, c1), Ctrl(f, OP_SHUTDOWN, SHUTDOWN_SEND));
      assert ViewOf(OnHostEof(s, f, now), f).ctrl == OfFlow(s.outCtrl, f) + [Ctrl(f, OP_SHUTDOWN, SHUTDOWN_SEND)];
    }
  }

  /**
   A complete line from a connecting host: `CONNECT <port>`, with or without a carriage return, opens a flow to
   that guest port and keeps what followed the line; any other line just closes the socket.
   */
  lemma ConnectLineOpens(s: State, i: nat, read: Read, now: nat, line: seq<u8>, rest: seq<u8>)
    requires Inv(s) && i < |s.incoming| && read.Bytes? && 0 < |read.data| <= 64
    requires s.incoming[i] + read.data == line + [10] + rest && 10 !in line
    ensures var s' := ReadIncoming(s, i, read, now);
            var port := ParseConnect(StripCr(line));
            var a := AllocPort(s.nextHostPort, HostPorts(s), PORT_TRIES);
            && s'.incoming == RemoveAt(s.incoming, i)
            && (port == None ==> s'.conns == s.conns && s'.outCtrl == s.outCtrl)
            && (port.Some? && a.port == None ==> s'.conns == s.conns && s'.outCtrl == s.outCtrl)
            && (port.Some? && a.port.Some? ==>
                  var f := Flow(port.value, a.port.value);
                  && f !in s.conns && s'.conns.Keys == s.conns.Keys + {f}
                  && s'.conns[f].phase == WaitGuest && s'.conns[f].prefetched == rest
                  && s'.conns[f].expiry == Some(now + REQUEST_TIMEOUT)
                  && s'.outCtrl == s.outCtrl + [Ctrl(f, OP_REQUEST, 0)])
    ensures forall p: u32 :: ParseConnect(StripCr(line)) == Some(p) <==> exists ds :: NamesPort(line, ds, p)
  {
    LinePorts(line);
    LineIs(s, i, read, now, line, rest);
    var s1 := s.(incoming := RemoveAt(s.incoming, i));
    assert HostPorts(s1) == HostPorts(s);
    var port := ParseConnect(StripCr(line));
    if port.Some? {
      HostConnOpens(s1, port.value, rest, now);
    }
  }

  lemma LineIs(s: State, i: nat, read: Read, now: nat, line: seq<u8>, rest: seq<u8>)
    requires i < |s.incoming| && read.Bytes? && 0 < |read.data| <= 64
    requires s.incoming[i] + read.data == line + [10] + rest && 10 !in line
    ensures var s1, port := s.(incoming := RemoveAt(s.incoming, i)), ParseConnect(StripCr(line));
            ReadIncoming(s, i, read, now) == if port == None then s1 else OpenHostConn(s1, port.value, rest, now)
  {
    var buf := s.incoming[i] + read.data;
    assert read.data[..|read.data|] == read.data;
    NewlineAt(line, rest);
    assert buf[..|line|] == line && buf[|line| + 1..] == rest;
    assert RemoveAt(s.incoming[i := buf], i) == RemoveAt(s.incoming, i);
  }

  /** A connection for a host, if a port is free. */
  lemma HostConnOpens(s: State, guestPort: u32, rest: seq<u8>, now: nat)
    requires FIRST_PORT <= s.nextHostPort
    ensures var s' := OpenHostConn(s, guestPort, rest, now);
            var a := AllocPort(s.nextHostPort, HostPorts(s), PORT_TRIES);
            && s'.incoming == s.incoming
            && (a.port == None ==> s'.conns == s.conns && s'.outCtrl == s.outCtrl)
            && (a.port.Some? ==>
                  var f := Flow(guestPort, a.port.value);
                  && f !in s.conns && s'.conns.Keys == s.conns.Keys + {f}
                  && s'.conns[f].phase == WaitGuest && s'.conns[f].prefetched == rest
                  && s'.conns[f].expiry == Some(now + REQUEST_TIMEOUT)
                  && s'.outCtrl == s.outCtrl + [Ctrl(f, OP_REQUEST, 0)])
  {
    AllocatedFlowIsNew(s, guestPort);
  }

  lemma {:induction false} NewlineAt(line: seq<u8>, rest: seq<u8>)
    requires 10 !in line
    ensures IndexOfNewline(line + [10] + rest) == |line|
  {
    var buf := line + [10] + rest;
    assert buf[|line|] == 10;
    assert forall j :: 0 <= j < |line| ==> buf[j] == line[j];
  }

  /**
   How a CONNECT line is cut into reads does not matter: two reads within the 64-byte limit do what one
   read of both would.
   */
  lemma LineInPieces(s: State, i: nat, a: seq<u8>, b: seq<u8>, now: nat)
    requires Inv(s) && i < |s.incoming| && 0 < |a| && 0 < |b| && |a| + |b| <= 64
    requires 10 !in s.incoming[i] + a && |s.incoming[i] + a| <= 64
    ensures ReadIncoming(ReadIncoming(s, i, Bytes(a), now), i, Bytes(b), now) == ReadIncoming(s, i, Bytes(a + b), now)
  {
    var one := s.incoming[i] + a;
    assert a[..|a|] == a && b[..|b|] == b && (a + b)[..|a + b|] == a + b;
    assert IndexOfNewline(one) == |one|;
    var s1 := s.(incoming := s.incoming[i := one]);
    assert ReadIncoming(s, i, Bytes(a), now) == s1;
    assert one + b == s.incoming[i] + (a + b);
    assert s1.incoming[i := one + b] == s.incoming[i := one + b];
    assert RemoveAt(s1.incoming, i) == RemoveAt(s.incoming, i);
  }

  /** A socket error shuts both directions of an established connection and resets an unanswered one. */
  lemma BrokenSocketShuts(s: State, f: Flow, now: nat)
    requires Inv(s) && f in s.conns
    ensures var s' := ReadConn(s, f, Broken, now);
            && (f in s'.conns <==> s.conns[f].phase == Established)
            && (f in s'.conns ==> s'.conns[f].localShutSend && s'.conns[f].localShutRecv)
            && (f !in s'.conns ==> OfFlow(s'.outCtrl, f) == [Ctrl(f, OP_RST, 0)])
  {
    DroppedWithRst(s, f);
    MarkShutConn(s, f, now);
  }

  // ---- packets of a live connection ----

  /**
   Stream packets on a live flow: RST removes it without reply, an oversized RW with one RST, a credit request
   gets its update, and any other packet without a handler just leaves its credit fields behind.
   */
  lemma LivePackets(s: State, hdr: Header, data: seq<u8>, host: Host)
    requires Inv(s) && hdr.srcCid == s.guestCid && hdr.dstCid == HOST_CID && hdr.kind == TYPE_STREAM
    requires HdrFlow(hdr) in s.conns
    ensures var f := HdrFlow(hdr);
            var s' := HandleGuestPkt(s, hdr, data, host);
            && (hdr.op == OP_RST ==> f !in s'.conns && OfFlow(s'.outCtrl, f) == OfFlow(s'.outData, f) == [])
            && (hdr.op == OP_RW && |data| > MAX_PAYLOAD ==> f !in s'.conns && OfFlow(s'.outCtrl, f) == [Ctrl(f, OP_RST, 0)])
            && (hdr.op == OP_CREDIT_REQUEST ==> f in s'.conns && Queued(s'.outCtrl, f, OP_CREDIT_UPDATE))
            && (hdr.op == 0 || hdr.op == OP_CREDIT_UPDATE || hdr.op > OP_CREDIT_REQUEST ==>
                  && s'.outCtrl == s.outCtrl && s'.outData == s.outData && s'.conns.Keys == s.conns.Keys
                  && s'.conns[f].peerBufAlloc == hdr.bufAlloc && s'.conns[f].peerFwdCnt == hdr.fwdCnt
                  && SameBytes(s.conns[f], s'.conns[f]))
  {
    var f := HdrFlow(hdr);
    var s1 := SetConn(s, f, NoteCredit(s.conns[f], hdr));
    if hdr.op == OP_RST {
      DropConnView(s1, f, false);
      assert ViewOf(DropConn(s1, f, false), f) == View(None, [], []);
    } else if hdr.op == OP_RW && |data| > MAX_PAYLOAD {
      DroppedWithRst(s1, f);
    } else if hdr.op == OP_CREDIT_REQUEST {
      CreditQueued(s1, f);
    }
  }

  lemma CreditQueued(s: State, f: Flow)
    ensures Queued(EnqueueCredit(s, f).outCtrl, f, OP_CREDIT_UPDATE)
  {
    var q := EnqueueCredit(s, f).outCtrl;
    if !Queued(s.outCtrl, f, OP_CREDIT_UPDATE) {
      assert q[|s.outCtrl|].flow == f && q[|s.outCtrl|].op == OP_CREDIT_UPDATE;
    }
  }

  /**
   How a chain is read: the 44 bytes of a header, then its payload, and no more. A header that announces too much, or
   more than there is, names the flow to reset.
   */
  lemma ChainExactly(h: Header, rest: seq<u8>)
    ensures ReadChain(Serialize(h) + rest) ==
              if h.len > 64 * 1024 || |rest| < h.len then Damaged(Flow(h.srcPort, h.dstPort))
              else Packet(h, rest[..h.len])
  {
    var raw := Serialize(h) + rest;
    assert raw[..HDR_LEN] == Serialize(h);
    ParseSerialize(h);
    if h.len <= |rest| {
      assert raw[HDR_LEN..HDR_LEN + h.len] == rest[..h.len];
    }
  }

  /** Every chain of 44 bytes or more is of that form; a shorter one is dropped. */
  lemma ChainForms(raw: seq<u8>)
    ensures ReadChain(raw) == Short <==> |raw| < 44
    ensures |raw| >= 44 ==> raw == Serialize(Parse(raw[..44])) + raw[44..]
  {
    if |raw| >= 44 {
      SerializeParse(raw[..44]);
    }
  }

  /** A data packet of this guest on a flow that is receiving and has room for it. */
  predicate Welcome(s: State, h: Header, data: seq<u8>) {
    && h.srcCid == s.guestCid && h.dstCid == 2 && h.kind == 1 && h.op == 5 && h.len == |data|
    && var f := Flow(h.srcPort, h.dstPort);
       && f in s.conns
       && var c := s.conns[f];
          && c.phase == Established && !c.localShutRecv && !c.peerShutSend
          && 0 < |data| <= 64 * 1024 && |c.toHost| + |data| <= 256 * 1024
  }

  /** What a chain does to the stream of a flow: such a packet adds exactly its payload. */
  ghost predicate TakesData(s: State, raw: seq<u8>, s': State) {
    forall h: Header, data: seq<u8>, tail: seq<u8> :: raw == Serialize(h) + (data + tail) && Welcome(s, h, data) ==>
      var f := Flow(h.srcPort, h.dstPort);
      f in s'.conns && s'.conns[f].log.accepted == s.conns[f].log.accepted + data
  }

  lemma ChainTaken(s: State, raw: seq<u8>, host: Host)
    requires Inv(s)
    ensures TakesData(s, raw, GuestChain(s, ReadChain(raw), host))
  {
    forall h: Header, data: seq<u8>, tail: seq<u8> | raw == Serialize(h) + (data + tail) && Welcome(s, h, data)
      ensures var s', f := GuestChain(s, ReadChain(raw), host), Flow(h.srcPort, h.dstPort);
              f in s'.conns && s'.conns[f].log.accepted == s.conns[f].log.accepted + data
    {
      ChainExactly(h, data + tail);
      assert (data + tail)[..h.len] == data;
      PacketTaken(s, h, data, host);
    }
  }

  lemma PacketTaken(s: State, h: Header, data: seq<u8>, host: Host)
    requires Inv(s) && Welcome(s, h, data)
    ensures var s', f := HandleGuestPkt(s, h, data, host), Flow(h.srcPort, h.dstPort);
            f in s'.conns && s'.conns[f].log.accepted == s.conns[f].log.accepted + data
  {
    var f := Flow(h.srcPort, h.dstPort);
    var s1 := SetConn(s, f, NoteCredit(s.conns[f], h));
    RoomLeft(s, f);
    assert HandleGuestPkt(s, h, data, host) == OnRw(s1, f, data, host.sends, host.now);
    RwTaken(s1, f, data, host.sends, host.now);
  }

  /** A chain whose length does not match its header ends the connection it names with one RST. */
  lemma DamagedChainResets(s: State, raw: seq<u8>, host: Host)
    requires Inv(s) && |raw| >= HDR_LEN
    ensures var hdr := Parse(raw[..HDR_LEN]);
            var f := HdrFlow(hdr);
            var s' := GuestChain(s, ReadChain(raw), host);
            hdr.len > MAX_PAYLOAD || |raw| < HDR_LEN + hdr.len ==>
              f !in s'.conns && OfFlow(s'.outCtrl, f) == [Ctrl(f, OP_RST, 0)] && OfFlow(s'.outData, f) == []
  {
    DroppedWithRst(s, HdrFlow(Parse(raw[..HDR_LEN])));
  }

  // ---- headers and credit ----

  /** A delivered header tells the guest exactly how much of its connection was forwarded at that moment. */
  lemma DeliveredHeaderCovers(s: State, avail: nat)
    requires Inv(s) && HasOut(s) && Fits(Front(s), avail) && Front(s).flow in s.conns
    ensures var s' := Deliver(s, avail);
            var f := Front(s).flow;
            var d := s'.wire[|s.wire|];
            && d.flow == f && f in s'.conns
            && d.hdr.fwdCnt == Wrap(s'.conns[f].log.covered) && d.hdr.bufAlloc == BUF_ALLOC
            && s'.conns[f].log.covered == Forwarded(s'.conns[f])
  {
    var f := Front(s).flow;
    assert FlowInv(f, ViewOf(s, f));
  }
}