/** The invariant of the multiplexer, flow by flow, and its preservation by every handler. */
module MuxInvariant {
  import opened Machine
  import opened Wire
  import opened MuxSpec
  import opened MuxQueues

  // ---- the invariant of one connection ----

  /** Queued but not yet forwarded by the guest stays within what the guest granted. */
  predicate CreditSafe(c: Conn) {
    && c.log.guestFwd <= |c.log.delivered|
    && |c.log.queued| - c.log.guestFwd <= c.peerBufAlloc
  }

  predicate HostToGuest(c: Conn, data: seq<OutPkt>) {
    && c.log.queued == c.log.delivered + Payload(data)
    && c.sentToGuest == Wrap(|c.log.queued|)
    && c.peerFwdCnt == Wrap(c.log.guestFwd)
    && (c.log.honest ==> CreditSafe(c))
    && |c.prefetched| <= MAX_PREFETCH
  }

  predicate GuestToHost(f: Flow, c: Conn) {
    && c.bufAlloc == BUF_ALLOC
    && |c.toHost| <= |c.log.accepted|
    && |c.toHost| <= BUF_ALLOC
    && c.received == Wrap(|c.log.accepted|)
    && c.fwdCnt == Wrap(Forwarded(c))
    && c.log.written + c.okPending + c.toHost == c.log.okLine + c.log.accepted
    && c.log.okLine == if c.log.hostInit && c.phase == Established then OkLine(f.hostPort) else []
  }

  predicate Announced(c: Conn, ctrl: seq<OutPkt>) {
    && c.lastFwdSent == Wrap(c.log.announced)
    && c.log.announced <= Forwarded(c)
    && c.log.covered <= Forwarded(c)
    && (CountOp(ctrl, OP_CREDIT_UPDATE) == 0 ==> c.log.announced <= c.log.covered)
  }

  predicate Handshake(c: Conn, ctrl: seq<OutPkt>, data: seq<OutPkt>) {
    && (c.phase == WaitGuest ==> Waiting(c) && data == [])
    && (c.connecting ==> c.phase == Established && !c.log.hostInit)
    && CountOp(ctrl, OP_REQUEST) + c.log.requestOut == (if c.log.hostInit then 1 else 0)
    && CountOp(ctrl, OP_RESPONSE) + c.log.responseOut == (if c.log.hostInit || c.connecting then 0 else 1)
    && (c.log.delivered != [] ==> c.log.rwOut > 0)
    && (c.log.hostInit && c.log.rwOut > 0 ==> c.log.requestOut == 1)
  }

  /** A connection the guest has not answered yet. */
  predicate Waiting(c: Conn) {
    && c.log.hostInit && !c.connecting && !c.localShutRecv && c.log.said == 0
    && c.sentToGuest == c.received == c.fwdCnt == c.lastFwdSent == 0
    && c.toHost == c.okPending == []
    && c.log.queued == c.log.accepted == c.log.written == []
  }

  predicate HalfClose(c: Conn, ctrl: seq<OutPkt>) {
    && CountSend(ctrl) + c.log.sendBits <= (if c.localShutSend then 1 else 0)
    && (c.localShutSend ==> CountSend(ctrl) + c.log.sendBits == 1 || c.peerShutRecv)
    && CountRecv(ctrl) + c.log.recvBits == (if c.localShutRecv then 1 else 0)
    && (c.hostWriteShut ==> c.peerShutSend && c.toHost == [] && AfterShut(c))
    && c.log.shutWr == (if c.hostWriteShut then 1 else 0)
  }

  /** The socket is shut for writing: nothing was written since, unless it was shut before the guest answered. */
  predicate AfterShut(c: Conn) {
    if c.log.shutEarly then c.log.hostInit && c.log.accepted == [] && c.log.shutWrote == []
    else c.phase == Established && c.okPending == [] && c.log.written == c.log.shutWrote
  }

  /** SHUTDOWN bits announced so far. */
  function Bits(c: Conn, ctrl: seq<OutPkt>): nat {
    CountSend(ctrl) + c.log.sendBits + CountRecv(ctrl) + c.log.recvBits
  }

  /** Who is under a deadline. */
  predicate Deadline(c: Conn, ctrl: seq<OutPkt>) {
    && (c.log.said > 0 <==> Bits(c, ctrl) > 0)
    && (c.expiry.Some? <==> c.phase == WaitGuest || c.connecting || (c.log.said > 0 && !c.log.connectedSince))
    && (c.connecting ==> !c.log.connectedSince)
  }

  predicate ConnInv(f: Flow, c: Conn, ctrl: seq<OutPkt>, data: seq<OutPkt>) {
    && HostToGuest(c, data)
    && GuestToHost(f, c)
    && Announced(c, ctrl)
    && Handshake(c, ctrl, data)
    && HalfClose(c, ctrl)
    && Deadline(c, ctrl)
  }

  /**
   The guest is about to learn how much was forwarded: an update is queued, or little is missing from
   the last header it saw. The last case is the one 32-bit arithmetic cannot see.
   */
  predicate KeepsUp(c: Conn, ctrl: seq<OutPkt>) {
    || c.localShutRecv
    || CountOp(ctrl, OP_CREDIT_UPDATE) > 0
    || Forwarded(c) - c.log.covered < Threshold(c)
    || Forwarded(c) - c.log.announced >= M32
  }

  // ---- the invariant of one flow ----

  /** A packet as `out_ctrl` may hold it. */
  predicate CtrlPkt(f: Flow, p: OutPkt) {
    && p.flow == f && p.data == []
    && p.op in {OP_REQUEST, OP_RESPONSE, OP_RST, OP_SHUTDOWN, OP_CREDIT_UPDATE, OP_CREDIT_REQUEST}
    && (p.op == OP_SHUTDOWN ==> 1 <= p.flags <= 3)
  }

  predicate QueueInv(f: Flow, ctrl: seq<OutPkt>, data: seq<OutPkt>) {
    && (forall i :: 0 <= i < |ctrl| ==> CtrlPkt(f, ctrl[i]))
    && (forall i :: 0 <= i < |data| ==> RwPkt(f, data[i]))
    && CountOp(ctrl, OP_RST) <= 1
    && CountOp(ctrl, OP_CREDIT_UPDATE) <= 1
    && CountOp(ctrl, OP_CREDIT_REQUEST) <= 1
  }

  /** Without a connection nothing but resets may be queued. */
  predicate Orphan(ctrl: seq<OutPkt>, data: seq<OutPkt>) {
    data == [] && forall i :: 0 <= i < |ctrl| ==> ctrl[i].op == OP_RST
  }

  predicate CoreInv(f: Flow, v: View) {
    && QueueInv(f, v.ctrl, v.data)
    && if v.conn.Some? then ConnInv(f, v.conn.value, v.ctrl, v.data) else Orphan(v.ctrl, v.data)
  }

  predicate FlowInv(f: Flow, v: View) {
    CoreInv(f, v) && (v.conn.Some? ==> KeepsUp(v.conn.value, v.ctrl))
  }

  // ---- how one connection may evolve ----

  predicate Grows(a: seq<u8>, b: seq<u8>) {
    a <= b
  }

  /** `c'` is the same connection as `c`, later. */
  predicate Later(c: Conn, c': Conn) {
    && c'.log.id == c.log.id && c'.log.hostInit == c.log.hostInit
    && (c.phase == Established ==> c'.phase == Established)
    && (c.localShutSend ==> c'.localShutSend) && (c.localShutRecv ==> c'.localShutRecv)
    && (c.peerShutSend ==> c'.peerShutSend) && (c.peerShutRecv ==> c'.peerShutRecv)
    && (c.hostWriteShut ==>
          c'.hostWriteShut && c'.log.shutWrote == c.log.shutWrote && c'.log.shutEarly == c.log.shutEarly)
    && Grows(c.log.queued, c'.log.queued) && Grows(c.log.delivered, c'.log.delivered)
    && Grows(c.log.accepted, c'.log.accepted) && Grows(c.log.written, c'.log.written)
    && (c.localShutSend || c.peerShutRecv ==> c'.log.queued == c.log.queued && c'.sentToGuest == c.sentToGuest)
    && (c.localShutRecv || c.peerShutSend ==> c'.log.accepted == c.log.accepted && c'.received == c.received)
    && c.log.guestFwd <= c'.log.guestFwd
    && (c'.log.honest ==> c.log.honest && c.peerBufAlloc <= c'.peerBufAlloc)
  }

  lemma LaterTransitive(a: Conn, b: Conn, c: Conn)
    requires Later(a, b) && Later(b, c)
    ensures Later(a, c)
  {
  }

  /** Between the two states flow `f` kept its connection, lost it, or gained a new one. */
  predicate Moves(s: State, s': State, f: Flow) {
    && s.nextId <= s'.nextId
    && (f in s'.conns ==>
          if f in s.conns then Later(s.conns[f], s'.conns[f])
          else s.nextId <= s'.conns[f].log.id < s'.nextId && !s'.conns[f].log.hostInit)
  }

  /** The effect of a handler on its flow `f`. */
  ghost predicate Handled(s: State, s': State, f: Flow) {
    && Only(s, s', f)
    && s'.incoming == s.incoming && s'.nextHostPort == s.nextHostPort
    && Moves(s, s', f)
  }

  lemma HandledTransitive(a: State, b: State, c: State, f: Flow)
    requires Handled(a, b, f) && Handled(b, c, f)
    requires f in c.conns && f in a.conns ==> f in b.conns
    ensures Handled(a, c, f)
  {
    forall g | g != f ensures ViewOf(c, g) == ViewOf(a, g) {
      assert ViewOf(b, g) == ViewOf(a, g);
    }
    if f in c.conns && f in a.conns {
      LaterTransitive(a.conns[f], b.conns[f], c.conns[f]);
    }
  }

  // ---- queue operations ----

  lemma SetConnHandled(s: State, f: Flow, c: Conn)
    requires f in s.conns && Later(s.conns[f], c)
    ensures Handled(s, SetConn(s, f, c), f)
    ensures ViewOf(SetConn(s, f, c), f) == ViewOf(s, f).(conn := Some(c))
  {
  }

  /** Updating the connection and queuing one control packet for it. */
  lemma SetAndEnqueue(s: State, f: Flow, c: Conn, p: OutPkt)
    requires f in s.conns && Later(s.conns[f], c) && p.flow == f && p.op != OP_RW
    ensures Handled(s, Enqueue(SetConn(s, f, c), p), f)
    ensures ViewOf(Enqueue(SetConn(s, f, c), p), f) == View(Some(c), ViewOf(s, f).ctrl + [p], ViewOf(s, f).data)
  {
    var s1 := SetConn(s, f, c);
    SetConnHandled(s, f, c);
    EnqueueView(s1, p);
    HandledTransitive(s, s1, Enqueue(s1, p), f);
  }

  lemma EnqueueRstKeeps(s: State, f: Flow)
    requires CoreInv(f, ViewOf(s, f))
    ensures Handled(s, EnqueueRst(s, f), f)
    ensures CoreInv(f, ViewOf(EnqueueRst(s, f), f))
    ensures FlowInv(f, ViewOf(s, f)) ==> FlowInv(f, ViewOf(EnqueueRst(s, f), f))
  {
    EnqueueRstView(s, f);
    var q := OfFlow(s.outCtrl, f);
    var q' := NoRst(q) + [Ctrl(f, OP_RST, 0)];
    RstQueue(f, q, OfFlow(s.outData, f));
    if f in s.conns {
      SameCounts(f, s.conns[f], q, q', OfFlow(s.outData, f));
    }
  }

  /** Replacing the RST of a flow by one at the end. */
  lemma RstQueue(f: Flow, q: seq<OutPkt>, data: seq<OutPkt>)
    requires QueueInv(f, q, data)
    ensures var q' := NoRst(q) + [Ctrl(f, OP_RST, 0)];
            && QueueInv(f, q', data) && (Orphan(q, data) ==> Orphan(q', data))
            && (forall op: u16 :: op != OP_RST ==> CountOp(q', op) == CountOp(q, op))
            && CountSend(q') == CountSend(q) && CountRecv(q') == CountRecv(q)
  {
    CountNoRst(q);
    CountPush(NoRst(q), Ctrl(f, OP_RST, 0));
    forall i | 0 <= i < |NoRst(q)|
      ensures CtrlPkt(f, NoRst(q)[i]) && (Orphan(q, data) ==> NoRst(q)[i].op == OP_RST)
    {
      assert NoRst(q)[i] in q;
    }
  }

  /** The invariant of a connection sees its control packets only through their counts. */
  lemma SameCounts(f: Flow, c: Conn, q: seq<OutPkt>, q': seq<OutPkt>, data: seq<OutPkt>)
    requires ConnInv(f, c, q, data)
    requires forall op: u16 :: op != OP_RST ==> CountOp(q', op) == CountOp(q, op)
    requires CountSend(q') == CountSend(q) && CountRecv(q') == CountRecv(q)
    ensures ConnInv(f, c, q', data) && (KeepsUp(c, q) ==> KeepsUp(c, q'))
  {
  }

  lemma DropConnKeeps(s: State, f: Flow, rst: bool)
    ensures Handled(s, DropConn(s, f, rst), f)
    ensures FlowInv(f, ViewOf(DropConn(s, f, rst), f))
    ensures f !in DropConn(s, f, rst).conns
  {
    DropConnView(s, f, rst);
    var q := [Ctrl(f, OP_RST, 0)];
    assert q[1..] == [];
  }

  lemma RequestCreditKeeps(s: State, f: Flow)
    requires f in s.conns && CoreInv(f, ViewOf(s, f))
    ensures Handled(s, RequestCredit(s, f), f)
    ensures CoreInv(f, ViewOf(RequestCredit(s, f), f))
    ensures RequestCredit(s, f).conns == s.conns
    ensures CountOp(ViewOf(RequestCredit(s, f), f).ctrl, OP_CREDIT_UPDATE) == CountOp(ViewOf(s, f).ctrl, OP_CREDIT_UPDATE)
  {
    QueuedIsCount(s.outCtrl, f, OP_CREDIT_REQUEST);
    EnqueueView(s, Ctrl(f, OP_CREDIT_REQUEST, 0));
    CountPush(OfFlow(s.outCtrl, f), Ctrl(f, OP_CREDIT_REQUEST, 0));
  }

  lemma EnqueueCreditKeeps(s: State, f: Flow)
    requires f in s.conns && CoreInv(f, ViewOf(s, f))
    ensures Handled(s, EnqueueCredit(s, f), f)
    ensures FlowInv(f, ViewOf(EnqueueCredit(s, f), f))
  {
    QueuedIsCount(s.outCtrl, f, OP_CREDIT_UPDATE);
    if !Queued(s.outCtrl, f, OP_CREDIT_UPDATE) {
      var c := s.conns[f];
      AnnounceKeeps(f, c, ViewOf(s, f).ctrl, ViewOf(s, f).data);
      SetAndEnqueue(s, f, Announce(c), Ctrl(f, OP_CREDIT_UPDATE, 0));
    }
  }

  lemma AnnounceKeeps(f: Flow, c: Conn, ctrl: seq<OutPkt>, data: seq<OutPkt>)
    requires QueueInv(f, ctrl, data) && ConnInv(f, c, ctrl, data) && CountOp(ctrl, OP_CREDIT_UPDATE) == 0
    ensures var q := ctrl + [Ctrl(f, OP_CREDIT_UPDATE, 0)];
            Later(c, Announce(c)) && FlowInv(f, View(Some(Announce(c)), q, data))
  {
    CountPush(ctrl, Ctrl(f, OP_CREDIT_UPDATE, 0));
  }

  /** After `maybe_credit` the guest is kept up to date, unless 2^32 bytes went by unannounced. */
  lemma MaybeCreditKeeps(s: State, f: Flow)
    requires f in s.conns && CoreInv(f, ViewOf(s, f))
    ensures Handled(s, MaybeCredit(s, f), f)
    ensures FlowInv(f, ViewOf(MaybeCredit(s, f), f))
  {
    var c := s.conns[f];
    WrapSub(Forwarded(c), c.log.announced);
    if Sub32(c.fwdCnt, c.lastFwdSent) >= Threshold(c) {
      EnqueueCreditKeeps(s, f);
    }
  }

  lemma MarkLocalShutKeeps(s: State, f: Flow, recv: bool, send: bool, now: nat)
    requires CoreInv(f, ViewOf(s, f))
    requires FlowInv(f, ViewOf(s, f)) || recv
    ensures Handled(s, MarkLocalShut(s, f, recv, send, now), f)
    ensures FlowInv(f, ViewOf(MarkLocalShut(s, f, recv, send, now), f))
  {
    if f in s.conns {
      var c := s.conns[f];
      var flags := ShutFlags(c, recv, send);
      if c.phase == WaitGuest {
        DropConnKeeps(s, f, true);
      } else if flags != 0 {
        ShutKeeps(f, c, ViewOf(s, f).ctrl, ViewOf(s, f).data, recv, send, now);
        SetAndEnqueue(s, f, LocalShut(c, recv, send, now), Ctrl(f, OP_SHUTDOWN, flags));
      }
    }
  }

  lemma ShutKeeps(f: Flow, c: Conn, ctrl: seq<OutPkt>, data: seq<OutPkt>, recv: bool, send: bool, now: nat)
    requires QueueInv(f, ctrl, data) && ConnInv(f, c, ctrl, data) && c.phase == Established
    requires recv || KeepsUp(c, ctrl)
    requires ShutFlags(c, recv, send) != 0
    ensures var c1 := LocalShut(c, recv, send, now);
            var q := ctrl + [Ctrl(f, OP_SHUTDOWN, ShutFlags(c, recv, send))];
            Later(c, c1) && FlowInv(f, View(Some(c1), q, data))
  {
    var c1, p := LocalShut(c, recv, send, now), Ctrl(f, OP_SHUTDOWN, ShutFlags(c, recv, send));
    CountPush(ctrl, p);
    ShutSame(f, c, ctrl, ctrl + [p], data, c1);
    ShutCounts(c, ctrl, ctrl + [p], recv, send, now);
  }

  lemma ShutSame(f: Flow, c: Conn, ctrl: seq<OutPkt>, q: seq<OutPkt>, data: seq<OutPkt>, c1: Conn)
    requires ConnInv(f, c, ctrl, data) && c.phase == Established
    requires c1 == c.(localShutSend := c1.localShutSend, localShutRecv := c1.localShutRecv, expiry := c1.expiry,
                      log := c.log.(said := c1.log.said, connectedSince := c1.log.connectedSince))
    requires forall op: u16 :: op != OP_SHUTDOWN ==> CountOp(q, op) == CountOp(ctrl, op)
    ensures HostToGuest(c1, data) && GuestToHost(f, c1) && Announced(c1, q) && Handshake(c1, q, data)
  {
  }

  lemma ShutCounts(c: Conn, ctrl: seq<OutPkt>, q: seq<OutPkt>, recv: bool, send: bool, now: nat)
    requires HalfClose(c, ctrl) && Deadline(c, ctrl) && c.phase == Established && ShutFlags(c, recv, send) != 0
    requires CountSend(q) == CountSend(ctrl) + (if send && !c.localShutSend then 1 else 0)
    requires CountRecv(q) == CountRecv(ctrl) + (if recv && !c.localShutRecv then 1 else 0)
    ensures HalfClose(LocalShut(c, recv, send, now), q) && Deadline(LocalShut(c, recv, send, now), q)
  {
  }

  // ---- host to guest ----

  /** The peer's credit is what it granted less what is outstanding, wrap-around included. */
  lemma PeerAvailExact(c: Conn, data: seq<OutPkt>)
    requires HostToGuest(c, data) && c.log.honest
    ensures PeerAvail(c) == c.peerBufAlloc - (|c.log.queued| - c.log.guestFwd)
  {
    WrapSub(|c.log.queued|, c.log.guestFwd);
  }

  lemma SendChunkKeeps(c: Conn, data: seq<OutPkt>, f: Flow, chunk: seq<u8>)
    requires HostToGuest(c, data) && |chunk| <= PeerAvail(c)
    ensures HostToGuest(SendChunk(c, chunk), data + Chunks(f, chunk))
  {
    SentBytes(c.log.delivered, data, f, chunk);
    SentHostToGuest(c, data, data + Chunks(f, chunk), chunk);
  }

  lemma SentHostToGuest(c: Conn, data: seq<OutPkt>, data': seq<OutPkt>, chunk: seq<u8>)
    requires HostToGuest(c, data) && |chunk| <= PeerAvail(c)
    requires (c.log.delivered + Payload(data)) + chunk == c.log.delivered + Payload(data')
    ensures HostToGuest(SendChunk(c, chunk), data')
  {
    WrapAdd(|c.log.queued|, |chunk|);
    if c.log.honest {
      SendWithin(c, data, |chunk|);
    }
  }

  lemma SendWithin(c: Conn, data: seq<OutPkt>, n: nat)
    requires HostToGuest(c, data) && c.log.honest && n <= PeerAvail(c)
    ensures c.log.guestFwd <= |c.log.delivered| && |c.log.queued| + n - c.log.guestFwd <= c.peerBufAlloc
  {
    PeerAvailExact(c, data);
  }

  lemma SentBytes(delivered: seq<u8>, data: seq<OutPkt>, f: Flow, chunk: seq<u8>)
    ensures (delivered + Payload(data)) + chunk == delivered + Payload(data + Chunks(f, chunk))
  {
    ChunksFacts(f, chunk);
    PayloadConcat(data, Chunks(f, chunk));
    Assoc(delivered, Payload(data), chunk);
  }

  lemma IngestKeeps(s: State, f: Flow, data: seq<u8>)
    requires CoreInv(f, ViewOf(s, f))
    ensures Handled(s, Ingest(s, f, data), f)
    ensures CoreInv(f, ViewOf(Ingest(s, f, data), f))
    ensures FlowInv(f, ViewOf(s, f)) ==> FlowInv(f, ViewOf(Ingest(s, f, data), f))
    ensures f in s.conns ==> f in Ingest(s, f, data).conns
  {
    if f in s.conns && data != [] {
      var c := s.conns[f];
      if !CanSend(c) {
        StashKeeps(f, c, ViewOf(s, f).ctrl, ViewOf(s, f).data, data);
        SetConnHandled(s, f, Stash(c, data));
      } else {
        IngestSends(s, f, data);
      }
    }
  }

  lemma StashKeeps(f: Flow, c: Conn, ctrl: seq<OutPkt>, data: seq<OutPkt>, more: seq<u8>)
    requires ConnInv(f, c, ctrl, data)
    ensures ConnInv(f, Stash(c, more), ctrl, data) && Later(c, Stash(c, more))
    ensures KeepsUp(c, ctrl) ==> KeepsUp(Stash(c, more), ctrl)
  {
  }

  lemma SendKeeps(f: Flow, c: Conn, ctrl: seq<OutPkt>, data: seq<OutPkt>, chunk: seq<u8>)
    requires QueueInv(f, ctrl, data) && ConnInv(f, c, ctrl, data) && CanSend(c) && |chunk| <= PeerAvail(c)
    ensures var c1 := SendChunk(c, chunk);
            && Later(c, c1)
            && CoreInv(f, View(Some(c1), ctrl, data + Chunks(f, chunk)))
            && (KeepsUp(c, ctrl) ==> KeepsUp(c1, ctrl))
  {
    SendChunkKeeps(c, data, f, chunk);
    SendConn(f, c, ctrl, data, data + Chunks(f, chunk), chunk);
    PushChunksQueue(f, ctrl, data, chunk);
  }

  lemma PushChunksQueue(f: Flow, ctrl: seq<OutPkt>, data: seq<OutPkt>, chunk: seq<u8>)
    requires QueueInv(f, ctrl, data)
    ensures QueueInv(f, ctrl, data + Chunks(f, chunk))
  {
    ChunksFacts(f, chunk);
  }

  lemma SendConn(f: Flow, c: Conn, ctrl: seq<OutPkt>, data: seq<OutPkt>, data': seq<OutPkt>, chunk: seq<u8>)
    requires ConnInv(f, c, ctrl, data) && CanSend(c) && HostToGuest(SendChunk(c, chunk), data')
    ensures ConnInv(f, SendChunk(c, chunk), ctrl, data') && Later(c, SendChunk(c, chunk))
  {
  }

  lemma IngestSends(s: State, f: Flow, data: seq<u8>)
    requires CoreInv(f, ViewOf(s, f)) && f in s.conns && data != [] && CanSend(s.conns[f])
    ensures Handled(s, Ingest(s, f, data), f)
    ensures CoreInv(f, ViewOf(Ingest(s, f, data), f))
    ensures FlowInv(f, ViewOf(s, f)) ==> FlowInv(f, ViewOf(Ingest(s, f, data), f))
    ensures f in Ingest(s, f, data).conns
  {
    var c := s.conns[f];
    var k := Min(|data|, PeerAvail(c));
    var c1 := SendChunk(c, data[..k]);
    var s1 := SetConn(s, f, c1).(outData := s.outData + Chunks(f, data[..k]));
    ChunkSent(s, f, data[..k]);
    if k != |data| {
      StashedRest(s1, f, data[k..]);
      HandledTransitive(s, s1, Ingest(s, f, data), f);
    }
  }

  lemma ChunkSent(s: State, f: Flow, chunk: seq<u8>)
    requires CoreInv(f, ViewOf(s, f)) && f in s.conns && CanSend(s.conns[f]) && |chunk| <= PeerAvail(s.conns[f])
    ensures var s1 := SetConn(s, f, SendChunk(s.conns[f], chunk)).(outData := s.outData + Chunks(f, chunk));
            && Handled(s, s1, f) && CoreInv(f, ViewOf(s1, f))
            && (FlowInv(f, ViewOf(s, f)) ==> FlowInv(f, ViewOf(s1, f)))
  {
    var c1 := SendChunk(s.conns[f], chunk);
    var s0 := SetConn(s, f, c1);
    SendKeeps(f, s.conns[f], ViewOf(s, f).ctrl, ViewOf(s, f).data, chunk);
    SetConnHandled(s, f, c1);
    PushChunksView(s0, f, chunk);
    HandledTransitive(s, s0, s0.(outData := s.outData + Chunks(f, chunk)), f);
  }

  lemma StashedRest(s: State, f: Flow, rest: seq<u8>)
    requires CoreInv(f, ViewOf(s, f)) && f in s.conns
    ensures var s' := RequestCredit(SetConn(s, f, Stash(s.conns[f], rest)), f);
            && Handled(s, s', f) && CoreInv(f, ViewOf(s', f)) && f in s'.conns
            && (FlowInv(f, ViewOf(s, f)) ==> FlowInv(f, ViewOf(s', f)))
  {
    var c := Stash(s.conns[f], rest);
    var s1 := SetConn(s, f, c);
    StashKeeps(f, s.conns[f], ViewOf(s, f).ctrl, ViewOf(s, f).data, rest);
    SetConnHandled(s, f, c);
    RequestCreditKeeps(s1, f);
    HandledTransitive(s, s1, RequestCredit(s1, f), f);
  }

  // ---- guest to host ----

  lemma MidSplit(a: seq<u8>, b: seq<u8>, c: seq<u8>, n: nat)
    requires n <= |b|
    ensures (a + b[..n]) + b[n..] + c == a + b + c
  {
  }

  lemma EndSplit(a: seq<u8>, b: seq<u8>, n: nat)
    requires n <= |b|
    ensures (a + b[..n]) + [] + b[n..] == a + [] + b
  {
  }

  lemma TakeOkKeeps(f: Flow, c: Conn, n: nat)
    requires GuestToHost(f, c) && n <= |c.okPending|
    ensures GuestToHost(f, TakeOk(c, n))
  {
    MidSplit(c.log.written, c.okPending, c.toHost, n);
  }

  lemma TakeToHostKeeps(f: Flow, c: Conn, n: nat)
    requires GuestToHost(f, c) && n <= |c.toHost| && c.okPending == []
    ensures GuestToHost(f, TakeToHost(c, n))
  {
    WrapAdd(Forwarded(c), n);
    EndSplit(c.log.written, c.toHost, n);
  }

  lemma TwoPrefixes(w: seq<u8>, b: seq<u8>, k: nat, m: nat)
    requires k + m <= |b|
    ensures (w + b[..k]) + b[k..][..m] == w + b[..k + m] && b[k..][m..] == b[k + m..]
  {
  }

  lemma TakeOkNone(c: Conn)
    ensures TakeOk(c, 0) == c
  {
    assert c.log.written + c.okPending[..0] == c.log.written;
    assert c.okPending[0..] == c.okPending;
  }

  lemma TakeToHostNone(c: Conn)
    ensures TakeToHost(c, 0) == c
  {
    assert c.log.written + c.toHost[..0] == c.log.written;
    assert c.toHost[0..] == c.toHost;
  }

  lemma TakeOkTwice(c: Conn, k: nat, m: nat)
    requires k + m <= |c.okPending|
    ensures TakeOk(TakeOk(c, k), m) == TakeOk(c, k + m)
  {
    TwoPrefixes(c.log.written, c.okPending, k, m);
  }

  lemma TakeToHostTwice(c: Conn, k: nat, m: nat)
    requires k + m <= |c.toHost|
    ensures TakeToHost(TakeToHost(c, k), m) == TakeToHost(c, k + m)
  {
    TwoPrefixes(c.log.written, c.toHost, k, m);
    WrapAdd(c.fwdCnt + k, m);
  }

  /** Under any schedule `flush_ok` takes some prefix of the pending line, all of it exactly on success. */
  lemma {:induction false} FlushOkTakes(c: Conn, sends: seq<Send>) returns (n: nat)
    ensures n <= |c.okPending| && FlushOk(c, sends).conn == TakeOk(c, n)
    ensures FlushOk(c, sends).ok <==> n == |c.okPending|
    decreases |sends|
  {
    if c.okPending == [] || sends == [] || sends[0].Refused? || sends[0].n == 0 {
      n := 0;
      TakeOkNone(c);
    } else {
      var k := Min(sends[0].n, |c.okPending|);
      var m := FlushOkTakes(TakeOk(c, k), sends[1..]);
      n := k + m;
      TakeOkTwice(c, k, m);
    }
  }

  /** Likewise for `flush_to_host`; the forward counter advances by exactly what was taken. */
  lemma {:induction false} FlushToHostTakes(c: Conn, sends: seq<Send>) returns (n: nat)
    ensures n <= |c.toHost| && FlushToHost(c, sends).conn == TakeToHost(c, n)
    ensures FlushToHost(c, sends).ok <==> n == |c.toHost|
    decreases |sends|
  {
    if c.toHost == [] || sends == [] || sends[0].Refused? || sends[0].n == 0 {
      n := 0;
      TakeToHostNone(c);
    } else {
      var k := Min(sends[0].n, |c.toHost|);
      var m := FlushToHostTakes(TakeToHost(c, k), sends[1..]);
      n := k + m;
      TakeToHostTwice(c, k, m);
    }
  }

  lemma TakeOkConn(f: Flow, c: Conn, n: nat, ctrl: seq<OutPkt>, data: seq<OutPkt>)
    requires ConnInv(f, c, ctrl, data) && n <= |c.okPending|
    ensures ConnInv(f, TakeOk(c, n), ctrl, data) && Later(c, TakeOk(c, n))
  {
    TakeOkKeeps(f, c, n);
    TakeOkNone(c);
  }

  lemma TakeToHostConn(f: Flow, c: Conn, n: nat, ctrl: seq<OutPkt>, data: seq<OutPkt>)
    requires ConnInv(f, c, ctrl, data) && n <= |c.toHost| && c.okPending == []
    ensures ConnInv(f, TakeToHost(c, n), ctrl, data) && Later(c, TakeToHost(c, n))
  {
    TakeToHostKeeps(f, c, n);
    TakeToHostNone(c);
  }

  lemma FlushBothKeeps(f: Flow, c: Conn, sends: seq<Send>, ctrl: seq<OutPkt>, data: seq<OutPkt>)
    requires ConnInv(f, c, ctrl, data)
    ensures var r := FlushBoth(c, sends);
            && ConnInv(f, r.conn, ctrl, data) && Later(c, r.conn)
            && (r.ok ==> r.conn.okPending == r.conn.toHost == [])
  {
    var n := FlushOkTakes(c, sends);
    TakeOkConn(f, c, n, ctrl, data);
    var r := FlushOk(c, sends);
    if r.ok {
      var m := FlushToHostTakes(r.conn, r.rest);
      TakeToHostConn(f, r.conn, m, ctrl, data);
      LaterTransitive(c, r.conn, TakeToHost(r.conn, m));
    }
  }

  lemma FlushConnKeeps(s: State, f: Flow, sends: seq<Send>, now: nat)
    requires CoreInv(f, ViewOf(s, f))
    ensures Handled(s, FlushConn(s, f, sends, now), f)
    ensures FlowInv(f, ViewOf(FlushConn(s, f, sends, now), f))
  {
    if f in s.conns {
      var v := ViewOf(s, f);
      FlushBothKeeps(f, s.conns[f], sends, v.ctrl, v.data);
      var r := FlushBoth(s.conns[f], sends);
      SetConnHandled(s, f, r.conn);
      if !r.ok {
        MarkLocalShutKeeps(SetConn(s, f, r.conn), f, true, true, now);
        HandledTransitive(s, SetConn(s, f, r.conn), FlushConn(s, f, sends, now), f);
      } else {
        FlushedConnKeeps(s, f, r.conn);
      }
    }
  }

  lemma ShutWriteKeeps(f: Flow, c: Conn, ctrl: seq<OutPkt>, data: seq<OutPkt>)
    requires ConnInv(f, c, ctrl, data) && c.okPending == []
    ensures var c1 := ShutWrite(c).(prefetched := []);
            ConnInv(f, c1, ctrl, data) && Later(c, c1)
  {
    ShutWriteStreams(f, c, data);
    ShutWriteAnnounced(c, ctrl);
    ShutWriteHandshake(c, ctrl, data);
    ShutWriteShuts(f, c, ctrl, data);
  }

  lemma ShutWriteStreams(f: Flow, c: Conn, data: seq<OutPkt>)
    requires HostToGuest(c, data) && GuestToHost(f, c)
    ensures var c1 := ShutWrite(c).(prefetched := []); HostToGuest(c1, data) && GuestToHost(f, c1)
  {
  }

  lemma ShutWriteAnnounced(c: Conn, ctrl: seq<OutPkt>)
    requires Announced(c, ctrl) && Deadline(c, ctrl)
    ensures var c1 := ShutWrite(c).(prefetched := []); Announced(c1, ctrl) && Deadline(c1, ctrl)
  {
  }

  lemma ShutWriteHandshake(c: Conn, ctrl: seq<OutPkt>, data: seq<OutPkt>)
    requires Handshake(c, ctrl, data)
    ensures Handshake(ShutWrite(c).(prefetched := []), ctrl, data)
  {
  }

  lemma ShutWriteShuts(f: Flow, c: Conn, ctrl: seq<OutPkt>, data: seq<OutPkt>)
    requires HalfClose(c, ctrl) && Handshake(c, ctrl, data) && c.okPending == []
    ensures var c1 := ShutWrite(c).(prefetched := []); HalfClose(c1, ctrl) && Later(c, c1)
  {
  }

  /** The tail of `flush_conn` once everything is written. */
  lemma FlushedConnKeeps(s: State, f: Flow, c: Conn)
    requires f in s.conns && CoreInv(f, ViewOf(s, f)) && Later(s.conns[f], c)
    requires ConnInv(f, c, ViewOf(s, f).ctrl, ViewOf(s, f).data) && c.okPending == c.toHost == []
    ensures var c1 := ShutWrite(c);
            var s' := MaybeCredit(Ingest(SetConn(s, f, c1.(prefetched := [])), f, c1.prefetched), f);
            Handled(s, s', f) && FlowInv(f, ViewOf(s', f))
  {
    var c1 := ShutWrite(c);
    var c2 := c1.(prefetched := []);
    var s1 := SetConn(s, f, c2);
    ShutWriteKeeps(f, c, ViewOf(s, f).ctrl, ViewOf(s, f).data);
    LaterTransitive(s.conns[f], c, c2);
    SetConnHandled(s, f, c2);
    IngestKeeps(s1, f, c1.prefetched);
    var s2 := Ingest(s1, f, c1.prefetched);
    HandledTransitive(s, s1, s2, f);
    MaybeCreditKeeps(s2, f);
    HandledTransitive(s, s2, MaybeCredit(s2, f), f);
  }

  lemma SetThenFlush(s: State, f: Flow, c: Conn, sends: seq<Send>, now: nat)
    requires f in s.conns && CoreInv(f, ViewOf(s, f)) && Later(s.conns[f], c)
    requires ConnInv(f, c, ViewOf(s, f).ctrl, ViewOf(s, f).data)
    ensures var s' := FlushConn(SetConn(s, f, c), f, sends, now); Handled(s, s', f) && FlowInv(f, ViewOf(s', f))
  {
    SetConnHandled(s, f, c);
    FlushConnKeeps(SetConn(s, f, c), f, sends, now);
    HandledTransitive(s, SetConn(s, f, c), FlushConn(SetConn(s, f, c), f, sends, now), f);
  }

  // ---- guest packets ----

  lemma OnResponseKeeps(s: State, f: Flow, sends: seq<Send>, now: nat)
    requires FlowInv(f, ViewOf(s, f))
    ensures Handled(s, OnResponse(s, f, sends, now), f)
    ensures FlowInv(f, ViewOf(OnResponse(s, f, sends, now), f))
  {
    if f in s.conns && s.conns[f].phase == WaitGuest {
      AnsweredKeeps(f, s.conns[f], ViewOf(s, f).ctrl, ViewOf(s, f).data);
      SetThenFlush(s, f, Answered(f, s.conns[f]), sends, now);
    }
  }

  lemma AnsweredKeeps(f: Flow, c: Conn, ctrl: seq<OutPkt>, data: seq<OutPkt>)
    requires ConnInv(f, c, ctrl, data) && c.phase == WaitGuest
    ensures Later(c, Answered(f, c)) && ConnInv(f, Answered(f, c), ctrl, data)
  {
    var c1 := Answered(f, c);
    assert c1.log.written + c1.okPending + c1.toHost == c1.log.okLine + c1.log.accepted;
  }

  lemma OnShutdownKeeps(s: State, f: Flow, flags: u32, sends: seq<Send>, now: nat)
    requires FlowInv(f, ViewOf(s, f))
    ensures Handled(s, OnShutdown(s, f, flags, sends, now), f)
    ensures FlowInv(f, ViewOf(OnShutdown(s, f, flags, sends, now), f))
  {
    if f in s.conns {
      var c := s.conns[f];
      PeerShutKeeps(f, c, ViewOf(s, f).ctrl, ViewOf(s, f).data, flags);
      SetThenFlush(s, f, PeerShut(c, flags), sends, now);
    }
  }

  lemma PeerShutKeeps(f: Flow, c: Conn, ctrl: seq<OutPkt>, data: seq<OutPkt>, flags: u32)
    requires ConnInv(f, c, ctrl, data)
    ensures ConnInv(f, PeerShut(c, flags), ctrl, data) && Later(c, PeerShut(c, flags))
  {
  }

  /** `local_free` is the exact room left, so a packet that fits keeps the buffer within BUF_ALLOC. */
  lemma LocalFreeExact(f: Flow, c: Conn)
    requires GuestToHost(f, c)
    ensures Sub32(c.received, c.fwdCnt) == |c.toHost|
    ensures LocalFree(c) == BUF_ALLOC - |c.toHost|
  {
    WrapSub(|c.log.accepted|, Forwarded(c));
  }

  lemma TakeRwKeeps(f: Flow, c: Conn, data: seq<u8>)
    requires GuestToHost(f, c) && |data| <= LocalFree(c)
    ensures GuestToHost(f, TakeRw(c, data))
  {
    LocalFreeExact(f, c);
    WrapAdd(|c.log.accepted|, |data|);
    Assoc(c.log.written + c.okPending, c.toHost, data);
    Assoc(c.log.okLine, c.log.accepted, data);
  }

  lemma OnRwKeeps(s: State, f: Flow, data: seq<u8>, sends: seq<Send>, now: nat)
    requires FlowInv(f, ViewOf(s, f)) && |data| <= MAX_PAYLOAD
    ensures Handled(s, OnRw(s, f, data, sends, now), f)
    ensures FlowInv(f, ViewOf(OnRw(s, f, data, sends, now), f))
  {
    if data != [] && f in s.conns && AcceptsRw(s.conns[f]) {
      if Wrap(|data|) > LocalFree(s.conns[f]) {
        DropConnKeeps(s, f, true);
      } else {
        TakeRwConn(f, s.conns[f], data, ViewOf(s, f).ctrl, ViewOf(s, f).data);
        SetThenFlush(s, f, TakeRw(s.conns[f], data), sends, now);
      }
    }
  }

  lemma TakeRwConn(f: Flow, c: Conn, bytes: seq<u8>, ctrl: seq<OutPkt>, data: seq<OutPkt>)
    requires ConnInv(f, c, ctrl, data) && AcceptsRw(c) && |bytes| <= LocalFree(c)
    ensures Later(c, TakeRw(c, bytes)) && ConnInv(f, TakeRw(c, bytes), ctrl, data)
  {
    TakeRwKeeps(f, c, bytes);
  }

  lemma NoteCreditKeeps(c: Conn, hdr: Header, data: seq<OutPkt>)
    requires HostToGuest(c, data)
    ensures HostToGuest(NoteCredit(c, hdr), data)
    ensures Later(c, NoteCredit(c, hdr))
  {
    var d := Sub32(hdr.fwdCnt, c.peerFwdCnt);
    WrapAdd(c.log.guestFwd, d);
  }

  lemma OnGuestRequestKeeps(s: State, f: Flow, hdr: Header, host: Host)
    requires FlowInv(f, ViewOf(s, f))
    ensures Handled(s, OnGuestRequest(s, f, hdr, host), f)
    ensures FlowInv(f, ViewOf(OnGuestRequest(s, f, hdr, host), f))
  {
    if f in s.conns {
      DropConnKeeps(s, f, true);
    } else if hdr.len != 0 || host.connect == Fail {
      EnqueueRstKeeps(s, f);
    } else {
      OpenGuestConnKeeps(s, f, hdr, host);
    }
  }

  lemma OpenGuestConnKeeps(s: State, f: Flow, hdr: Header, host: Host)
    requires CoreInv(f, ViewOf(s, f)) && f !in s.conns && hdr.len == 0 && host.connect != Fail
    ensures Handled(s, OnGuestRequest(s, f, hdr, host), f)
    ensures FlowInv(f, ViewOf(OnGuestRequest(s, f, hdr, host), f))
  {
    var c := GuestConn(s.nextId, hdr, host);
    GuestConnFresh(f, s.nextId, hdr, host);
    NewConnKeeps(f, c, ViewOf(s, f).ctrl);
    InsertConn(s, f, c, if host.connect == Done then Some(Ctrl(f, OP_RESPONSE, 0)) else None);
  }

  lemma GuestConnFresh(f: Flow, id: nat, hdr: Header, host: Host)
    ensures var c := GuestConn(id, hdr, host);
            Fresh(f, c) && c.log.id == id && !c.log.hostInit && (c.connecting <==> host.connect != Done)
  {
  }

  /** A connection with nothing in it yet starts out within the invariant. */
  predicate Fresh(f: Flow, c: Conn) {
    && c.bufAlloc == BUF_ALLOC && |c.prefetched| <= MAX_PREFETCH
    && c.sentToGuest == c.received == c.fwdCnt == c.lastFwdSent == 0
    && c.toHost == c.okPending == [] && c.log.queued == c.log.delivered == c.log.accepted == c.log.written == []
    && c.log.announced == c.log.covered == c.log.shutWr == 0
    && c.log.requestOut == c.log.responseOut == c.log.rwOut == c.log.sendBits == c.log.recvBits == c.log.said == 0
    && !c.localShutSend && !c.localShutRecv && !c.hostWriteShut && !c.log.connectedSince
    && c.peerFwdCnt == c.log.guestFwd && (c.log.honest ==> c.peerFwdCnt == 0)
    && c.log.okLine == []
    && (c.log.hostInit <==> c.phase == WaitGuest)
    && (c.expiry.Some? <==> c.phase == WaitGuest || c.connecting)
    && (c.connecting ==> c.phase == Established)
  }

  lemma NewConnKeeps(f: Flow, c: Conn, ctrl: seq<OutPkt>)
    requires QueueInv(f, ctrl, []) && Orphan(ctrl, []) && Fresh(f, c)
    ensures c.connecting ==> FlowInv(f, View(Some(c), ctrl, []))
    ensures !c.connecting ==>
              FlowInv(f, View(Some(c), ctrl + [Ctrl(f, if c.log.hostInit then OP_REQUEST else OP_RESPONSE, 0)], []))
  {
    CountRstOnly(ctrl);
    CountPush(ctrl, Ctrl(f, if c.log.hostInit then OP_REQUEST else OP_RESPONSE, 0));
    assert c.log.delivered + Payload([]) == [];
    assert c.log.written + c.okPending + c.toHost == [] == c.log.okLine + c.log.accepted;
  }

  /** Adding a connection numbered `nextId`, with or without a control packet for it. */
  lemma InsertConn(s: State, f: Flow, c: Conn, p: Option<OutPkt>)
    requires f !in s.conns && c.log.id == s.nextId && !c.log.hostInit
    requires p.Some? ==> p.value.flow == f && p.value.op != OP_RW
    ensures var s1 := SetConn(s.(nextId := s.nextId + 1), f, c);
            var s2 := if p.Some? then Enqueue(s1, p.value) else s1;
            && Handled(s, s2, f)
            && ViewOf(s2, f) == View(Some(c), ViewOf(s, f).ctrl + (if p.Some? then [p.value] else []), ViewOf(s, f).data)
  {
    var s1 := SetConn(s.(nextId := s.nextId + 1), f, c);
    assert Handled(s, s1, f);
    if p.Some? {
      EnqueueView(s1, p.value);
      forall g | g != f ensures ViewOf(Enqueue(s1, p.value), g) == ViewOf(s, g) {
        assert ViewOf(s1, g) == ViewOf(s, g);
      }
    } else {
      assert ViewOf(s, f).ctrl + [] == ViewOf(s, f).ctrl;
    }
  }

  lemma {:induction false} CountRstOnly(q: seq<OutPkt>)
    requires forall i :: 0 <= i < |q| ==> q[i].op == OP_RST
    ensures forall op: u16 :: op != OP_RST ==> CountOp(q, op) == 0
    ensures CountSend(q) == CountRecv(q) == 0
  {
    if q != [] {
      CountRstOnly(q[1..]);
    }
  }

  lemma HandleGuestPktKeeps(s: State, hdr: Header, data: seq<u8>, host: Host)
    requires FlowInv(HdrFlow(hdr), ViewOf(s, HdrFlow(hdr)))
    ensures Handled(s, HandleGuestPkt(s, hdr, data, host), HdrFlow(hdr))
    ensures FlowInv(HdrFlow(hdr), ViewOf(HandleGuestPkt(s, hdr, data, host), HdrFlow(hdr)))
  {
    var f := HdrFlow(hdr);
    var s' := HandleGuestPkt(s, hdr, data, host);
    if hdr.srcCid != s.guestCid || hdr.dstCid != HOST_CID {
    } else if hdr.kind == TYPE_STREAM && hdr.op == OP_REQUEST {
      OnGuestRequestKeeps(s, f, hdr, host);
    } else if hdr.kind != TYPE_STREAM || f !in s.conns {
      EnqueueRstKeeps(s, f);
    } else {
      var s1 := SetConn(s, f, NoteCredit(s.conns[f], hdr));
      NotedFlow(s, f, hdr);
      DispatchKeeps(s1, f, hdr, data, host);
      HandledTransitive(s, s1, s', f);
    }
  }

  lemma NotedFlow(s: State, f: Flow, hdr: Header)
    requires f in s.conns && FlowInv(f, ViewOf(s, f))
    ensures var s1 := SetConn(s, f, NoteCredit(s.conns[f], hdr)); Handled(s, s1, f) && FlowInv(f, ViewOf(s1, f))
  {
    var c := NoteCredit(s.conns[f], hdr);
    NoteCreditKeeps(s.conns[f], hdr, ViewOf(s, f).data);
    SetConnHandled(s, f, c);
  }

  lemma DispatchKeeps(s: State, f: Flow, hdr: Header, data: seq<u8>, host: Host)
    requires f in s.conns && FlowInv(f, ViewOf(s, f))
    ensures var s' := Dispatch(s, f, hdr, data, host); Handled(s, s', f) && FlowInv(f, ViewOf(s', f))
  {
    if hdr.op == OP_RESPONSE {
      OnResponseKeeps(s, f, host.sends, host.now);
    } else if hdr.op == OP_RST {
      DropConnKeeps(s, f, false);
    } else if hdr.op == OP_SHUTDOWN {
      OnShutdownKeeps(s, f, hdr.flags, host.sends, host.now);
    } else if hdr.op == OP_RW {
      if |data| > MAX_PAYLOAD {
        DropConnKeeps(s, f, true);
      } else {
        OnRwKeeps(s, f, data, host.sends, host.now);
      }
    } else if hdr.op == OP_CREDIT_REQUEST {
      EnqueueCreditKeeps(s, f);
    }
  }

  // ---- host sockets ----

  lemma OnHostEofKeeps(s: State, f: Flow, now: nat)
    requires FlowInv(f, ViewOf(s, f))
    ensures Handled(s, OnHostEof(s, f, now), f)
    ensures FlowInv(f, ViewOf(OnHostEof(s, f, now), f))
  {
    DropConnKeeps(s, f, true);
    MarkLocalShutKeeps(s, f, false, true, now);
  }

  lemma ReadConnKeeps(s: State, f: Flow, read: Read, now: nat)
    requires FlowInv(f, ViewOf(s, f))
    ensures Handled(s, ReadConn(s, f, read, now), f)
    ensures FlowInv(f, ViewOf(ReadConn(s, f, read, now), f))
  {
    OnHostEofKeeps(s, f, now);
    MarkLocalShutKeeps(s, f, true, true, now);
    if read.Bytes? {
      IngestKeeps(s, f, read.data[..Min(|read.data|, MAX_CHUNK)]);
    }
  }

  lemma FinishConnectKeeps(s: State, f: Flow, ok: bool)
    requires FlowInv(f, ViewOf(s, f)) && f in s.conns && s.conns[f].connecting
    ensures Handled(s, FinishConnect(s, f, ok), f)
    ensures FlowInv(f, ViewOf(FinishConnect(s, f, ok), f))
  {
    if ok {
      ConnectDoneKeeps(f, s.conns[f], ViewOf(s, f).ctrl, ViewOf(s, f).data);
      SetAndEnqueue(s, f, ConnectDone(s.conns[f]), Ctrl(f, OP_RESPONSE, 0));
    } else {
      DropConnKeeps(s, f, true);
    }
  }

  lemma ConnectDoneKeeps(f: Flow, c: Conn, ctrl: seq<OutPkt>, data: seq<OutPkt>)
    requires FlowInv(f, View(Some(c), ctrl, data)) && c.connecting
    ensures Later(c, ConnectDone(c))
    ensures FlowInv(f, View(Some(ConnectDone(c)), ctrl + [Ctrl(f, OP_RESPONSE, 0)], data))
  {
    CountPush(ctrl, Ctrl(f, OP_RESPONSE, 0));
  }

  lemma OnConnFdKeeps(s: State, f: Flow, r: Ready)
    requires FlowInv(f, ViewOf(s, f))
    ensures Handled(s, OnConnFd(s, f, r), f)
    ensures FlowInv(f, ViewOf(OnConnFd(s, f, r), f))
  {
    if f in s.conns {
      ReadConnKeeps(s, f, r.read, r.now);
      var s1 := if r.readable then ReadConn(s, f, r.read, r.now) else s;
      if f in s1.conns && r.writable {
        if s1.conns[f].connecting {
          FinishConnectKeeps(s1, f, r.connectOk);
        } else {
          FlushConnKeeps(s1, f, r.sends, r.now);
        }
        HandledTransitive(s, s1, OnConnFd(s, f, r), f);
      }
    }
  }
}
