/** Steps that flush guest bytes to a host socket: which ones do, from which connection, and what they leave alone. */
module MuxFlush {
  import opened Machine
  import opened Wire
  import opened MuxSpec
  import opened MuxQueues
  import opened MuxInvariant
  import opened MuxRuns
  import opened MuxTheorems
  import opened MuxEffects
  import opened MuxCredit

  /** A call of `flush_conn`: the connection it finds and the send results it meets. */
  datatype FlushCall = FlushCall(conn: Conn, sends: seq<Send>, now: nat)

  /** The flush a guest packet on a live connection leads to. */
  function SpokenFlush(f: Flow, c: Conn, hdr: Header, data: seq<u8>, host: Host): Option<FlushCall> {
    if hdr.op == OP_RESPONSE && c.phase == WaitGuest then Some(FlushCall(Answered(f, c), host.sends, host.now))
    else if hdr.op == OP_SHUTDOWN then Some(FlushCall(PeerShut(c, hdr.flags), host.sends, host.now))
    else if hdr.op == OP_RW && data != [] && |data| <= MAX_PAYLOAD && AcceptsRw(c) && Wrap(|data|) <= LocalFree(c) then
      Some(FlushCall(TakeRw(c, data), host.sends, host.now))
    else None
  }

  /** The flush of the connection of `f` in this step, if there is one. */
  function FlushOf(s: State, e: Event, f: Flow): Option<FlushCall>
    requires f in s.conns
  {
    if Speaks(s, e, f) then
      SpokenFlush(f, NoteCredit(s.conns[f], e.chain.hdr), e.chain.hdr, e.chain.data, e.host)
    else if e.ConnReady? && e.flow == f && e.ready.writable then
      var t := AfterRead(s, f, e.ready);
      if f in t.conns && !t.conns[f].connecting then Some(FlushCall(t.conns[f], e.ready.sends, e.ready.now)) else None
    else None
  }

  function AfterRead(s: State, f: Flow, r: Ready): State {
    if r.readable then ReadConn(s, f, r.read, r.now) else s
  }

  /** What a step does to a connection before it flushes: nothing on the host's side. */
  predicate SameHost(c: Conn, c': Conn) {
    && c'.hostWriteShut == c.hostWriteShut && c'.log.written == c.log.written
    && c'.log.shutWrote == c.log.shutWrote && c'.log.shutEarly == c.log.shutEarly
    && (c.localShutSend ==> c'.localShutSend) && (c.localShutRecv ==> c'.localShutRecv)
  }

  /** `t` is where the flush `call` starts, in a step from `s`. */
  predicate FlushesFrom(s: State, t: State, f: Flow, call: FlushCall)
    requires f in s.conns
  {
    && f in t.conns && t.conns[f] == call.conn && CoreInv(f, ViewOf(t, f))
    && (Updating(OfFlow(t.outCtrl, f)) <==> Updating(OfFlow(s.outCtrl, f)))
    && SameHost(s.conns[f], call.conn)
  }

  /** A step that flushes is a flush, of a connection as `FlushOf` says. */
  lemma FlushedStep(s: State, e: Event, f: Flow) returns (t: State)
    requires Inv(s) && f in s.conns && FlushOf(s, e, f).Some?
    ensures var call := FlushOf(s, e, f).value;
            FlushesFrom(s, t, f, call) && Step(s, e) == FlushConn(t, f, call.sends, call.now)
  {
    assert FlowInv(f, ViewOf(s, f));
    if e.GuestTx? {
      SpokenStep(s, e, f);
      t := SpokenFlushed(s, f, e.chain.hdr, e.chain.data, e.host);
    } else {
      t := AfterRead(s, f, e.ready);
      ReadFlushed(s, f, e.ready);
      ConnFdFlushes(s, f, e.ready);
    }
  }

  lemma ConnFdFlushes(s: State, f: Flow, r: Ready)
    requires f in s.conns && r.writable && f in AfterRead(s, f, r).conns && !AfterRead(s, f, r).conns[f].connecting
    ensures Step(s, ConnReady(f, r)) == FlushConn(AfterRead(s, f, r), f, r.sends, r.now)
  {
  }

  lemma SpokenFlushed(s: State, f: Flow, hdr: Header, data: seq<u8>, host: Host) returns (t: State)
    requires f in s.conns && FlowInv(f, ViewOf(s, f))
    requires SpokenFlush(f, NoteCredit(s.conns[f], hdr), hdr, data, host).Some?
    ensures var call := SpokenFlush(f, NoteCredit(s.conns[f], hdr), hdr, data, host).value;
            && FlushesFrom(s, t, f, call)
            && Dispatch(SetConn(s, f, NoteCredit(s.conns[f], hdr)), f, hdr, data, host)
               == FlushConn(t, f, call.sends, call.now)
  {
    var c := NoteCredit(s.conns[f], hdr);
    var call := SpokenFlush(f, c, hdr, data, host).value;
    var s1 := SetConn(s, f, c);
    t := SetConn(s1, f, call.conn);
    NotedFlow(s, f, hdr);
    SpokenFlushInv(f, c, hdr, data, host, ViewOf(s, f).ctrl, ViewOf(s, f).data);
    SpokenFlushHost(f, c, hdr, data, host);
    NotedHost(s.conns[f], call.conn, hdr);
    SetView(s1, f, call.conn);
    DispatchFlushes(s1, f, hdr, data, host);
  }

  lemma SetView(s: State, f: Flow, c: Conn)
    requires f in s.conns
    ensures ViewOf(SetConn(s, f, c), f) == ViewOf(s, f).(conn := Some(c))
  {
  }

  lemma SpokenFlushHost(f: Flow, c: Conn, hdr: Header, data: seq<u8>, host: Host)
    requires SpokenFlush(f, c, hdr, data, host).Some?
    ensures SameHost(c, SpokenFlush(f, c, hdr, data, host).value.conn)
  {
    AnsweredHost(f, c);
    PeerShutHost(c, hdr.flags);
    TakeRwHost(c, data);
  }

  lemma AnsweredHost(f: Flow, c: Conn)
    ensures SameHost(c, Answered(f, c))
  {
  }

  lemma PeerShutHost(c: Conn, flags: u32)
    ensures SameHost(c, PeerShut(c, flags))
  {
  }

  lemma TakeRwHost(c: Conn, data: seq<u8>)
    ensures SameHost(c, TakeRw(c, data))
  {
  }

  lemma NotedHost(c: Conn, c': Conn, hdr: Header)
    requires SameHost(NoteCredit(c, hdr), c')
    ensures SameHost(c, c')
  {
  }

  lemma ReadFlushed(s: State, f: Flow, r: Ready)
    requires f in s.conns && FlowInv(f, ViewOf(s, f)) && f in AfterRead(s, f, r).conns
    ensures FlushesFrom(s, AfterRead(s, f, r), f, FlushCall(AfterRead(s, f, r).conns[f], r.sends, r.now))
  {
    ReadConnKeeps(s, f, r.read, r.now);
    if r.readable {
      ReadSide(s, f, r.read, r.now);
    }
  }

  lemma SpokenFlushInv(f: Flow, c: Conn, hdr: Header, data: seq<u8>, host: Host, ctrl: seq<OutPkt>, out: seq<OutPkt>)
    requires ConnInv(f, c, ctrl, out) && SpokenFlush(f, c, hdr, data, host).Some?
    ensures ConnInv(f, SpokenFlush(f, c, hdr, data, host).value.conn, ctrl, out)
  {
    if hdr.op == OP_RESPONSE {
      AnsweredKeeps(f, c, ctrl, out);
    } else if hdr.op == OP_SHUTDOWN {
      PeerShutKeeps(f, c, ctrl, out, hdr.flags);
    } else {
      TakeRwConn(f, c, data, ctrl, out);
    }
  }

  lemma DispatchFlushes(s: State, f: Flow, hdr: Header, data: seq<u8>, host: Host)
    requires f in s.conns && SpokenFlush(f, s.conns[f], hdr, data, host).Some?
    ensures var call := SpokenFlush(f, s.conns[f], hdr, data, host).value;
            Dispatch(s, f, hdr, data, host) == FlushConn(SetConn(s, f, call.conn), f, call.sends, call.now)
  {
  }

  /** A packet that starts no flush ends the connection, or does no more than queue a credit update. */
  lemma DispatchQuiet(s: State, f: Flow, hdr: Header, data: seq<u8>, host: Host)
    requires f in s.conns && SpokenFlush(f, s.conns[f], hdr, data, host) == None
    requires hdr.op != OP_REQUEST && f in Dispatch(s, f, hdr, data, host).conns
    ensures Dispatch(s, f, hdr, data, host) == if hdr.op == OP_CREDIT_REQUEST then EnqueueCredit(s, f) else s
  {
  }

  lemma CreditConn(s: State, f: Flow)
    requires f in s.conns
    ensures f in EnqueueCredit(s, f).conns
    ensures EnqueueCredit(s, f).conns[f] == s.conns[f] || EnqueueCredit(s, f).conns[f] == Announce(s.conns[f])
  {
  }

  /** What reading its socket leaves of a connection; a broken socket shuts both directions. */
  predicate ReadKeeps(c: Conn, c': Conn, broken: bool) {
    && SameHost(c, c') && c'.phase == c.phase && c'.connecting == c.connecting
    && (c'.localShutRecv <==> c.localShutRecv || broken)
  }

  lemma ReadSide(s: State, f: Flow, read: Read, now: nat)
    requires f in s.conns && f in ReadConn(s, f, read, now).conns
    ensures Calm(ViewOf(s, f), ViewOf(ReadConn(s, f, read, now), f))
    ensures ReadKeeps(s.conns[f], ReadConn(s, f, read, now).conns[f], read.Broken?)
  {
    if read.Bytes? && read.data != [] {
      IngestRead(s, f, read.data[..Min(|read.data|, MAX_CHUNK)]);
    } else if read.Broken? {
      MarkShutSide(s, f, true, now);
    } else if !read.Again? {
      MarkShutSide(s, f, false, now);
    }
  }

  lemma IngestRead(s: State, f: Flow, data: seq<u8>)
    requires f in s.conns && data != []
    ensures f in Ingest(s, f, data).conns && Calm(ViewOf(s, f), ViewOf(Ingest(s, f, data), f))
    ensures ReadKeeps(s.conns[f], Ingest(s, f, data).conns[f], false)
  {
    IngestCalm(s, f, data);
    IngestConn(s, f, data, if CanSend(s.conns[f]) then Min(|data|, PeerAvail(s.conns[f])) else 0);
  }

  lemma MarkShutSide(s: State, f: Flow, recv: bool, now: nat)
    requires f in s.conns && f in MarkLocalShut(s, f, recv, true, now).conns
    ensures Calm(ViewOf(s, f), ViewOf(MarkLocalShut(s, f, recv, true, now), f))
    ensures ReadKeeps(s.conns[f], MarkLocalShut(s, f, recv, true, now).conns[f], recv)
  {
    MarkShutCalm(s, f, recv, true, now);
  }
}
