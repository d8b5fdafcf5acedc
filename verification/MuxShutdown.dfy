/** Half-close: what is announced, what reaches the host socket around SHUT_WR, and who is under a deadline. */
module MuxShutdown {
  import opened Machine
  import opened Wire
  import opened MuxSpec
  import opened MuxQueues
  import opened MuxInvariant
  import opened MuxRuns
  import opened MuxTheorems
  import opened MuxEffects
  import opened MuxCredit
  import opened MuxFlush

  // ---- announcements and SHUT_WR ----

  predicate EndsWith(a: seq<u8>, b: seq<u8>) {
    |b| <= |a| && a[|a| - |b|..] == b
  }

  /**
   Each SHUTDOWN bit is announced at most once, queued and delivered packets together; a bit of the sending side
   goes unannounced only if the guest asked for it. SHUT_WR is issued at most once, with every guest byte
   already written and none accepted later.
   */
  lemma HalfCloseLaws(guestCid: u64, es: seq<Event>, f: Flow)
    requires f in Run(Init(guestCid), es).conns
    ensures var s := Run(Init(guestCid), es);
            var c := s.conns[f];
            && CountSend(OfFlow(s.outCtrl, f)) + c.log.sendBits <= (if c.localShutSend then 1 else 0)
            && (c.localShutSend && !c.peerShutRecv ==> CountSend(OfFlow(s.outCtrl, f)) + c.log.sendBits == 1)
            && CountRecv(OfFlow(s.outCtrl, f)) + c.log.recvBits == (if c.localShutRecv then 1 else 0)
            && c.log.shutWr == (if c.hostWriteShut then 1 else 0)
            && (c.hostWriteShut ==>
                  && c.peerShutSend && c.toHost == []
                  && EndsWith(c.log.written, c.log.accepted) && EndsWith(c.log.shutWrote, c.log.accepted))
  {
    Reachable(guestCid, es);
    var c := Run(Init(guestCid), es).conns[f];
    assert FlowInv(f, ViewOf(Run(Init(guestCid), es), f));
    if c.hostWriteShut {
      ShutWritten(f, c);
    }
  }

  lemma ShutWritten(f: Flow, c: Conn)
    requires GuestToHost(f, c) && c.toHost == [] && AfterShut(c)
    ensures EndsWith(c.log.written, c.log.accepted) && EndsWith(c.log.shutWrote, c.log.accepted)
    ensures c.log.shutEarly ==> c.log.written + c.okPending == c.log.okLine
  {
    assert c.log.written + c.okPending + c.toHost == c.log.written + c.okPending;
    if c.log.shutEarly {
      assert c.log.okLine + c.log.accepted == c.log.okLine;
    } else {
      assert c.log.written + c.okPending == c.log.written;
    }
  }

  // ---- a guest SHUTDOWN ----

  /** The fields on the host's side, which sending to the guest and announcing credit leave alone. */
  predicate SameSide(c: Conn, c': Conn) {
    && c'.peerShutSend == c.peerShutSend && c'.peerShutRecv == c.peerShutRecv && c'.localShutSend == c.localShutSend
    && c'.localShutRecv == c.localShutRecv && c'.hostWriteShut == c.hostWriteShut
    && c'.phase == c.phase && c'.connecting == c.connecting && c'.expiry == c.expiry
    && c'.okPending == c.okPending && c'.log.written == c.log.written && c'.log.shutEarly == c.log.shutEarly
    && c'.log.shutWrote == c.log.shutWrote
  }

  lemma IngestSide(s: State, f: Flow, data: seq<u8>)
    requires f in s.conns
    ensures f in Ingest(s, f, data).conns && SameSide(s.conns[f], Ingest(s, f, data).conns[f])
  {
    if data != [] {
      IngestConn(s, f, data, if CanSend(s.conns[f]) then Min(|data|, PeerAvail(s.conns[f])) else 0);
    }
  }

  lemma CreditSide(s: State, f: Flow)
    requires f in s.conns
    ensures f in MaybeCredit(s, f).conns && SameSide(s.conns[f], MaybeCredit(s, f).conns[f])
  {
    assert SameSide(s.conns[f], Announce(s.conns[f]));
    assert MaybeCredit(s, f).conns == s.conns || MaybeCredit(s, f).conns == s.conns[f := Announce(s.conns[f])];
  }

  /** A flush that gets everything out leaves the host's side as its loops and SHUT_WR left it. */
  lemma FlushDone(s: State, f: Flow, sends: seq<Send>, now: nat)
    requires f in s.conns && FlushBoth(s.conns[f], sends).ok
    ensures var s' := FlushConn(s, f, sends, now);
            f in s'.conns && SameSide(ShutWrite(FlushBoth(s.conns[f], sends).conn), s'.conns[f])
  {
    FlushBothSide(s.conns[f], sends);
    var c1 := ShutWrite(FlushBoth(s.conns[f], sends).conn);
    var s1 := SetConn(s, f, c1.(prefetched := []));
    IngestSide(s1, f, c1.prefetched);
    CreditSide(Ingest(s1, f, c1.prefetched), f);
  }

  lemma FlushBothSide(c: Conn, sends: seq<Send>)
    ensures var r := FlushBoth(c, sends);
            && SameSide(c, r.conn.(okPending := c.okPending, log := r.conn.log.(written := c.log.written)))
            && (r.ok ==> r.conn.toHost == [] && r.conn.okPending == [])
            && (c.okPending == [] && c.toHost == [] ==> r.ok && r.conn == c)
  {
    var n := FlushOkTakes(c, sends);
    var r := FlushOk(c, sends);
    if r.ok {
      var m := FlushToHostTakes(r.conn, r.rest);
    }
  }

  /** A flush that fails shuts both directions of an answered connection. */
  lemma FlushFailed(s: State, f: Flow, sends: seq<Send>, now: nat)
    requires f in s.conns && s.conns[f].phase == Established && !FlushBoth(s.conns[f], sends).ok
    ensures var s' := FlushConn(s, f, sends, now);
            && f in s'.conns && s'.conns[f].localShutRecv && s'.conns[f].localShutSend
            && s'.conns[f].peerShutSend == s.conns[f].peerShutSend && s'.conns[f].peerShutRecv == s.conns[f].peerShutRecv
  {
    FlushBothSide(s.conns[f], sends);
  }

  /**
   A guest SHUTDOWN, answered connection or not: its bits are recorded, a guest that stops receiving also stops the
   sending here, and once the guest is done sending and its bytes are out the host socket is shut for
   writing. It sets no deadline, unless the flush it starts fails.
   */
  lemma ShutdownRecorded(s: State, f: Flow, flags: u32, sends: seq<Send>, now: nat)
    requires Inv(s) && f in s.conns
    ensures var s' := OnShutdown(s, f, flags, sends, now);
            && f in s'.conns
            && var c, c' := s.conns[f], s'.conns[f];
               && (c'.peerShutSend <==> c.peerShutSend || flags / 2 % 2 == 1)
               && (c'.peerShutRecv <==> c.peerShutRecv || flags % 2 == 1)
               && (flags % 2 == 1 ==> c'.localShutSend && c'.log.queued == c.log.queued)
               && (flags / 2 % 2 == 1 && !c'.localShutRecv ==> c'.hostWriteShut)
               && (!c'.localShutRecv ==> c'.expiry == c.expiry)
  {
    var c1 := PeerShut(s.conns[f], flags);
    var s1 := SetConn(s, f, c1);
    assert FlowInv(f, ViewOf(s, f));
    FlushBothSide(c1, sends);
    if FlushBoth(c1, sends).ok {
      FlushDone(s1, f, sends, now);
    } else {
      FlushFailed(s1, f, sends, now);
    }
    if HasRecv(flags) {
      FlushQueuesNothing(s1, f, sends, now);
    }
  }

  lemma FlushQueuesNothing(s: State, f: Flow, sends: seq<Send>, now: nat)
    requires f in s.conns && s.conns[f].localShutSend && f in FlushConn(s, f, sends, now).conns
    ensures FlushConn(s, f, sends, now).conns[f].log.queued == s.conns[f].log.queued
  {
    var c := s.conns[f];
    var r := FlushBoth(c, sends);
    FlushBothShape(c, sends);
    FlushBothSide(c, sends);
    if r.ok {
      var s1 := SetConn(s, f, ShutWrite(r.conn).(prefetched := []));
      if c.prefetched != [] {
        IngestConn(s1, f, c.prefetched, 0);
        SendNothing(s1.conns[f], c.prefetched);
      }
      MaybeCreditConn(Ingest(s1, f, c.prefetched), f);
    } else {
      MarkShutConn(SetConn(s, f, r.conn), f, now);
    }
  }

  // ---- after SHUT_WR ----

  predicate AllRefused(sends: seq<Send>) {
    forall i :: 0 <= i < |sends| ==> sends[i].Refused?
  }

  /** The kernel's rule for the connection of `f`: a socket shut for writing refuses every send. */
  predicate Heeds(s: State, e: Event, f: Flow) {
    f in s.conns && s.conns[f].hostWriteShut && FlushOf(s, e, f).Some? ==> AllRefused(FlushOf(s, e, f).value.sends)
  }

  predicate HeedsRun(s: State, es: seq<Event>, f: Flow) {
    es == [] ||
    var k := |es| - 1;
    HeedsRun(s, es[..k], f) && Heeds(Run(s, es[..k]), es[k], f)
  }

  lemma RefusedFlush(c: Conn, sends: seq<Send>)
    requires AllRefused(sends)
    ensures var r := FlushBoth(c, sends); r.conn == c && (r.ok <==> c.okPending == [] && c.toHost == [])
  {
  }

  /** What a flush may do on the host's side: take bytes, then shut the socket; refused, it shuts both directions. */
  predicate FlushSide(c: Conn, c': Conn, refused: bool) {
    && c'.phase == c.phase
    && (c.localShutSend ==> c'.localShutSend) && (c.localShutRecv ==> c'.localShutRecv)
    && (c.hostWriteShut ==>
          c'.hostWriteShut && c'.log.shutWrote == c.log.shutWrote && c'.log.shutEarly == c.log.shutEarly)
    && (c.hostWriteShut && refused ==> c'.log.written == c.log.written)
    && (c.okPending != [] && refused ==>
          c'.localShutSend && c'.localShutRecv && c'.okPending == c.okPending && c'.log.written == c.log.written)
    && (!c.hostWriteShut && c'.hostWriteShut ==>
          c'.log.shutWrote == c'.log.written && (c'.log.shutEarly <==> c'.phase == WaitGuest))
  }

  lemma FlushHost(s: State, f: Flow, sends: seq<Send>, now: nat)
    requires f in s.conns && f in FlushConn(s, f, sends, now).conns
    ensures FlushSide(s.conns[f], FlushConn(s, f, sends, now).conns[f], AllRefused(sends))
  {
    var c := s.conns[f];
    FlushBothSide(c, sends);
    if AllRefused(sends) {
      RefusedFlush(c, sends);
    }
    if FlushBoth(c, sends).ok {
      FlushDone(s, f, sends, now);
    } else {
      FailedSide(SetConn(s, f, FlushBoth(c, sends).conn), f, now);
    }
  }

  lemma FailedSide(s: State, f: Flow, now: nat)
    requires f in s.conns && f in MarkLocalShut(s, f, true, true, now).conns
    ensures var c, c' := s.conns[f], MarkLocalShut(s, f, true, true, now).conns[f];
            && SameHost(c, c') && c'.phase == c.phase && c'.okPending == c.okPending
            && c'.localShutSend && c'.localShutRecv
  {
  }

  /** A step without a flush leaves the host's side alone. */
  lemma QuietHost(s: State, e: Event, f: Flow)
    requires Inv(s) && f in s.conns && FlushOf(s, e, f) == None && f in Step(s, e).conns
    ensures SameHost(s.conns[f], Step(s, e).conns[f]) && Step(s, e).conns[f].phase == s.conns[f].phase
  {
    if e.GuestTx? {
      if Speaks(s, e, f) {
        SpokenHost(s, e, f);
      } else {
        OtherTxSame(s, e, f);
      }
    } else if e.GuestRx? {
      RxHost(s, e.avail, f);
    } else if e.ConnReady? && e.flow == f {
      ConnFdHost(s, f, e.ready);
    } else {
      OtherEventView(s, e, f);
    }
  }

  lemma SpokenHost(s: State, e: Event, f: Flow)
    requires Speaks(s, e, f) && f in s.conns && FlushOf(s, e, f) == None && f in Step(s, e).conns
    ensures SameHost(s.conns[f], Step(s, e).conns[f]) && Step(s, e).conns[f].phase == s.conns[f].phase
  {
    SpokenStep(s, e, f);
    var s1 := SetConn(s, f, NoteCredit(s.conns[f], e.chain.hdr));
    DispatchQuiet(s1, f, e.chain.hdr, e.chain.data, e.host);
    CreditConn(s1, f);
  }

  lemma RxHost(s: State, avail: nat, f: Flow)
    requires f in s.conns
    ensures var s' := RxBuffer(s, avail);
            f in s'.conns && SameHost(s.conns[f], s'.conns[f]) && s'.conns[f].phase == s.conns[f].phase
  {
  }

  lemma ConnFdHost(s: State, f: Flow, r: Ready)
    requires f in s.conns && FlushOf(s, ConnReady(f, r), f) == None && f in OnConnFd(s, f, r).conns
    ensures SameHost(s.conns[f], OnConnFd(s, f, r).conns[f]) && OnConnFd(s, f, r).conns[f].phase == s.conns[f].phase
  {
    if r.readable {
      ReadSide(s, f, r.read, r.now);
    }
  }

  /** What the kernel's rule makes of a connection whose socket is shut for writing. */
  predicate ShutLaw(c: Conn) {
    c.hostWriteShut ==>
      && c.log.written == c.log.shutWrote
      && (c.log.shutEarly && c.phase == Established ==> c.localShutSend && c.localShutRecv)
  }

  lemma ShutLawStep(s: State, e: Event, f: Flow)
    requires Inv(s) && Heeds(s, e, f) && f in Step(s, e).conns && (f in s.conns ==> ShutLaw(s.conns[f]))
    ensures ShutLaw(Step(s, e).conns[f])
  {
    if f !in s.conns {
      Appears(s, e, f);
    } else {
      if FlushOf(s, e, f).Some? {
        var call := FlushOf(s, e, f).value;
        var t := FlushedStep(s, e, f);
        FlushHost(t, f, call.sends, call.now);
        AnsweredPending(s, e, f);
        FlushShutLaw(s.conns[f], call.conn, Step(s, e).conns[f], AllRefused(call.sends));
      } else {
        QuietHost(s, e, f);
      }
    }
  }

  /** In one step: before it, as the flush finds it, and after. */
  lemma FlushShutLaw(c: Conn, c1: Conn, c': Conn, refused: bool)
    requires ShutLaw(c) && SameHost(c, c1) && FlushSide(c1, c', refused)
    requires c.hostWriteShut ==> refused
    requires c.phase == WaitGuest && c1.phase == Established ==> c1.okPending != []
    ensures ShutLaw(c')
  {
  }

  lemma AnsweredPending(s: State, e: Event, f: Flow)
    requires Inv(s) && f in s.conns && FlushOf(s, e, f).Some?
    ensures s.conns[f].phase == WaitGuest && FlushOf(s, e, f).value.conn.phase == Established ==>
              FlushOf(s, e, f).value.conn.okPending == OkLine(f.hostPort) != []
  {
    if !Speaks(s, e, f) && e.ready.readable {
      ReadSide(s, f, e.ready.read, e.ready.now);
    }
  }

  lemma {:induction false} ShutLawRun(guestCid: u64, es: seq<Event>, f: Flow)
    requires HeedsRun(Init(guestCid), es, f)
    ensures var s := Run(Init(guestCid), es); f in s.conns ==> ShutLaw(s.conns[f])
  {
    if es != [] {
      var k := |es| - 1;
      var s := Run(Init(guestCid), es[..k]);
      ShutLawRun(guestCid, es[..k], f);
      Reachable(guestCid, es[..k]);
      if f in Step(s, es[k]).conns {
        ShutLawStep(s, es[k], f);
      }
    }
  }

  /**
   The host socket takes nothing after SHUT_WR: by the order of the code if SHUT_WR was issued after the handshake,
   and by the kernel's rule in every case. Issued while the guest had not answered, all that could
   follow is the OK line, and then it stays pending and both directions are shut.
   */
  lemma WrittenAfterShut(guestCid: u64, es: seq<Event>, f: Flow)
    requires f in Run(Init(guestCid), es).conns && Run(Init(guestCid), es).conns[f].hostWriteShut
    ensures var c := Run(Init(guestCid), es).conns[f];
            && (!c.log.shutEarly || HeedsRun(Init(guestCid), es, f) ==> c.log.written == c.log.shutWrote)
            && (c.log.shutEarly ==>
                  && c.log.hostInit && c.log.shutWrote == [] && c.log.accepted == []
                  && c.log.written + c.okPending == if c.phase == Established then OkLine(f.hostPort) else [])
            && (c.log.shutEarly && HeedsRun(Init(guestCid), es, f) && c.phase == Established ==>
                  c.okPending == OkLine(f.hostPort) && c.localShutSend && c.localShutRecv)
  {
    Reachable(guestCid, es);
    var s := Run(Init(guestCid), es);
    assert FlowInv(f, ViewOf(s, f));
    if HeedsRun(Init(guestCid), es, f) {
      ShutLawRun(guestCid, es, f);
    }
    WrittenConn(f, s.conns[f], HeedsRun(Init(guestCid), es, f));
  }

  lemma WrittenConn(f: Flow, c: Conn, heeds: bool)
    requires GuestToHost(f, c) && c.hostWriteShut && c.toHost == [] && AfterShut(c) && (heeds ==> ShutLaw(c))
    ensures !c.log.shutEarly || heeds ==> c.log.written == c.log.shutWrote
    ensures c.log.shutEarly ==>
              && c.log.hostInit && c.log.shutWrote == [] && c.log.accepted == []
              && c.log.written + c.okPending == if c.phase == Established then OkLine(f.hostPort) else []
    ensures c.log.shutEarly && heeds && c.phase == Established ==>
              c.okPending == OkLine(f.hostPort) && c.localShutSend && c.localShutRecv
  {
    ShutWritten(f, c);
    if c.log.shutEarly && heeds {
      assert c.log.written + c.okPending == c.okPending;
    }
  }

  /** Between two points of a run after SHUT_WR the host socket takes nothing. */
  lemma FrozenAfterShut(guestCid: u64, es: seq<Event>, more: seq<Event>, f: Flow)
    requires f in Run(Init(guestCid), es).conns && f in Run(Run(Init(guestCid), es), more).conns
    requires Run(Run(Init(guestCid), es), more).conns[f].log.id == Run(Init(guestCid), es).conns[f].log.id
    requires Run(Init(guestCid), es).conns[f].hostWriteShut
    ensures var c := Run(Init(guestCid), es).conns[f];
            var c' := Run(Run(Init(guestCid), es), more).conns[f];
            && c'.log.shutEarly == c.log.shutEarly
            && (!c.log.shutEarly || HeedsRun(Run(Init(guestCid), es), more, f) ==> c'.log.written == c.log.written)
            && (c.log.shutEarly ==> c'.log.written <= OkLine(f.hostPort))
  {
    Reachable(guestCid, es);
    var s := Run(Init(guestCid), es);
    RunKeeps(s, more);
    assert FlowInv(f, ViewOf(s, f));
    assert FlowInv(f, ViewOf(Run(s, more), f));
    FrozenConn(f, s.conns[f], Run(s, more).conns[f]);
    if HeedsRun(s, more, f) {
      HeededFrozen(s, more, f);
    }
  }

  lemma FrozenConn(f: Flow, c: Conn, c': Conn)
    requires Later(c, c') && c.hostWriteShut && AfterShut(c) && AfterShut(c') && c'.toHost == [] && GuestToHost(f, c')
    ensures c'.log.shutEarly == c.log.shutEarly
    ensures !c.log.shutEarly ==> c'.log.written == c.log.written
    ensures c.log.shutEarly ==> c'.log.written <= OkLine(f.hostPort)
  {
    ShutWritten(f, c');
  }

  lemma {:induction false} HeededFrozen(s: State, es: seq<Event>, f: Flow)
    requires Inv(s) && f in s.conns && s.conns[f].hostWriteShut && f in Run(s, es).conns
    requires Run(s, es).conns[f].log.id == s.conns[f].log.id && HeedsRun(s, es, f)
    ensures Run(s, es).conns[f].hostWriteShut && Run(s, es).conns[f].log.written == s.conns[f].log.written
  {
    if es != [] {
      var k := |es| - 1;
      var t := Run(s, es[..k]);
      RunKeeps(s, es[..k]);
      StepKeeps(t, es[k]);
      HeededFrozen(s, es[..k], f);
      StillFrozen(t, es[k], f);
    }
  }

  lemma StillFrozen(s: State, e: Event, f: Flow)
    requires Inv(s) && f in s.conns && s.conns[f].hostWriteShut && f in Step(s, e).conns && Heeds(s, e, f)
    ensures Step(s, e).conns[f].hostWriteShut && Step(s, e).conns[f].log.written == s.conns[f].log.written
  {
    if FlushOf(s, e, f).Some? {
      var call := FlushOf(s, e, f).value;
      var t := FlushedStep(s, e, f);
      FlushHost(t, f, call.sends, call.now);
    } else {
      QuietHost(s, e, f);
    }
  }

  /**
   A guest that says it is done sending before it answers: its answer finds the socket shut, the whole OK line stays
   pending and the connection is shut in both directions, under a deadline.
   */
  lemma AnsweredAfterShut(s: State, e: Event, f: Flow)
    requires Inv(s) && f in s.conns && s.conns[f].phase == WaitGuest && s.conns[f].hostWriteShut
    requires Speaks(s, e, f) && e.chain.hdr.op == OP_RESPONSE && Heeds(s, e, f)
    ensures var s' := Step(s, e);
            && f in s'.conns
            && var c' := s'.conns[f];
               && c'.phase == Established && c'.okPending == OkLine(f.hostPort) && c'.log.written == []
               && c'.localShutSend && c'.localShutRecv && c'.expiry == Some(e.host.now + SHUTDOWN_TIMEOUT)
               && c'.log.shutEarly == s.conns[f].log.shutEarly
  {
    WaitingNow(s, f);
    SpokenStep(s, e, f);
    HeedsAnswer(s, e, f);
    var s1 := SetConn(s, f, NoteCredit(s.conns[f], e.chain.hdr));
    RefusedAnswer(s1, f, e.host);
  }

  lemma HeedsAnswer(s: State, e: Event, f: Flow)
    requires f in s.conns && s.conns[f].phase == WaitGuest && s.conns[f].hostWriteShut
    requires Speaks(s, e, f) && e.chain.hdr.op == OP_RESPONSE && Heeds(s, e, f)
    ensures AllRefused(e.host.sends)
  {
  }

  lemma RefusedAnswer(s: State, f: Flow, host: Host)
    requires f in s.conns && s.conns[f].phase == WaitGuest && Waiting(s.conns[f]) && AllRefused(host.sends)
    ensures var s' := OnResponse(s, f, host.sends, host.now);
            && f in s'.conns
            && var c' := s'.conns[f];
               && c'.phase == Established && c'.okPending == OkLine(f.hostPort) && c'.log.written == []
               && c'.localShutSend && c'.localShutRecv && c'.expiry == Some(host.now + SHUTDOWN_TIMEOUT)
               && c'.log.shutEarly == s.conns[f].log.shutEarly
  {
    RefusedFlush(Answered(f, s.conns[f]), host.sends);
  }

  lemma WaitingNow(s: State, f: Flow)
    requires Inv(s) && f in s.conns && s.conns[f].phase == WaitGuest
    ensures Waiting(s.conns[f])
  {
    assert FlowInv(f, ViewOf(s, f));
  }

  // ---- deadlines ----

  /**
   Deadlines in every reachable state. Before any SHUTDOWN is announced exactly the waiting and the connecting have
   one; afterwards a connection has one if and only if no pending connect completed since the last
   announcement.
   */
  lemma DeadlineLaw(guestCid: u64, es: seq<Event>, f: Flow)
    requires f in Run(Init(guestCid), es).conns
    ensures var s := Run(Init(guestCid), es);
            var c := s.conns[f];
            if Bits(c, OfFlow(s.outCtrl, f)) > 0 then c.expiry.Some? <==> !c.log.connectedSince
            else c.expiry.Some? <==> c.phase == WaitGuest || c.connecting
  {
    Reachable(guestCid, es);
    assert FlowInv(f, ViewOf(Run(Init(guestCid), es), f));
  }

  /**
   A connection half-closed and connected lacks a deadline in two cases only: its connect completed after the last
   announcement, or nothing was announced because the guest itself stopped receiving.
   */
  lemma HalfClosedWithoutDeadline(guestCid: u64, es: seq<Event>, f: Flow)
    requires f in Run(Init(guestCid), es).conns
    requires var c := Run(Init(guestCid), es).conns[f];
             (c.localShutSend || c.localShutRecv) && c.phase == Established && !c.connecting
    ensures var s := Run(Init(guestCid), es);
            var c := s.conns[f];
            var announced := Bits(c, OfFlow(s.outCtrl, f)) > 0;
            && (c.expiry == None <==> (announced && c.log.connectedSince) || !announced)
            && (!announced ==> c.peerShutRecv && !c.localShutRecv)
  {
    Reachable(guestCid, es);
    assert FlowInv(f, ViewOf(Run(Init(guestCid), es), f));
  }

  /** What the history says: completing a pending connect sets the mark, an announcement clears it, nothing else does. */
  lemma SinceLastAnnouncement(s: State, e: Event, f: Flow)
    requires Inv(s) && f in s.conns && f in Step(s, e).conns
    ensures var c, c' := s.conns[f], Step(s, e).conns[f];
            if Connects(s, e, f) then c'.log.connectedSince else SinceAnnounced(c, c')
  {
    if !Speaks(s, e, f) {
      QuietSteady(s, e, f);
    } else {
      SpokenStep(s, e, f);
      var h := e.chain.hdr;
      if h.op != OP_REQUEST {
        var s1 := SetConn(s, f, NoteCredit(s.conns[f], h));
        if h.op != OP_RESPONSE {
          DispatchSettles(s1, f, h, e.chain.data, e.host);
        } else if s1.conns[f].phase == WaitGuest {
          FlushConnSettles(SetConn(s1, f, Answered(f, s1.conns[f])), f, e.host.sends, e.host.now);
        }
      }
    }
  }

  // ---- runs in which the expected fails ----

  function Hdr(guestCid: u64, f: Flow, op: u16, len: u32, flags: u32): Header {
    Header(guestCid, HOST_CID, f.guestPort, f.hostPort, len, TYPE_STREAM, op, flags, 4096, 0)
  }

  function Says(f: Flow, op: u16, flags: u32, sends: seq<Send>): Event {
    GuestTx(Packet(Hdr(3, f, op, 0, flags), []), Host(Done, sends, 0))
  }

  /** A host that connects: the socket, then its CONNECT line for guest port 5. */
  function HostConnects(): seq<Event> {
    [Accept, IncomingReady(0, Bytes(ConnectPrefix() + [53, 10]), 0)]
  }

  lemma HostWaits()
    ensures var s := Run(Init(3), HostConnects());
            var f := Flow(5, FIRST_PORT);
            && s.guestCid == 3 && f in s.conns && s.conns[f].phase == WaitGuest && !s.conns[f].hostWriteShut
            && HeedsRun(Init(3), HostConnects(), f)
  {
    WaitsHeeds(Flow(5, FIRST_PORT));
    var s1 := AcceptOne(Init(3));
    var data := ConnectPrefix() + [53, 10];
    TwoSteps(Init(3), Accept, IncomingReady(0, Bytes(data), 0));
    FirstAccepted(s1);
    LineOpens(s1);
    SameCid(s1, data);
    Appears(s1, IncomingReady(0, Bytes(data), 0), Flow(5, FIRST_PORT));
  }

  lemma WaitsHeeds(f: Flow)
    ensures HeedsRun(Init(3), HostConnects(), f)
  {
    var a, b := HostConnects()[0], HostConnects()[1];
    RunPush(Init(3), [], a);
    HeedsPush(Init(3), [], a, f);
    HeedsPush(Init(3), [a], b, f);
    assert [] + [a] == [a] && [a] + [b] == HostConnects();
  }

  lemma FirstAccepted(s: State)
    requires s == AcceptOne(Init(3))
    ensures Inv(s) && s.incoming == [[]] && s.conns == map[] && s.guestCid == 3 && s.nextHostPort == FIRST_PORT
  {
    InitInv(3);
    SameViews(Init(3), s);
  }

  lemma LineOpens(s: State)
    requires Inv(s) && s.incoming == [[]] && s.conns == map[] && s.nextHostPort == FIRST_PORT
    ensures var s' := ReadIncoming(s, 0, Bytes(ConnectPrefix() + [53, 10]), 0);
            var f := Flow(5, FIRST_PORT);
            f in s'.conns && s'.conns[f].phase == WaitGuest
  {
    var line := ConnectPrefix() + [53];
    assert 10 !in line;
    assert s.incoming[0] + (ConnectPrefix() + [53, 10]) == line + [10] + [];
    ConnectLineOpens(s, 0, Bytes(ConnectPrefix() + [53, 10]), 0, line, []);
    FivePort(line);
    FirstPort(s);
  }

  lemma FivePort(line: seq<u8>)
    requires line == ConnectPrefix() + [53]
    ensures ParseConnect(StripCr(line)) == Some(5)
  {
    assert line[..8] == ConnectPrefix() && line[8..] == [53];
    assert [53][..0] == [];
    assert DigitsValue([53]) == 5;
  }

  lemma FirstPort(s: State)
    requires s.nextHostPort == FIRST_PORT && s.conns == map[]
    ensures AllocPort(s.nextHostPort, HostPorts(s), PORT_TRIES).port == Some(FIRST_PORT)
  {
    assert HostPorts(s) == {};
  }

  lemma SameCid(s: State, data: seq<u8>)
    ensures ReadIncoming(s, 0, Bytes(data), 0).guestCid == s.guestCid
  {
  }

  function EarlyShutRun(): seq<Event> {
    var f := Flow(5, FIRST_PORT);
    HostConnects() + [Says(f, OP_SHUTDOWN, SHUTDOWN_SEND, []), Says(f, OP_RESPONSE, 0, [Refused])]
  }

  /**
   "A host whose connection the guest accepts reads its OK line" fails, on a kernel that keeps its rule: after this
   run the guest has accepted, no byte of the line is out and none will be.
   */
  lemma OkLineCanBeLost()
    ensures var f := Flow(5, FIRST_PORT);
            && HeedsRun(Init(3), EarlyShutRun(), f)
            && var s := Run(Init(3), EarlyShutRun());
               && f in s.conns && s.conns[f].phase == Established && s.conns[f].log.shutEarly
               && s.conns[f].okPending == OkLine(f.hostPort) && s.conns[f].log.written == []
               && s.conns[f].localShutSend && s.conns[f].localShutRecv
  {
    var f := Flow(5, FIRST_PORT);
    HostWaits();
    Reachable(3, HostConnects());
    EarlyThenAnswered(Run(Init(3), HostConnects()), f);
    RunPush2(Init(3), HostConnects(), EarlyShutRun()[2], EarlyShutRun()[3], f);
    assert HostConnects() + [EarlyShutRun()[2], EarlyShutRun()[3]] == EarlyShutRun();
  }

  lemma RunPush2(s: State, es: seq<Event>, a: Event, b: Event, f: Flow)
    ensures Run(s, es + [a, b]) == Step(Step(Run(s, es), a), b)
    ensures HeedsRun(s, es + [a, b], f) <==>
              HeedsRun(s, es, f) && Heeds(Run(s, es), a, f) && Heeds(Step(Run(s, es), a), b, f)
  {
    RunPush(s, es, a);
    RunPush(s, es + [a], b);
    HeedsPush(s, es, a, f);
    HeedsPush(s, es + [a], b, f);
    assert es + [a] + [b] == es + [a, b];
  }

  lemma EarlyThenAnswered(s: State, f: Flow)
    requires Inv(s) && s.guestCid == 3 && f in s.conns && s.conns[f].phase == WaitGuest && !s.conns[f].hostWriteShut
    ensures var a, b := Says(f, OP_SHUTDOWN, SHUTDOWN_SEND, []), Says(f, OP_RESPONSE, 0, [Refused]);
            var s' := Step(Step(s, a), b);
            && Heeds(s, a, f) && Heeds(Step(s, a), b, f)
            && f in s'.conns && s'.conns[f].phase == Established && s'.conns[f].log.shutEarly
            && s'.conns[f].okPending == OkLine(f.hostPort) && s'.conns[f].log.written == []
            && s'.conns[f].localShutSend && s'.conns[f].localShutRecv
  {
    var a := Says(f, OP_SHUTDOWN, SHUTDOWN_SEND, []);
    WaitingNow(s, f);
    EarlyShut(s, f);
    StepKeeps(s, a);
    EarlyAnswered(Step(s, a), f);
  }

  lemma EarlyShut(s: State, f: Flow)
    requires s.guestCid == 3 && f in s.conns && s.conns[f].phase == WaitGuest && Waiting(s.conns[f])
    requires !s.conns[f].hostWriteShut
    ensures var s' := Step(s, Says(f, OP_SHUTDOWN, SHUTDOWN_SEND, []));
            && s'.guestCid == 3 && f in s'.conns && s'.conns[f].phase == WaitGuest
            && s'.conns[f].hostWriteShut && s'.conns[f].log.shutEarly
  {
    var e := Says(f, OP_SHUTDOWN, SHUTDOWN_SEND, []);
    SpokenStep(s, e, f);
    DoneEarly(SetConn(s, f, NoteCredit(s.conns[f], e.chain.hdr)), f);
  }

  lemma DoneEarly(s: State, f: Flow)
    requires s.guestCid == 3 && f in s.conns && s.conns[f].phase == WaitGuest && !s.conns[f].hostWriteShut
    requires s.conns[f].okPending == s.conns[f].toHost == []
    ensures var s' := OnShutdown(s, f, SHUTDOWN_SEND, [], 0);
            && s'.guestCid == 3 && f in s'.conns && s'.conns[f].phase == WaitGuest
            && s'.conns[f].hostWriteShut && s'.conns[f].log.shutEarly
  {
    var c := PeerShut(s.conns[f], SHUTDOWN_SEND);
    FlushBothSide(c, []);
    FlushDone(SetConn(s, f, c), f, [], 0);
  }

  lemma EarlyAnswered(s: State, f: Flow)
    requires Inv(s) && s.guestCid == 3 && f in s.conns && s.conns[f].phase == WaitGuest && s.conns[f].hostWriteShut
    requires s.conns[f].log.shutEarly
    ensures var b := Says(f, OP_RESPONSE, 0, [Refused]);
            var s' := Step(s, b);
            && Heeds(s, b, f)
            && f in s'.conns && s'.conns[f].phase == Established && s'.conns[f].log.shutEarly
            && s'.conns[f].okPending == OkLine(f.hostPort) && s'.conns[f].log.written == []
            && s'.conns[f].localShutSend && s'.conns[f].localShutRecv
  {
    AnsweredAfterShut(s, Says(f, OP_RESPONSE, 0, [Refused]), f);
  }

  lemma HeedsPush(s: State, es: seq<Event>, e: Event, f: Flow)
    ensures HeedsRun(s, es + [e], f) <==> HeedsRun(s, es, f) && Heeds(Run(s, es), e, f)
  {
    assert (es + [e])[..|es|] == es;
  }

  /** A guest that sends data while its connect is pending, on a host that then refuses the data and connects. */
  function LostDeadlineRun(f: Flow): seq<Event> {
    [GuestTx(Packet(Hdr(3, f, OP_REQUEST, 0, 0), []), Host(Pending, [], 0)),
     GuestTx(Packet(Hdr(3, f, OP_RW, 1, 0), [7]), Host(Fail, [Refused], 0)),
     ConnReady(f, Ready(false, true, Again, true, [], 0))]
  }

  /** "Every half-closed connection has a deadline" fails: this run leaves one open without any. */
  lemma DeadlineCanBeLost(f: Flow)
    ensures var s := Run(Init(3), LostDeadlineRun(f));
            f in s.conns && s.conns[f].localShutRecv && s.conns[f].localShutSend && s.conns[f].expiry == None
  {
    var es := LostDeadlineRun(f);
    var s0 := Init(3);
    TwoSteps(s0, es[0], es[1]);
    RunPush(s0, [es[0], es[1]], es[2]);
    assert [es[0], es[1]] + [es[2]] == es;
    var s1 := Step(s0, es[0]);
    assert f in s1.conns && s1.conns[f].connecting && s1.conns[f].phase == Established;
    RefusedRw(SetConn(s1, f, NoteCredit(s1.conns[f], Hdr(3, f, OP_RW, 1, 0))), f);
  }

  lemma RefusedRw(s: State, f: Flow)
    requires f in s.conns && AcceptsRw(s.conns[f]) && s.conns[f].okPending == [] && s.conns[f].toHost == []
    requires s.conns[f].received == s.conns[f].fwdCnt == 0 && s.conns[f].bufAlloc == BUF_ALLOC
    ensures var s' := OnRw(s, f, [7], [Refused], 0);
            && f in s'.conns && s'.conns[f].localShutRecv && s'.conns[f].localShutSend
            && s'.conns[f].connecting == s.conns[f].connecting
  {
    var c := TakeRw(s.conns[f], [7]);
    assert c.toHost == [7];
    assert FlushOk(c, [Refused]) == Flushed(c, [Refused], true);
    assert !FlushToHost(c, [Refused]).ok && FlushToHost(c, [Refused]).conn == c;
  }

  /** And here no deadline was ever set: the guest connects and then stops receiving. */
  lemma GuestShutdownHasNoDeadline(f: Flow)
    ensures var s := Run(Init(3), [Says(f, OP_REQUEST, 0, []), Says(f, OP_SHUTDOWN, SHUTDOWN_RCV, [])]);
            f in s.conns && s.conns[f].localShutSend && s.conns[f].phase == Established && s.conns[f].expiry == None
  {
    var s0 := Init(3);
    var a, b := Says(f, OP_REQUEST, 0, []), Says(f, OP_SHUTDOWN, SHUTDOWN_RCV, []);
    TwoSteps(s0, a, b);
    var s1 := Step(s0, a);
    assert f in s1.conns && s1.conns[f] == GuestConn(0, a.chain.hdr, a.host) && s1.guestCid == 3;
    StopReceiving(s1, f);
  }

  lemma StopReceiving(s: State, f: Flow)
    requires s.guestCid == 3 && f in s.conns && s.conns[f].toHost == s.conns[f].okPending == []
    ensures var s' := Step(s, Says(f, OP_SHUTDOWN, SHUTDOWN_RCV, []));
            && f in s'.conns && s'.conns[f].localShutSend && s'.conns[f].phase == s.conns[f].phase
            && s'.conns[f].expiry == s.conns[f].expiry
  {
    var e := Says(f, OP_SHUTDOWN, SHUTDOWN_RCV, []);
    SpokenStep(s, e, f);
    var s1 := SetConn(s, f, NoteCredit(s.conns[f], e.chain.hdr));
    var c := PeerShut(s1.conns[f], SHUTDOWN_RCV);
    FlushBothSide(c, []);
    FlushDone(SetConn(s1, f, c), f, [], 0);
  }
}
