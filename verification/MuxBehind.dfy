/**
 When credit announcements fall behind. `maybe_credit` compares 32-bit counters, so it misses an update exactly when
 the distance since the last announcement, taken modulo 2^32, is below the threshold; a connection
 falls behind exactly in a step that flushes it under that guard.
 */
module MuxBehind {
  import opened Machine
  import opened MuxSpec
  import opened MuxQueues
  import opened MuxInvariant
  import opened MuxRuns
  import opened MuxTheorems
  import opened MuxEffects
  import opened MuxCredit
  import opened MuxFlush

  /** An update is queued, or little is missing from the last header the guest saw. */
  predicate Near(c: Conn, ctrl: seq<OutPkt>) {
    Updating(ctrl) || Forwarded(c) - c.log.covered < Threshold(c)
  }

  /** A connection still receiving whose guest is about to learn nothing of a quarter of its buffer. */
  predicate Behind(v: View) {
    v.conn.Some? && !v.conn.value.localShutRecv && !Near(v.conn.value, v.ctrl)
  }

  /** The 32-bit distance `maybe_credit` looks at, once `n` bytes are forwarded. */
  function Distance(c: Conn, n: nat): nat
    requires c.log.announced <= n
  {
    (n - c.log.announced) % M32
  }

  // ---- maybe_credit ----

  lemma DistanceShown(f: Flow, c: Conn, ctrl: seq<OutPkt>)
    requires GuestToHost(f, c) && Announced(c, ctrl)
    ensures Sub32(c.fwdCnt, c.lastFwdSent) == Distance(c, Forwarded(c))
  {
    WrapSub(Forwarded(c), c.log.announced);
  }

  lemma CreditQueued(s: State, f: Flow)
    requires f in s.conns
    ensures var s' := EnqueueCredit(s, f);
            Updating(OfFlow(s'.outCtrl, f)) && f in s'.conns && s'.conns[f].localShutRecv == s.conns[f].localShutRecv
  {
    var p := Ctrl(f, OP_CREDIT_UPDATE, 0);
    QueuedIsCount(s.outCtrl, f, OP_CREDIT_UPDATE);
    if !Queued(s.outCtrl, f, OP_CREDIT_UPDATE) {
      EnqueueView(SetConn(s, f, Announce(s.conns[f])), p);
      CountPush(OfFlow(s.outCtrl, f), p);
    }
  }

  /** After `maybe_credit` the guest is kept near if and only if it was before, or the 32-bit distance shows it is not. */
  lemma MaybeCreditExact(s: State, f: Flow)
    requires f in s.conns && GuestToHost(f, s.conns[f]) && Announced(s.conns[f], OfFlow(s.outCtrl, f))
    ensures var s' := MaybeCredit(s, f);
            && f in s'.conns && s'.conns[f].localShutRecv == s.conns[f].localShutRecv
            && (Near(s'.conns[f], OfFlow(s'.outCtrl, f)) <==>
                  || Near(s.conns[f], OfFlow(s.outCtrl, f))
                  || Distance(s.conns[f], Forwarded(s.conns[f])) >= Threshold(s.conns[f]))
  {
    var c := s.conns[f];
    DistanceShown(f, c, OfFlow(s.outCtrl, f));
    if Sub32(c.fwdCnt, c.lastFwdSent) >= Threshold(c) {
      CreditQueued(s, f);
    }
  }

  // ---- a flush ----

  /** `maybe_credit` called now would leave the connection behind. */
  predicate Overlooked(c: Conn, updating: bool) {
    && !c.localShutRecv && !updating
    && Forwarded(c) - c.log.covered >= Threshold(c)
    && c.log.announced <= Forwarded(c) && Distance(c, Forwarded(c)) < Threshold(c)
  }

  lemma MaybeCreditBehind(s: State, f: Flow)
    requires f in s.conns && GuestToHost(f, s.conns[f]) && Announced(s.conns[f], OfFlow(s.outCtrl, f))
    ensures Behind(ViewOf(MaybeCredit(s, f), f)) <==> Overlooked(s.conns[f], Updating(OfFlow(s.outCtrl, f)))
  {
    MaybeCreditExact(s, f);
  }

  /** The guard under which a flush leaves its connection behind: it takes all bytes, and their count is overlooked. */
  predicate Misses(call: FlushCall, updating: bool) {
    FlushBoth(call.conn, call.sends).ok && Overlooked(call.conn.(toHost := []), updating)
  }

  /** What a flush loop and SHUT_WR leave of the fields the announcements depend on. */
  predicate SameCredit(c: Conn, c': Conn) {
    && c'.log.accepted == c.log.accepted && c'.log.covered == c.log.covered && c'.log.announced == c.log.announced
    && c'.bufAlloc == c.bufAlloc && c'.localShutRecv == c.localShutRecv
  }

  lemma OverlookedSame(c: Conn, c': Conn, updating: bool)
    requires SameCredit(c, c') && c'.toHost == c.toHost
    ensures Overlooked(c', updating) <==> Overlooked(c, updating)
  {
  }

  lemma FlushBothCredit(c: Conn, sends: seq<Send>)
    ensures SameCredit(c, FlushBoth(c, sends).conn)
  {
    var n := FlushOkTakes(c, sends);
    var r := FlushOk(c, sends);
    if r.ok {
      var m := FlushToHostTakes(r.conn, r.rest);
    }
  }

  lemma IngestCredit(s: State, f: Flow, data: seq<u8>)
    requires f in s.conns
    ensures var s' := Ingest(s, f, data);
            && f in s'.conns && SameCredit(s.conns[f], s'.conns[f]) && s'.conns[f].toHost == s.conns[f].toHost
            && (Updating(OfFlow(s'.outCtrl, f)) <==> Updating(OfFlow(s.outCtrl, f)))
  {
    if data != [] {
      IngestCalm(s, f, data);
      IngestConn(s, f, data, if CanSend(s.conns[f]) then Min(|data|, PeerAvail(s.conns[f])) else 0);
    }
  }

  lemma FlushBehind(s: State, f: Flow, sends: seq<Send>, now: nat)
    requires f in s.conns && CoreInv(f, ViewOf(s, f))
    ensures Behind(ViewOf(FlushConn(s, f, sends, now), f)) <==>
              Misses(FlushCall(s.conns[f], sends, now), Updating(OfFlow(s.outCtrl, f)))
  {
    var v := ViewOf(s, f);
    var r := FlushBoth(s.conns[f], sends);
    FlushBothKeeps(f, s.conns[f], sends, v.ctrl, v.data);
    FlushBothCredit(s.conns[f], sends);
    if r.ok {
      OverlookedSame(s.conns[f].(toHost := []), r.conn, Updating(v.ctrl));
      FlushedBehind(s, f, r.conn);
      FlushedIs(s, f, sends, now);
    } else {
      FailedBehind(s, f, sends, now);
    }
  }

  lemma FailedBehind(s: State, f: Flow, sends: seq<Send>, now: nat)
    requires f in s.conns && !FlushBoth(s.conns[f], sends).ok
    ensures !Behind(ViewOf(FlushConn(s, f, sends, now), f))
  {
    MarkShutConn(SetConn(s, f, FlushBoth(s.conns[f], sends).conn), f, now);
  }

  lemma FlushedIs(s: State, f: Flow, sends: seq<Send>, now: nat)
    requires f in s.conns && FlushBoth(s.conns[f], sends).ok && FlushBoth(s.conns[f], sends).conn.okPending == []
    ensures var c1 := ShutWrite(FlushBoth(s.conns[f], sends).conn);
            FlushConn(s, f, sends, now)
            == MaybeCredit(Ingest(SetConn(s, f, c1.(prefetched := [])), f, c1.prefetched), f)
  {
  }

  /** The tail of `flush_conn` once everything is written. */
  lemma FlushedBehind(s: State, f: Flow, c: Conn)
    requires f in s.conns && QueueInv(f, ViewOf(s, f).ctrl, ViewOf(s, f).data)
    requires ConnInv(f, c, ViewOf(s, f).ctrl, ViewOf(s, f).data) && c.okPending == []
    ensures var c1 := ShutWrite(c);
            var s' := MaybeCredit(Ingest(SetConn(s, f, c1.(prefetched := [])), f, c1.prefetched), f);
            Behind(ViewOf(s', f)) <==> Overlooked(c, Updating(OfFlow(s.outCtrl, f)))
  {
    var c1 := ShutWrite(c);
    var c2 := c1.(prefetched := []);
    var s1 := SetConn(s, f, c2);
    ShutWriteKeeps(f, c, ViewOf(s, f).ctrl, ViewOf(s, f).data);
    SetView(s, f, c2);
    ShutWriteCredit(c);
    OverlookedSame(c, c2, Updating(OfFlow(s.outCtrl, f)));
    IngestBehind(s1, f, c1.prefetched);
  }

  lemma ShutWriteCredit(c: Conn)
    ensures SameCredit(c, ShutWrite(c).(prefetched := [])) && ShutWrite(c).toHost == c.toHost
  {
  }

  lemma IngestBehind(s: State, f: Flow, data: seq<u8>)
    requires f in s.conns && CoreInv(f, ViewOf(s, f))
    ensures Behind(ViewOf(MaybeCredit(Ingest(s, f, data), f), f)) <==>
              Overlooked(s.conns[f], Updating(OfFlow(s.outCtrl, f)))
  {
    var s2 := Ingest(s, f, data);
    IngestKeeps(s, f, data);
    IngestCredit(s, f, data);
    OverlookedSame(s.conns[f], s2.conns[f], Updating(OfFlow(s.outCtrl, f)));
    MaybeCreditBehind(s2, f);
  }

  // ---- steps ----

  /** The step flushes the connection of `f` and overlooks what it owes the guest. */
  predicate FallsBehind(s: State, e: Event, f: Flow) {
    && f in s.conns && FlushOf(s, e, f).Some?
    && Misses(FlushOf(s, e, f).value, Updating(OfFlow(s.outCtrl, f)))
  }

  /** The step tells the guest, or ends the receiving, or the connection. */
  predicate CatchesUp(s: State, e: Event, f: Flow) {
    || f !in Step(s, e).conns
    || (f in s.conns && FlushOf(s, e, f).Some?)
    || (Speaks(s, e, f) && e.chain.hdr.op == OP_CREDIT_REQUEST)
    || (e.GuestRx? && HasOut(s) && Fits(Front(s), e.avail) && Front(s).flow == f)
    || (e.ConnReady? && e.flow == f && e.ready.readable && e.ready.read.Broken?)
  }

  /**
   A step leaves the connection of `f` behind exactly if it flushes it under that guard, or finds it behind and does
   not let it catch up.
   */
  lemma BehindExactly(s: State, e: Event, f: Flow)
    requires Inv(s)
    ensures Behind(ViewOf(Step(s, e), f)) <==>
              FallsBehind(s, e, f) || (Behind(ViewOf(s, f)) && !CatchesUp(s, e, f))
  {
    if f !in s.conns {
      if f in Step(s, e).conns {
        Appears(s, e, f);
      }
    } else if FlushOf(s, e, f).Some? {
      var t := FlushedStep(s, e, f);
      FlushBehind(t, f, FlushOf(s, e, f).value.sends, FlushOf(s, e, f).value.now);
    } else if f in Step(s, e).conns {
      QuietBehind(s, e, f);
    }
  }

  lemma QuietBehind(s: State, e: Event, f: Flow)
    requires Inv(s) && f in s.conns && FlushOf(s, e, f) == None && f in Step(s, e).conns
    ensures Behind(ViewOf(Step(s, e), f)) <==> Behind(ViewOf(s, f)) && !CatchesUp(s, e, f)
  {
    if e.GuestTx? {
      if Speaks(s, e, f) {
        SpokenBehind(s, e, f);
      } else {
        OtherTxBehind(s, e, f);
      }
    } else if e.GuestRx? {
      RxBehind(s, e.avail, f);
    } else if e.ConnReady? && e.flow == f {
      ConnFdBehind(s, f, e.ready);
    } else {
      OtherEventView(s, e, f);
    }
  }

  lemma CalmBehind(a: View, b: View)
    requires Calm(a, b) && a.conn.value.bufAlloc == b.conn.value.bufAlloc
    ensures Behind(b) <==> Behind(a) && !b.conn.value.localShutRecv
  {
  }

  lemma SpokenBehind(s: State, e: Event, f: Flow)
    requires Inv(s) && Speaks(s, e, f) && f in s.conns && FlushOf(s, e, f) == None && f in Step(s, e).conns
    ensures Behind(ViewOf(Step(s, e), f)) <==> Behind(ViewOf(s, f)) && e.chain.hdr.op != OP_CREDIT_REQUEST
  {
    SpokenStep(s, e, f);
    var h := e.chain.hdr;
    var s1 := SetConn(s, f, NoteCredit(s.conns[f], h));
    SetCalm(s, f, NoteCredit(s.conns[f], h));
    CalmBehind(ViewOf(s, f), ViewOf(s1, f));
    DispatchQuiet(s1, f, h, e.chain.data, e.host);
    CreditQueued(s1, f);
  }

  lemma OtherTxBehind(s: State, e: Event, f: Flow)
    requires Inv(s) && e.GuestTx? && f in s.conns && f in Step(s, e).conns && !Speaks(s, e, f)
    ensures Behind(ViewOf(Step(s, e), f)) <==> Behind(ViewOf(s, f))
  {
    match e.chain
    case Short =>
    case Damaged(g) => DroppedOther(s, g, f);
    case Packet(h, data) =>
      if HdrFlow(h) == f {
        RstCalm(s, f);
        CalmBehind(ViewOf(s, f), ViewOf(EnqueueRst(s, f), f));
        SilentPacket(s, h, data, e.host, f);
      } else {
        OtherView(s, h, data, e.host, f);
      }
  }

  lemma RxBehind(s: State, avail: nat, f: Flow)
    requires Inv(s) && f in s.conns
    ensures Behind(ViewOf(RxBuffer(s, avail), f)) <==>
              Behind(ViewOf(s, f)) && !(HasOut(s) && Fits(Front(s), avail) && Front(s).flow == f)
  {
    if HasOut(s) && Fits(Front(s), avail) {
      DeliverView(s, avail);
      if Front(s).flow == f {
        assert s.conns[f].bufAlloc == BUF_ALLOC by {
          assert FlowInv(f, ViewOf(s, f));
        }
        DeliverCovers(s, avail, f);
      }
    }
  }

  lemma DeliverCovers(s: State, avail: nat, f: Flow)
    requires f in s.conns && HasOut(s) && Fits(Front(s), avail) && Front(s).flow == f
    ensures var s' := Deliver(s, avail);
            && f in s'.conns && Forwarded(s'.conns[f]) <= s'.conns[f].log.covered && Threshold(s'.conns[f]) > 0
  {
  }

  lemma ConnFdBehind(s: State, f: Flow, r: Ready)
    requires Inv(s) && f in s.conns && FlushOf(s, ConnReady(f, r), f) == None && f in OnConnFd(s, f, r).conns
    ensures Behind(ViewOf(OnConnFd(s, f, r), f)) <==> Behind(ViewOf(s, f)) && !(r.readable && r.read.Broken?)
  {
    assert FlowInv(f, ViewOf(s, f));
    var t := AfterRead(s, f, r);
    ReadBehind(s, f, r);
    if r.writable {
      var t1 := SetConn(t, f, ConnectDone(t.conns[f]));
      SetCalm(t, f, ConnectDone(t.conns[f]));
      CalmBehind(ViewOf(t, f), ViewOf(t1, f));
      PushCalm(t1, Ctrl(f, OP_RESPONSE, 0));
      CalmBehind(ViewOf(t1, f), ViewOf(Enqueue(t1, Ctrl(f, OP_RESPONSE, 0)), f));
    }
  }

  lemma ReadBehind(s: State, f: Flow, r: Ready)
    requires f in s.conns && FlowInv(f, ViewOf(s, f)) && f in AfterRead(s, f, r).conns
    ensures Behind(ViewOf(AfterRead(s, f, r), f)) <==> Behind(ViewOf(s, f)) && !(r.readable && r.read.Broken?)
  {
    if r.readable {
      ReadConnKeeps(s, f, r.read, r.now);
      ReadSide(s, f, r.read, r.now);
      CalmBehind(ViewOf(s, f), ViewOf(AfterRead(s, f, r), f));
    }
  }

  // ---- runs ----

  /** For each step of the run, whether it left the connection of `f` behind. */
  function Falls(s: State, es: seq<Event>, f: Flow): (r: seq<bool>)
    ensures |r| == |es|
  {
    if es == [] then [] else Falls(s, es[..|es| - 1], f) + [FallsBehind(Run(s, es[..|es| - 1]), es[|es| - 1], f)]
  }

  /** For each step of the run, whether it let the connection of `f` catch up. */
  function CatchUps(s: State, es: seq<Event>, f: Flow): (r: seq<bool>)
    ensures |r| == |es|
  {
    if es == [] then [] else CatchUps(s, es[..|es| - 1], f) + [CatchesUp(Run(s, es[..|es| - 1]), es[|es| - 1], f)]
  }

  /** In every reachable state: a connection is behind if and only if some flush overlooked it and nothing made up for it. */
  lemma {:induction false} BehindOverRuns(guestCid: u64, es: seq<Event>, f: Flow)
    ensures var s := Init(guestCid);
            Behind(ViewOf(Run(s, es), f)) <==> Holds(Falls(s, es, f), CatchUps(s, es, f))
  {
    if es != [] {
      var s0, n := Init(guestCid), |es| - 1;
      var s := Run(s0, es[..n]);
      Reachable(guestCid, es[..n]);
      BehindOverRuns(guestCid, es[..n], f);
      BehindExactly(s, es[n], f);
      HoldsPush(Falls(s0, es[..n], f), CatchUps(s0, es[..n], f), FallsBehind(s, es[n], f), CatchesUp(s, es[n], f));
      assert Falls(s0, es, f) == Falls(s0, es[..n], f) + [FallsBehind(s, es[n], f)];
      assert CatchUps(s0, es, f) == CatchUps(s0, es[..n], f) + [CatchesUp(s, es[n], f)];
    }
  }
}
