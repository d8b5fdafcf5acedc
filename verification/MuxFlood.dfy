/** A guest that ignores the announced buffer: after 2^32 bytes an announcement goes missing. */
module MuxFlood {
  import opened Machine
  import opened Wire
  import opened MuxSpec
  import opened MuxQueues
  import opened MuxInvariant
  import opened MuxRuns
  import opened MuxTheorems

  /** This many packets of the largest size make 2^32 bytes. */
  const FLOOD: nat := 0x1_0000

  function Opens(cid: u64, f: Flow): Event {
    GuestTx(Packet(Header(cid, HOST_CID, f.guestPort, f.hostPort, 0, TYPE_STREAM, OP_REQUEST, 0, 4096, 0), []),
            Host(Done, [], 0))
  }

  function FloodHeader(cid: u64, f: Flow): Header {
    Header(cid, HOST_CID, f.guestPort, f.hostPort, MAX_PAYLOAD, TYPE_STREAM, OP_RW, 0, 4096, 0)
  }

  function FloodData(): (data: seq<u8>)
    ensures |data| == MAX_PAYLOAD
  {
    seq(MAX_PAYLOAD, _ => 0)
  }

  /** A data packet of the largest size, taken by the host at once. */
  function Floods(cid: u64, f: Flow): Event {
    GuestTx(Packet(FloodHeader(cid, f), FloodData()), Host(Done, [Sent(MAX_PAYLOAD)], 0))
  }

  /** A guest that opens a connection and sends `n` such packets, taking nothing from the device. */
  function FloodRun(cid: u64, f: Flow, n: nat): seq<Event> {
    [Opens(cid, f)] + Repeat(Floods(cid, f), n)
  }

  function Repeat(e: Event, n: nat): (es: seq<Event>)
    ensures |es| == n && forall i :: 0 <= i < n ==> es[i] == e
  {
    seq(n, _ => e)
  }

  /** `n` packets were taken and passed on. */
  predicate Drained(c: Conn, n: nat) {
    && c.phase == Established && !c.localShutRecv && !c.peerShutSend
    && c.okPending == [] && c.toHost == [] && c.prefetched == []
    && |c.log.accepted| == n * MAX_PAYLOAD
  }

  /** One announcement was made, after the first packet, and is still queued. */
  predicate Flooded(cid: u64, s: State, f: Flow, n: nat) {
    && s.guestCid == cid && f in s.conns && s.outData == []
    && s.outCtrl == (if n == 0 then [Ctrl(f, OP_RESPONSE, 0)]
                     else [Ctrl(f, OP_RESPONSE, 0), Ctrl(f, OP_CREDIT_UPDATE, 0)])
    && Drained(s.conns[f], n) && s.conns[f].log.announced == (if n == 0 then 0 else MAX_PAYLOAD)
  }

  // ---- one packet ----

  lemma PassedOn(c: Conn, data: seq<u8>)
    requires c.okPending == [] && c.toHost == data != []
    ensures FlushBoth(c, [Sent(|data|)]) == Flushed(TakeToHost(c, |data|), [], true)
  {
    var one: seq<Send> := [Sent(|data|)];
    var c1 := TakeToHost(c, |data|);
    assert one[1..] == [] && c1.toHost == [];
    assert FlushOk(c, one) == Flushed(c, one, true);
    assert FlushToHost(c1, []) == Flushed(c1, [], true);
    assert FlushToHost(c, one) == FlushToHost(c1, one[1..]);
  }

  /** The connection once the packet was taken and passed on. */
  function Passed(cid: u64, c: Conn, f: Flow): Conn
    requires c.toHost == []
  {
    TakeToHost(TakeRw(NoteCredit(c, FloodHeader(cid, f)), FloodData()), MAX_PAYLOAD)
  }

  lemma PassedConn(cid: u64, f: Flow, c: Conn, n: nat)
    requires GuestToHost(f, c) && Drained(c, n)
    ensures var c1 := Passed(cid, c, f);
            && Drained(c1, n + 1) && c1.bufAlloc == BUF_ALLOC && c1.fwdCnt == Wrap((n + 1) * MAX_PAYLOAD)
            && c1.log.announced == c.log.announced && c1.log.covered == c.log.covered
            && c1.lastFwdSent == c.lastFwdSent
  {
    WrapAdd(Forwarded(c), MAX_PAYLOAD);
    assert c.toHost + FloodData() == FloodData();
  }

  lemma TakesFlood(cid: u64, s: State, f: Flow, n: nat)
    requires f in s.conns && GuestToHost(f, s.conns[f]) && Drained(s.conns[f], n)
    ensures var s1 := SetConn(s, f, NoteCredit(s.conns[f], FloodHeader(cid, f)));
            OnRw(s1, f, FloodData(), [Sent(MAX_PAYLOAD)], 0) == MaybeCredit(SetConn(s, f, Passed(cid, s.conns[f], f)), f)
  {
    var c := NoteCredit(s.conns[f], FloodHeader(cid, f));
    var s1 := SetConn(s, f, c);
    var taken := TakeRw(c, FloodData());
    LocalFreeExact(f, c);
    FloodFits(s1, f);
    assert taken.toHost == FloodData();
    PassedOn(taken, FloodData());
    FlushPassed(SetConn(s1, f, taken), f, Passed(cid, s.conns[f], f));
    SetAgain(s, f, c, taken, Passed(cid, s.conns[f], f));
  }

  lemma FloodFits(s: State, f: Flow)
    requires f in s.conns && AcceptsRw(s.conns[f]) && LocalFree(s.conns[f]) == BUF_ALLOC
    ensures OnRw(s, f, FloodData(), [Sent(MAX_PAYLOAD)], 0) ==
            FlushConn(SetConn(s, f, TakeRw(s.conns[f], FloodData())), f, [Sent(MAX_PAYLOAD)], 0)
  {
    assert Wrap(|FloodData()|) == MAX_PAYLOAD;
  }

  lemma SetAgain(s: State, f: Flow, a: Conn, b: Conn, c: Conn)
    ensures SetConn(SetConn(SetConn(s, f, a), f, b), f, c) == SetConn(s, f, c)
  {
  }

  lemma FlushPassed(s: State, f: Flow, c: Conn)
    requires f in s.conns && FlushBoth(s.conns[f], [Sent(MAX_PAYLOAD)]) == Flushed(c, [], true)
    requires c.okPending == [] && c.prefetched == [] && !c.peerShutSend
    ensures FlushConn(s, f, [Sent(MAX_PAYLOAD)], 0) == MaybeCredit(SetConn(s, f, c), f)
  {
    assert c.(prefetched := []) == c == ShutWrite(c);
  }

  lemma FloodEvent(cid: u64, s: State, f: Flow, n: nat)
    requires Inv(s) && s.guestCid == cid && f in s.conns && Drained(s.conns[f], n)
    ensures Step(s, Floods(cid, f)) == MaybeCredit(SetConn(s, f, Passed(cid, s.conns[f], f)), f)
    ensures GuestToHost(f, s.conns[f]) && s.conns[f].lastFwdSent == Wrap(s.conns[f].log.announced)
    ensures s.conns[f].log.announced <= n * MAX_PAYLOAD
  {
    assert FlowInv(f, ViewOf(s, f));
    SpokenStep(s, Floods(cid, f), f);
    TakesFlood(cid, s, f, n);
  }

  // ---- up to 2^32 bytes ----

  lemma FloodStart(cid: u64, f: Flow)
    ensures Flooded(cid, Step(Init(cid), Opens(cid, f)), f, 0)
  {
    var e := Opens(cid, f);
    var s := Init(cid);
    assert Step(s, e) == Enqueue(SetConn(s.(nextId := 1), f, GuestConn(0, e.chain.hdr, e.host)), Ctrl(f, OP_RESPONSE, 0));
    assert [] + [Ctrl(f, OP_RESPONSE, 0)] == [Ctrl(f, OP_RESPONSE, 0)];
  }

  lemma FloodStep(cid: u64, s: State, f: Flow, n: nat)
    requires Inv(s) && Flooded(cid, s, f, n)
    ensures Flooded(cid, Step(s, Floods(cid, f)), f, n + 1)
  {
    FloodEvent(cid, s, f, n);
    PassedConn(cid, f, s.conns[f], n);
    FloodCredit(cid, s, f, n, Passed(cid, s.conns[f], f));
  }

  lemma FloodCredit(cid: u64, s: State, f: Flow, n: nat, c: Conn)
    requires Flooded(cid, s, f, n) && Drained(c, n + 1) && c.bufAlloc == BUF_ALLOC
    requires c.fwdCnt == Wrap((n + 1) * MAX_PAYLOAD) && c.lastFwdSent == Wrap(c.log.announced)
    requires c.log.announced == s.conns[f].log.announced
    ensures Flooded(cid, MaybeCredit(SetConn(s, f, c), f), f, n + 1)
  {
    if n == 0 {
      FirstUpdate(cid, SetConn(s, f, c), f);
    } else {
      OneUpdate(cid, SetConn(s, f, c), f, n + 1);
    }
  }

  lemma OneUpdate(cid: u64, s: State, f: Flow, n: nat)
    requires n > 0 && Flooded(cid, s, f, n)
    ensures MaybeCredit(s, f) == s
  {
    assert s.outCtrl[1].flow == f && s.outCtrl[1].op == OP_CREDIT_UPDATE;
    assert Queued(s.outCtrl, f, OP_CREDIT_UPDATE);
  }

  lemma FirstUpdate(cid: u64, s: State, f: Flow)
    requires s.guestCid == cid && f in s.conns && s.outData == [] && s.outCtrl == [Ctrl(f, OP_RESPONSE, 0)]
    requires var c := s.conns[f];
             Drained(c, 1) && c.bufAlloc == BUF_ALLOC && c.fwdCnt == MAX_PAYLOAD && c.lastFwdSent == 0
    ensures Flooded(cid, MaybeCredit(s, f), f, 1)
  {
    assert !Queued(s.outCtrl, f, OP_CREDIT_UPDATE);
    assert MaybeCredit(s, f).conns[f] == Announce(s.conns[f]);
  }

  /** Every event `e` adds one packet to a flood. */
  ghost predicate AddsPacket(cid: u64, e: Event, f: Flow) {
    forall s: State, n: nat :: Inv(s) && Flooded(cid, s, f, n) ==> Flooded(cid, Step(s, e), f, n + 1)
  }

  lemma {:induction false} FloodGrows(cid: u64, es: seq<Event>, e: Event, f: Flow, n: nat)
    requires Flooded(cid, Run(Init(cid), es), f, 0) && AddsPacket(cid, e, f)
    ensures Flooded(cid, Run(Init(cid), es + Repeat(e, n)), f, n)
  {
    if n == 0 {
      assert es + Repeat(e, 0) == es;
    } else {
      FloodGrows(cid, es, e, f, n - 1);
      OneMore(cid, es + Repeat(e, n - 1), e, f, n - 1);
      RepeatPush(es, e, n - 1);
    }
  }

  lemma RepeatPush(es: seq<Event>, e: Event, n: nat)
    ensures es + Repeat(e, n) + [e] == es + Repeat(e, n + 1)
  {
  }

  lemma OneMore(cid: u64, es: seq<Event>, e: Event, f: Flow, n: nat)
    requires Flooded(cid, Run(Init(cid), es), f, n) && AddsPacket(cid, e, f)
    ensures Flooded(cid, Run(Init(cid), es + [e]), f, n + 1)
  {
    Reachable(cid, es);
    RunPush(Init(cid), es, e);
  }

  lemma FloodKeeps(cid: u64, f: Flow, n: nat)
    ensures Flooded(cid, Run(Init(cid), FloodRun(cid, f, n)), f, n)
  {
    FloodStart(cid, f);
    RunPush(Init(cid), [], Opens(cid, f));
    assert [] + [Opens(cid, f)] == [Opens(cid, f)];
    forall s: State, k: nat | Inv(s) && Flooded(cid, s, f, k)
      ensures Flooded(cid, Step(s, Floods(cid, f)), f, k + 1)
    {
      FloodStep(cid, s, f, k);
    }
    FloodGrows(cid, [Opens(cid, f)], Floods(cid, f), f, n);
  }

  // ---- the missing announcement ----

  /** The guest takes the two control packets and sends once more. */
  function MissedRun(cid: u64, f: Flow): seq<Event> {
    FloodRun(cid, f, FLOOD) + [GuestRx(HDR_LEN)] + [GuestRx(HDR_LEN)] + [Floods(cid, f)]
  }

  lemma TakesControl(s: State, f: Flow, p: OutPkt)
    requires s.outCtrl != [] && s.outCtrl[0] == p && p.flow == f && f in s.conns && p.data == []
    requires Drained(s.conns[f], FLOOD)
    ensures var s' := Step(s, GuestRx(HDR_LEN));
            && s'.guestCid == s.guestCid && s'.outCtrl == s.outCtrl[1..] && f in s'.conns
            && Drained(s'.conns[f], FLOOD) && s'.conns[f].log.announced == s.conns[f].log.announced
            && s'.conns[f].log.covered == FLOOD * MAX_PAYLOAD
  {
  }

  lemma FloodTaken(cid: u64, f: Flow)
    ensures var s := Run(Init(cid), FloodRun(cid, f, FLOOD) + [GuestRx(HDR_LEN)] + [GuestRx(HDR_LEN)]);
            && s.guestCid == cid && s.outCtrl == [] && f in s.conns && Drained(s.conns[f], FLOOD)
            && s.conns[f].log.announced == MAX_PAYLOAD && s.conns[f].log.covered == M32
  {
    FloodKeeps(cid, f, FLOOD);
    var es, rx := FloodRun(cid, f, FLOOD), GuestRx(HDR_LEN);
    var s := Run(Init(cid), es);
    RunPush(Init(cid), es, rx);
    RunPush(Init(cid), es + [rx], rx);
    TakesControl(s, f, Ctrl(f, OP_RESPONSE, 0));
    TakesControl(Step(s, rx), f, Ctrl(f, OP_CREDIT_UPDATE, 0));
  }

  /**
   "Announcements keep up" fails without a bound on the unannounced bytes: the distance wraps to zero, so no update
   is queued although a quarter of the buffer is missing from the last header.
   */
  lemma AnnouncementCanBeMissed(cid: u64, f: Flow)
    ensures var s := Run(Init(cid), MissedRun(cid, f));
            && f in s.conns && !s.conns[f].localShutRecv && !Queued(s.outCtrl, f, OP_CREDIT_UPDATE)
            && Forwarded(s.conns[f]) - s.conns[f].log.covered >= Threshold(s.conns[f])
  {
    var es := FloodRun(cid, f, FLOOD) + [GuestRx(HDR_LEN)] + [GuestRx(HDR_LEN)];
    FloodTaken(cid, f);
    Reachable(cid, es);
    var s := Run(Init(cid), es);
    RunPush(Init(cid), es, Floods(cid, f));
    FloodEvent(cid, s, f, FLOOD);
    PassedConn(cid, f, s.conns[f], FLOOD);
    NoUpdate(SetConn(s, f, Passed(cid, s.conns[f], f)), f);
  }

  lemma NoUpdate(s: State, f: Flow)
    requires f in s.conns && s.outCtrl == []
    requires var c := s.conns[f];
             && Drained(c, FLOOD + 1) && c.bufAlloc == BUF_ALLOC && c.log.covered == M32
             && c.fwdCnt == Wrap((FLOOD + 1) * MAX_PAYLOAD) && c.lastFwdSent == Wrap(MAX_PAYLOAD)
    ensures MaybeCredit(s, f) == s && Forwarded(s.conns[f]) - M32 >= Threshold(s.conns[f])
    ensures !Queued(s.outCtrl, f, OP_CREDIT_UPDATE)
  {
  }
}
