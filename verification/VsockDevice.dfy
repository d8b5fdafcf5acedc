/** The vsock worker's datapath: reading guest packets, filling guest buffers, and the step that composes them. */
module VsockDevice {
  import opened Machine
  import opened Wire
  import opened MuxSpec
  import opened MuxQueues
  import opened MuxInvariant
  import opened MuxRuns
  import opened MuxEffects
  import opened MuxClock
  import opened MuxDevice

  function TxEvents(chains: seq<seq<u8>>, hosts: seq<Host>): (es: seq<Event>)
    requires |chains| == |hosts|
    ensures |es| == |chains|
  {
    seq(|chains|, i requires 0 <= i < |chains| => GuestTx(ReadChain(chains[i]), hosts[i]))
  }

  /** The used lengths for a list of TX chains. */
  function TxUsed(chains: seq<seq<u8>>): (used: seq<nat>)
    ensures |used| == |chains|
    ensures forall i :: 0 <= i < |chains| ==>
              used[i] == if ReadChain(chains[i]).Packet? then 44 + |ReadChain(chains[i]).data| else 0
  {
    seq(|chains|, i requires 0 <= i < |chains| => ChainUsed(ReadChain(chains[i])))
  }

  lemma TxUsedPush(chains: seq<seq<u8>>, i: nat, n: nat)
    requires i < |chains| && n == ChainUsed(ReadChain(chains[i]))
    ensures TxUsed(chains)[..i] + [n] == TxUsed(chains)[..i + 1]
  {
  }

  function RxEvents(bufs: seq<nat>): (es: seq<Event>)
    ensures |es| == |bufs|
  {
    seq(|bufs|, i requires 0 <= i < |bufs| => GuestRx(bufs[i]))
  }

  lemma {:induction false} RunConcat(s: State, a: seq<Event>, b: seq<Event>)
    ensures Run(s, a + b) == Run(Run(s, a), b)
  {
    if b == [] {
      assert a + b == a;
    } else {
      var k := |b| - 1;
      RunConcat(s, a, b[..k]);
      SamePush(s, a + b[..k], Run(s, a), b[..k], b[k]);
      assert b[..k] + [b[k]] == b && a + b[..k] + [b[k]] == a + b;
    }
  }

  lemma SamePush(s: State, a: seq<Event>, t: State, b: seq<Event>, e: Event)
    requires Run(s, a) == Run(t, b)
    ensures Run(s, a + [e]) == Run(t, b + [e])
  {
    RunPush(s, a, e);
    RunPush(t, b, e);
  }

  lemma TxStep(s: State, chains: seq<seq<u8>>, hosts: seq<Host>, i: nat)
    requires |chains| == |hosts| && i < |chains|
    ensures var es := TxEvents(chains, hosts);
            Run(s, es[..i + 1]) == Step(Run(s, es[..i]), GuestTx(ReadChain(chains[i]), hosts[i]))
  {
    var es := TxEvents(chains, hosts);
    RunPush(s, es[..i], es[i]);
    assert es[..i] + [es[i]] == es[..i + 1];
  }

  /** `push_rx` is a run of buffer events over the buffers it consumed. */
  lemma {:induction false} PushRxIsRun(s: State, bufs: seq<nat>)
    ensures var r := PushRx(s, bufs);
            |r.used| <= |bufs| && r.left == bufs[|r.used|..] && r.mux == Run(s, RxEvents(bufs[..|r.used|]))
    decreases |bufs|
  {
    if bufs == [] || !HasOut(s) {
      assert RxEvents(bufs[..0]) == [];
    } else {
      var s1 := RxBuffer(s, bufs[0]);
      if Fits(Front(s), bufs[0]) {
        var r := PushRx(s1, bufs[1..]);
        PushRxIsRun(s1, bufs[1..]);
        RxCons(s, bufs, |r.used|);
        assert bufs[1..][|r.used|..] == bufs[|r.used| + 1..];
      } else {
        RxCons(s, bufs, 0);
        assert RxEvents(bufs[1..][..0]) == [];
      }
    }
  }

  lemma RxCons(s: State, bufs: seq<nat>, n: nat)
    requires bufs != [] && n < |bufs|
    ensures Run(s, RxEvents(bufs[..n + 1])) == Run(RxBuffer(s, bufs[0]), RxEvents(bufs[1..][..n]))
  {
    var e, tail := GuestRx(bufs[0]), RxEvents(bufs[1..][..n]);
    RunPush(s, [], e);
    assert [] + [e] == [e];
    RunConcat(s, [e], tail);
    assert RxEvents(bufs[..n + 1]) == [e] + tail;
  }

  /** What one `drive` does to the multiplexer, as a run. */
  function DriveEvents(wasReady: bool, up: bool, tx: seq<Event>, rx: seq<Event>): seq<Event> {
    if up then tx + rx else if wasReady then [TransportDown] else []
  }

  function Prepend(used: seq<nat>, r: Pushed): Pushed {
    r.(used := used + r.used)
  }

  lemma FillStart(s: State, bufs: seq<nat>)
    ensures PushRx(s, bufs) == Prepend([], PushRx(s, bufs))
  {
    var r := PushRx(s, bufs);
    assert [] + r.used == r.used;
  }

  lemma FillEnd(s: State, used: seq<nat>, left: seq<nat>)
    requires left == [] || !HasOut(s)
    ensures Prepend(used, PushRx(s, left)) == Pushed(s, used, left)
  {
    assert used + [] == used;
  }

  /** The used length reported for a buffer offered to the front packet. */
  function BufferUsed(s: State, avail: nat): nat
    requires HasOut(s)
  {
    if Fits(Front(s), avail) then HDR_LEN + Min(|Front(s).data|, avail - HDR_LEN) else 0
  }

  lemma FillStep(s: State, used: seq<nat>, left: seq<nat>)
    requires left != [] && HasOut(s)
    ensures var s1, n := RxBuffer(s, left[0]), BufferUsed(s, left[0]);
            Prepend(used, PushRx(s, left)) ==
            if n == 0 then Pushed(s1, used + [0], left[1..]) else Prepend(used + [n], PushRx(s1, left[1..]))
  {
    var s1, n := RxBuffer(s, left[0]), BufferUsed(s, left[0]);
    var r := PushRx(s1, left[1..]);
    assert used + ([n] + r.used) == (used + [n]) + r.used;
  }

  class Vsock {
    const mux: Mux
    var queuesReady: bool
    var needResetEvent: bool
    ghost var resetEvents: nat     // transport-reset events written into guest buffers

    constructor (cid: u64)
      ensures fresh(mux) && mux.Model() == Init(cid)
      ensures !queuesReady && !needResetEvent && resetEvents == 0
    {
      mux := new Mux(cid);
      queuesReady, needResetEvent, resetEvents := false, false, 0;
    }

    /** One chain of `pull_tx`. */
    method PullChain(raw: seq<u8>, host: Host) returns (used: nat)
      requires Inv(mux.Model())
      modifies mux
      ensures mux.Model() == Step(old(mux.Model()), GuestTx(ReadChain(raw), host))
      ensures Inv(mux.Model()) && TakesData(old(mux.Model()), raw, mux.Model())
      ensures used == ChainUsed(ReadChain(raw))
    {
      ChainTaken(mux.Model(), raw, host);
      StepKeeps(mux.Model(), GuestTx(ReadChain(raw), host));
      match ReadChain(raw) {
        case Short => used := 0;
        case Damaged(f) =>
          mux.Remove(f, true);
          used := 0;
        case Packet(hdr, data) =>
          mux.HandlePacket(hdr, data, host);
          used := HDR_LEN + |data|;
      }
    }

    /**
     `pull_tx`: every available chain is handed on once, in order, and returned with its length; the payload of a data
     packet that is welcome, and nothing else of the chain, goes to its stream.
     */
    method PullTx(chains: seq<seq<u8>>, hosts: seq<Host>) returns (used: seq<nat>)
      requires |chains| == |hosts| && Inv(mux.Model())
      modifies mux
      ensures Inv(mux.Model())
      ensures mux.Model() == Run(old(mux.Model()), TxEvents(chains, hosts))
      ensures used == TxUsed(chains)
      ensures var es := TxEvents(chains, hosts);
              forall i :: 0 <= i < |chains| ==>
                TakesData(Run(old(mux.Model()), es[..i]), chains[i], Run(old(mux.Model()), es[..i + 1]))
    {
      used := [];
      ghost var start, es := mux.Model(), TxEvents(chains, hosts);
      for i := 0 to |chains|
        invariant Inv(mux.Model()) && mux.Model() == Run(start, es[..i]) && used == TxUsed(chains)[..i]
        invariant forall j :: 0 <= j < i ==> TakesData(Run(start, es[..j]), chains[j], Run(start, es[..j + 1]))
      {
        var n := PullChain(chains[i], hosts[i]);
        TxStep(start, chains, hosts, i);
        TxUsedPush(chains, i, n);
        used := used + [n];
      }
      assert es[..|chains|] == es && TxUsed(chains)[..|chains|] == TxUsed(chains);
    }

    /** One buffer of `push_rx`: pop, split, stamp, write, and put back what did not fit. */
    method FillBuffer(avail: nat) returns (used: nat)
      requires Inv(mux.Model()) && HasOut(mux.Model())
      modifies mux
      ensures mux.Model() == RxBuffer(old(mux.Model()), avail)
      ensures Inv(mux.Model())
      ensures used == BufferUsed(old(mux.Model()), avail)
    {
      FrontKind(mux.Model());
      if Fits(Front(mux.Model()), avail) {
        DeliverKeeps(mux.Model(), avail);
      }
      var popped := mux.PopOut();
      var p := popped.value;
      if avail < HDR_LEN || (p.op != OP_RW && avail - HDR_LEN < |p.data|) {
        mux.PushFrontOut(p);
        PopPush(old(mux.Model()), p);
        return 0;
      }
      var n := Min(|p.data|, avail - HDR_LEN);
      var payload, rest := p.data[..n], p.data[n..];
      var bufAlloc, fwdCnt := 0, 0;
      if p.flow in mux.conns {
        bufAlloc, fwdCnt := mux.conns[p.flow].bufAlloc, mux.conns[p.flow].fwdCnt;
      }
      var hdr := Header(HOST_CID, mux.guestCid, p.flow.hostPort, p.flow.guestPort, Wrap(|payload|),
                        TYPE_STREAM, p.op, p.flags, bufAlloc, fwdCnt);
      if n < |p.data| {
        mux.PushFrontOut(p.(data := rest));
      }
      // History: what the guest now holds.
      if p.flow in mux.conns {
        mux.conns := mux.conns[p.flow := NoteDelivered(mux.conns[p.flow], p, payload)];
      }
      mux.wire := mux.wire + [Delivery(p.flow, p.op, hdr, payload, avail)];
      used := HDR_LEN + n;
    }

    /** `push_rx`: fill buffers until the queues or the buffers run out, or one is too small. */
    method FillRx(bufs: seq<nat>) returns (used: seq<nat>, left: seq<nat>)
      requires Inv(mux.Model())
      modifies mux
      ensures Inv(mux.Model())
      ensures Pushed(mux.Model(), used, left) == PushRx(old(mux.Model()), bufs)
    {
      used, left := [], bufs;
      FillStart(mux.Model(), bufs);
      while left != [] && (mux.outCtrl != [] || mux.outData != [])
        invariant Inv(mux.Model())
        invariant PushRx(old(mux.Model()), bufs) == Prepend(used, PushRx(mux.Model(), left))
        decreases |left|
      {
        ghost var before := mux.Model();
        var avail := left[0];
        var n := FillBuffer(avail);
        FillStep(before, used, left);
        left := left[1..];
        used := used + [n];
        if n == 0 {
          return;
        }
      }
      FillEnd(mux.Model(), used, left);
    }

    /** `push_reset_event`: any buffer is consumed, but only one of four bytes or more carries the event. */
    method PushResetEvent(buf: Option<nat>) returns (consumed: bool)
      modifies this`resetEvents
      ensures consumed <==> buf.Some?
      ensures resetEvents == old(resetEvents) + if buf.Some? && buf.value >= 4 then 1 else 0
    {
      if buf == None {
        return false;
      }
      if buf.value >= 4 {
        resetEvents := resetEvents + 1;
      }
      return true;
    }

    /** Both directions in turn, as a run. */
    method MovePackets(chains: seq<seq<u8>>, hosts: seq<Host>, bufs: seq<nat>)
      returns (txUsed: seq<nat>, rxUsed: seq<nat>)
      requires |chains| == |hosts| && Inv(mux.Model())
      modifies mux
      ensures Inv(mux.Model()) && |txUsed| == |chains| && |rxUsed| <= |bufs|
      ensures mux.Model() == Run(old(mux.Model()), TxEvents(chains, hosts) + RxEvents(bufs[..|rxUsed|]))
    {
      txUsed := PullTx(chains, hosts);
      var left;
      rxUsed, left := FillRx(bufs);
      TxThenRx(old(mux.Model()), TxEvents(chains, hosts), bufs);
    }

    /**
     `drive`: a transport going down clears the multiplexer and leaves a reset event owed; while it is up
     guest packets are taken before buffers are filled.
     */
    method Drive(up: bool, chains: seq<seq<u8>>, hosts: seq<Host>, bufs: seq<nat>, eventBuf: Option<nat>)
      returns (signal: bool, txUsed: seq<nat>, rxUsed: seq<nat>)
      requires |chains| == |hosts| && Inv(mux.Model())
      modifies this, mux
      ensures Inv(mux.Model())
      ensures queuesReady == up && |rxUsed| <= |bufs|
      ensures mux.Model() == Run(old(mux.Model()), DriveEvents(old(queuesReady), up, TxEvents(chains, hosts),
                                                              RxEvents(bufs[..|rxUsed|])))
      ensures !up ==> txUsed == rxUsed == [] && !signal && resetEvents == old(resetEvents)
                      && needResetEvent == (old(needResetEvent) || old(queuesReady))
      ensures up ==> |txUsed| == |chains|
      ensures up ==> needResetEvent == (old(needResetEvent) && eventBuf == None)
      ensures up ==> (signal <==> txUsed != [] || rxUsed != [] || (old(needResetEvent) && eventBuf.Some?))
      ensures up && old(needResetEvent) && !needResetEvent ==>
                (resetEvents == old(resetEvents) + 1 <==> eventBuf.value >= 4)
    {
      signal, txUsed, rxUsed := false, [], [];
      if queuesReady && !up {
        queuesReady := false;
        needResetEvent := true;
        mux.Kill();
        RunPush(old(mux.Model()), [], TransportDown);
        assert [] + [TransportDown] == [TransportDown];
      } else if up && !queuesReady {
        queuesReady := true;
      }
      if !up {
        return;
      }
      txUsed, rxUsed := MovePackets(chains, hosts, bufs);
      signal := txUsed != [] || rxUsed != [];
      if needResetEvent {
        var consumed := PushResetEvent(eventBuf);
        if consumed {
          needResetEvent := false;
          signal := true;
        }
      }
    }

    /** The sockets `poll` reported, one after another. */
    method HandleReady(ready: seq<Event>)
      requires Inv(mux.Model())
      requires forall i :: 0 <= i < |ready| ==> ready[i].Accept? || ready[i].IncomingReady? || ready[i].ConnReady?
      modifies mux
      ensures mux.Model() == Run(old(mux.Model()), ready) && Inv(mux.Model())
    {
      for i := 0 to |ready|
        invariant mux.Model() == Run(old(mux.Model()), ready[..i]) && Inv(mux.Model())
      {
        RunPush(old(mux.Model()), ready[..i], ready[i]);
        assert ready[..i] + [ready[i]] == ready[..i + 1];
        mux.OnFd(ready[i]);
      }
      assert ready[..|ready|] == ready;
    }

    /**
     One turn of the worker: the ready sockets, the deadlines as of `now`, then the queues. It is a run of the
     multiplexer, so every law of runs covers it, and it leaves no connection past its deadline.
     */
    method Turn(ready: seq<Event>, now: nat, up: bool, chains: seq<seq<u8>>, hosts: seq<Host>, bufs: seq<nat>,
                eventBuf: Option<nat>)
      returns (signal: bool, ghost es: seq<Event>)
      requires |chains| == |hosts| && Inv(mux.Model())
      requires forall i :: 0 <= i < |ready| ==> ready[i].Accept? || ready[i].IncomingReady? || ready[i].ConnReady?
      requires forall i :: 0 <= i < |hosts| ==> now <= hosts[i].now
      modifies this, mux
      ensures mux.Model() == Run(old(mux.Model()), es) && ready <= es
      ensures Inv(mux.Model()) && Evolves(old(mux.Model()), mux.Model()) && OnTime(mux.Model(), now)
      ensures queuesReady == up
      ensures !up && old(queuesReady) ==> mux.conns == map[] && mux.incoming == [] && mux.outCtrl == mux.outData == []
    {
      HandleReady(ready);
      ghost var order := mux.CheckTimeouts(now);
      ghost var timely := mux.Model();
      var txUsed, rxUsed;
      signal, txUsed, rxUsed := Drive(up, chains, hosts, bufs, eventBuf);
      ghost var driven := DriveEvents(old(queuesReady), up, TxEvents(chains, hosts), RxEvents(bufs[..|rxUsed|]));
      es := ready + [Timeouts(order, now)] + driven;
      TurnIsRun(old(mux.Model()), ready, Timeouts(order, now), driven);
      DrivenOnTime(old(queuesReady), up, chains, hosts, bufs[..|rxUsed|], now);
      RunOnTime(timely, driven, now);
      RunKeeps(old(mux.Model()), es);
      if !up && old(queuesReady) {
        WentDown(timely);
      }
    }
  }

  lemma TxThenRx(s: State, tx: seq<Event>, bufs: seq<nat>)
    ensures var r := PushRx(Run(s, tx), bufs);
            |r.used| <= |bufs| && r.mux == Run(s, tx + RxEvents(bufs[..|r.used|]))
  {
    PushRxIsRun(Run(s, tx), bufs);
    RunConcat(s, tx, RxEvents(bufs[..|PushRx(Run(s, tx), bufs).used|]));
  }

  lemma TurnIsRun(s: State, ready: seq<Event>, e: Event, driven: seq<Event>)
    ensures Run(s, ready + [e] + driven) == Run(Step(Run(s, ready), e), driven)
  {
    RunPush(s, ready, e);
    RunConcat(s, ready + [e], driven);
  }

  lemma WentDown(s: State)
    ensures var s' := Run(s, [TransportDown]); s'.conns == map[] && s'.incoming == [] && s'.outCtrl == s'.outData == []
  {
    RunPush(s, [], TransportDown);
    assert [] + [TransportDown] == [TransportDown];
  }

  lemma DrivenOnTime(was: bool, up: bool, chains: seq<seq<u8>>, hosts: seq<Host>, bufs: seq<nat>, now: nat)
    requires |chains| == |hosts| && forall i :: 0 <= i < |hosts| ==> now <= hosts[i].now
    ensures var es := DriveEvents(was, up, TxEvents(chains, hosts), RxEvents(bufs));
            forall i :: 0 <= i < |es| ==> Drives(es[i], now)
  {
  }

  /** Only data queues hold RW packets, so a popped packet goes back where it came from. */
  lemma FrontKind(s: State)
    requires Inv(s) && HasOut(s)
    ensures Front(s).op == OP_RW <==> s.outCtrl == []
  {
    var p := Front(s);
    var v := ViewOf(s, p.flow);
    assert FlowInv(p.flow, v);
    if s.outCtrl != [] {
      OfFlowPop(s.outCtrl, p.flow);
      assert CtrlPkt(p.flow, v.ctrl[0]);
    } else {
      OfFlowPop(s.outData, p.flow);
      assert RwPkt(p.flow, v.data[0]);
    }
  }

  /** Putting a packet straight back restores the queues. */
  lemma PopPush(s: State, p: OutPkt)
    requires HasOut(s) && p == Front(s) && (p.op == OP_RW <==> s.outCtrl == [])
    ensures PushFront(PopFront(s), p) == s
  {
    assert s.outCtrl != [] ==> [s.outCtrl[0]] + s.outCtrl[1..] == s.outCtrl;
    assert s.outCtrl == [] ==> [s.outData[0]] + s.outData[1..] == s.outData;
  }
}
