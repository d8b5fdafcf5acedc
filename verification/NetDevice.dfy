/** The virtio-net device: runs of offers, passes and resets, and the object that makes the passes. */
module NetDevice {
  import opened Machine
  import opened NetTx
  import opened NetRx

  // ---- runs ----

  /**
   The guest offers chains; the worker makes a pass with the TAP's answers; the driver resets the device and sets its
   queues up again between two passes, so that no pass finds them down.
   */
  datatype Event =
    | OfferTx(txChain: TxChain)
    | OfferRx(rxChain: RxChain)
    | Work(txReady: bool, writes: seq<TapWrite>, rxReady: bool, taps: seq<TapRead>)
    | Renew

  datatype Net = Net(tx: Tx, rx: Rx)

  function InitNet(txScratch: seq<u8>, rxScratch: seq<u8>): Net {
    Net(Tx([], txScratch, None, [], [], [], [], [], 0), Rx([], rxScratch, None, [], [], [], [], []))
  }

  function Step(s: Net, e: Event): Net {
    match e
    case OfferTx(c) => s.(tx := s.tx.(avail := s.tx.avail + [c]))
    case OfferRx(c) => s.(rx := s.rx.(avail := s.rx.avail + [c]))
    case Work(txReady, writes, rxReady, taps) =>
      Net(ProcessTx(s.tx, txReady, writes).tx, ProcessRx(s.rx, rxReady, taps).rx)
    case Renew => Net(RenewTx(s.tx), s.rx.(avail := []))
  }

  function Run(s: Net, es: seq<Event>): Net {
    if es == [] then s else Step(Run(s, es[..|es| - 1]), es[|es| - 1])
  }

  /** Both invariants hold after every run. */
  lemma {:induction false} RunKeeps(txScratch: seq<u8>, rxScratch: seq<u8>, es: seq<Event>)
    ensures var s := Run(InitNet(txScratch, rxScratch), es); TxInv(s.tx) && RxInv(s.rx)
  {
    if es != [] {
      var k := |es| - 1;
      RunKeeps(txScratch, rxScratch, es[..k]);
      StepKeeps(Run(InitNet(txScratch, rxScratch), es[..k]), es[k]);
    }
  }

  lemma StepKeeps(s: Net, e: Event)
    requires TxInv(s.tx) && RxInv(s.rx)
    ensures TxInv(Step(s, e).tx) && RxInv(Step(s, e).rx)
  {
    match e
    case OfferTx(c) => AvailIrrelevant(s.tx, s.tx.avail + [c]);
    case OfferRx(c) => SameFrames(s.rx, s.rx.(avail := s.rx.avail + [c]));
    case Work(txReady, writes, rxReady, taps) =>
      ProcessTxKeeps(s.tx, txReady, writes);
      ProcessRxKeeps(s.rx, rxReady, taps);
    case Renew =>
      RenewKeeps(s.tx);
      RenewRxKeeps(s.rx);
  }

  /** No head is lost or completed twice, whatever the TAP answered; the frames it took are exactly those sent. */
  lemma TxExactlyOnce(txScratch: seq<u8>, rxScratch: seq<u8>, es: seq<Event>)
    ensures var s := Run(InitNet(txScratch, rxScratch), es).tx;
            && |s.popped| == |s.completed| + (if s.pending.Some? then 1 else 0)
            && (forall i :: 0 <= i < |s.completed| ==> s.completed[i] == s.popped[i].head)
            && (s.pending.Some? ==> var c := s.popped[|s.completed|];
                                    s.pending.value == PendingTx(c.head, |c.bytes|) && c.bytes <= s.scratch)
            && |s.tap| == |s.sent| && (forall j, k :: 0 <= j < k < |s.sent| ==> s.sent[j] < s.sent[k])
            && (forall k :: 0 <= k < |s.tap| ==> s.sent[k] < |s.completed| && s.tap[k] == s.popped[s.sent[k]].bytes)
            && |Offered(s.popped)| == |Finals(s.told)| + (if s.pending.Some? then 1 else 0)
            && s.sent == Chosen(Offered(s.popped), Finals(s.told)) && |s.tap| == CountTook(s.told)
  {
    RunKeeps(txScratch, rxScratch, es);
    var s := Run(InitNet(txScratch, rxScratch), es).tx;
    TookCount(Offered(s.popped), s.told);
    forall i | 0 <= i < |s.completed| ensures s.completed[i] == s.popped[i].head {
      assert Heads(s.popped)[i] == s.popped[i].head;
    }
    if s.pending.Some? {
      assert Heads(s.popped)[|s.completed|] == s.popped[|s.completed|].head;
    }
  }

  /** The passes that found a frame held and the RX queue down. */
  function DownPasses(s: Net, es: seq<Event>): nat {
    if es == [] then 0
    else
      var k := |es| - 1;
      DownPasses(s, es[..k])
      + if es[k].Work? && !es[k].rxReady && Run(s, es[..k]).rx.pendingLen.Some? then 1 else 0
  }

  /**
   The frames are the TAP's answers of at least a header, in order. Each is delivered at most once, in read order, or
   dropped for one of two reasons: it met chains, all too small and none left, or it was held when a pass
   found the queue down; as many are dropped so as there were such passes.
   */
  lemma RxOneFate(txScratch: seq<u8>, rxScratch: seq<u8>, es: seq<Event>)
    ensures var s := Run(InitNet(txScratch, rxScratch), es).rx;
            && s.frames == Frames(s.heard)
            && |s.frames| == |s.fates| + (if s.pendingLen.Some? then 1 else 0)
            && (forall i :: 0 <= i < |s.fates| && s.fates[i].Delivered? ==> s.fates[i].frame == s.frames[i])
            && (forall i :: 0 <= i < |s.fates| && s.fates[i].NoBuffer? ==>
                  var d := s.fates[i];
                  && d.ring != [] && (forall c :: c in d.ring ==> c.size < |s.frames[i]|)
                  && |d.ring| <= d.upTo <= |s.popped| && s.popped[d.upTo - |d.ring|..d.upTo] == d.ring && d.left == 0)
            && CountDown(s.fates) == DownPasses(InitNet(txScratch, rxScratch), es)
            && Filled(s.used) == Deliveries(s.fates)
            && |s.used| == |s.popped|
            && (forall i :: 0 <= i < |s.used| ==> s.used[i].head == s.popped[i].head && s.used[i].len <= s.popped[i].size)
  {
    RunKeeps(txScratch, rxScratch, es);
    RunDown(InitNet(txScratch, rxScratch), es);
    var s := Run(InitNet(txScratch, rxScratch), es).rx;
    forall i | 0 <= i < |s.fates| ensures FateOk(s.frames[i], s.fates[i], s.popped) {
    }
  }

  lemma {:induction false} RunDown(s: Net, es: seq<Event>)
    ensures CountDown(Run(s, es).rx.fates) == CountDown(s.rx.fates) + DownPasses(s, es)
  {
    if es != [] {
      var k := |es| - 1;
      RunDown(s, es[..k]);
      if es[k].Work? {
        ProcessRxDown(Run(s, es[..k]).rx, es[k].rxReady, es[k].taps);
      }
    }
  }

  /** So a worker that always finds its RX queue ready drops no frame but for want of a buffer. */
  lemma {:induction false} AlwaysReady(txScratch: seq<u8>, rxScratch: seq<u8>, es: seq<Event>)
    requires forall i :: 0 <= i < |es| && es[i].Work? ==> es[i].rxReady
    ensures var s := Run(InitNet(txScratch, rxScratch), es).rx;
            forall i :: 0 <= i < |s.fates| ==> s.fates[i] != QueueDown
  {
    RunDown(InitNet(txScratch, rxScratch), es);
    NoDownPasses(InitNet(txScratch, rxScratch), es);
    NoneDown(Run(InitNet(txScratch, rxScratch), es).rx.fates);
  }

  lemma {:induction false} NoDownPasses(s: Net, es: seq<Event>)
    requires forall i :: 0 <= i < |es| && es[i].Work? ==> es[i].rxReady
    ensures DownPasses(s, es) == 0
  {
    if es != [] {
      NoDownPasses(s, es[..|es| - 1]);
    }
  }

  lemma {:induction false} NoneDown(fates: seq<Fate>)
    requires CountDown(fates) == 0
    ensures forall i :: 0 <= i < |fates| ==> fates[i] != QueueDown
  {
    if fates != [] {
      NoneDown(fates[..|fates| - 1]);
    }
  }

  // ---- a head of another ring ----

  /** The frame held is of the ring before. */
  predicate Stale(s: Tx) {
    s.foreign > 0 && s.completed == []
  }

  /** The ring was given back a head its driver never put there. */
  predicate Leaked(s: Tx) {
    s.foreign > 0 && s.completed != []
  }

  /** A pass that finds the queue ready and gets an answer other than "busy" for its first frame. */
  predicate Unblocks(e: Event) {
    e.Work? && e.txReady && NextTap(e.writes) != Busy
  }

  /** The queue is seen down, or set up anew. */
  predicate Restarts(e: Event) {
    e.Renew? || (e.Work? && !e.txReady)
  }

  /** When a frame becomes stale, and when its head is completed in the new ring. */
  lemma LeakExactly(s: Net, e: Event)
    requires TxInv(s.tx)
    ensures Stale(Step(s, e).tx) <==>
              (e.Renew? && s.tx.pending.Some?) || (Stale(s.tx) && !Restarts(e) && !Unblocks(e))
    ensures Leaked(Step(s, e).tx) <==> (Stale(s.tx) && Unblocks(e)) || (Leaked(s.tx) && !Restarts(e))
    ensures Stale(s.tx) && Unblocks(e) ==> Step(s, e).tx.completed[0] == s.tx.pending.value.head
  {
    StaleHolds(s.tx);
    if e.Work? && e.txReady {
      ProcessTxKeeps(s.tx, true, e.writes);
      if Stale(s.tx) {
        HeldFirst(s.tx, e.writes);
      }
    }
  }

  lemma StaleHolds(s: Tx)
    requires TxInv(s)
    ensures Stale(s) ==> s.pending.Some? && |s.popped| == 1
  {
    assert |Heads(s.popped)| == |s.popped|;
  }

  lemma HeldFirst(s: Tx, taps: seq<TapWrite>)
    requires TxInv(s) && s.pending.Some? && s.completed == []
    ensures var r := ProcessTx(s, true, taps).tx;
            if NextTap(taps) == Busy then r == Told(s, Busy) else r.completed != [] && r.completed[0] == s.pending.value.head
  {
    if NextTap(taps) == Took {
      HeldTook(s, LaterTaps(taps));
    }
  }

  /** For each step of the run, whether it set the queue up with a frame held, and whether that frame was dealt with. */
  function Strandings(s: Net, es: seq<Event>): (r: seq<bool>)
    ensures |r| == |es|
  {
    if es == [] then []
    else
      var k := |es| - 1;
      Strandings(s, es[..k]) + [es[k].Renew? && Run(s, es[..k]).tx.pending.Some?]
  }

  function Settlings(es: seq<Event>): (r: seq<bool>)
    ensures |r| == |es|
  {
    if es == [] then []
    else
      var k := |es| - 1;
      Settlings(es[..k]) + [Restarts(es[k]) || Unblocks(es[k])]
  }

  lemma {:induction false} StaleOverRuns(txScratch: seq<u8>, rxScratch: seq<u8>, es: seq<Event>)
    ensures var s := InitNet(txScratch, rxScratch);
            Stale(Run(s, es).tx) <==> Holds(Strandings(s, es), Settlings(es))
  {
    if es != [] {
      var s, n := InitNet(txScratch, rxScratch), |es| - 1;
      StaleOverRuns(txScratch, rxScratch, es[..n]);
      RunKeeps(txScratch, rxScratch, es[..n]);
      LeakExactly(Run(s, es[..n]), es[n]);
      var begin, end := es[n].Renew? && Run(s, es[..n]).tx.pending.Some?, Restarts(es[n]) || Unblocks(es[n]);
      HoldsPush(Strandings(s, es[..n]), Settlings(es[..n]), begin, end);
      assert Strandings(s, es) == Strandings(s, es[..n]) + [begin] && Settlings(es) == Settlings(es[..n]) + [end];
    }
  }

  /** For each step, whether it is a pass that gets a frame off which was held since before the queue was set up. */
  ghost function Leaks(s: Net, es: seq<Event>): (r: seq<bool>)
    ensures |r| == |es|
  {
    if es == [] then []
    else
      var k := |es| - 1;
      Leaks(s, es[..k])
      + [Unblocks(es[k]) && Holds(Strandings(s, es[..k]), Settlings(es[..k]))]
  }

  function Restartings(es: seq<Event>): (r: seq<bool>)
    ensures |r| == |es|
  {
    if es == [] then [] else Restartings(es[..|es| - 1]) + [Restarts(es[|es| - 1])]
  }

  /**
   "A held head cannot leak into a ring set up anew" fails, and exactly so: a ring has been given back a head of the
   ring before if and only if it was set up with a frame held and the first pass to get the frame off
   found the queue ready, no pass having seen it down.
   */
  lemma {:induction false} LeakedOverRuns(txScratch: seq<u8>, rxScratch: seq<u8>, es: seq<Event>)
    ensures var s := InitNet(txScratch, rxScratch);
            Leaked(Run(s, es).tx) <==> Holds(Leaks(s, es), Restartings(es))
  {
    if es != [] {
      var s, n := InitNet(txScratch, rxScratch), |es| - 1;
      LeakedOverRuns(txScratch, rxScratch, es[..n]);
      StaleOverRuns(txScratch, rxScratch, es[..n]);
      RunKeeps(txScratch, rxScratch, es[..n]);
      LeakExactly(Run(s, es[..n]), es[n]);
      var leak := Unblocks(es[n]) && Holds(Strandings(s, es[..n]), Settlings(es[..n]));
      HoldsPush(Leaks(s, es[..n]), Restartings(es[..n]), leak, Restarts(es[n]));
      assert Leaks(s, es) == Leaks(s, es[..n]) + [leak] && Restartings(es) == Restartings(es[..n]) + [Restarts(es[n])];
    }
  }

  /** A frame the TAP has no room for, a reset with the queues set up again, and a pass in which the TAP takes it. */
  function LeakRun(c: TxChain): seq<Event> {
    [OfferTx(c), Work(true, [Busy], true, []), Renew, Work(true, [Took], true, [])]
  }

  lemma HeadCanLeak(c: TxChain)
    requires c.fault == Sound && |c.bytes| >= NET_HDR_LEN
    ensures var s := Run(InitNet([], []), LeakRun(c)).tx; s.completed == [c.head] && s.foreign == 1
  {
    var es := LeakRun(c);
    var s0 := InitNet([], []);
    RunFour(s0, es[0], es[1], es[2], es[3]);
    var s1 := Step(s0, es[0]);
    assert s1.tx.avail == [c];
    HoldsFirst(s1.tx, c);
    TakesHeld(RenewTx(Step(s1, es[1]).tx));
  }

  lemma RunFour(s: Net, a: Event, b: Event, c: Event, d: Event)
    ensures Run(s, [a, b, c, d]) == Step(Step(Step(Step(s, a), b), c), d)
  {
    RunTwo(s, [], a, b);
    RunTwo(s, [a, b], c, d);
    assert [] + [a, b] == [a, b] && [a, b] + [c, d] == [a, b, c, d];
  }

  lemma RunTwo(s: Net, es: seq<Event>, a: Event, b: Event)
    ensures Run(s, es + [a, b]) == Step(Step(Run(s, es), a), b)
  {
    assert (es + [a, b])[..|es| + 1] == es + [a] && (es + [a])[..|es|] == es;
  }

  lemma HoldsFirst(s: Tx, c: TxChain)
    requires s.avail == [c] && s.popped == [] && s.pending == None && c.fault == Sound && |c.bytes| >= NET_HDR_LEN
    ensures var r := ProcessTx(s, true, [Busy]).tx; r.pending == Some(PendingTx(c.head, |c.bytes|)) && r.popped == [c]
  {
    assert SendOne(s, [Busy]).ended == Held;
  }

  lemma TakesHeld(s: Tx)
    requires s.avail == [] && s.pending.Some?
    ensures var r := ProcessTx(s, true, [Took]).tx;
            r.completed == s.completed + [s.pending.value.head] && r.foreign == s.foreign
  {
  }

  // ---- the device ----

  class NetState {
    var txAvail: seq<TxChain>
    var txScratch: seq<u8>
    var pendingTx: Option<PendingTx>
    var rxAvail: seq<RxChain>
    var rxScratch: seq<u8>
    var pendingRxLen: Option<nat>
    ghost var txPopped: seq<TxChain>
    ghost var txCompleted: seq<u16>
    ghost var tapFrames: seq<seq<u8>>
    ghost var tapSent: seq<nat>
    ghost var tapTold: seq<TapWrite>
    ghost var txForeign: nat
    ghost var rxPopped: seq<RxChain>
    ghost var rxUsed: seq<Used>
    ghost var rxFrames: seq<seq<u8>>
    ghost var rxFates: seq<Fate>
    ghost var rxHeard: seq<TapRead>

    ghost function TxModel(): Tx
      reads this
    {
      Tx(txAvail, txScratch, pendingTx, txPopped, txCompleted, tapFrames, tapSent, tapTold, txForeign)
    }

    ghost function RxModel(): Rx
      reads this
    {
      Rx(rxAvail, rxScratch, pendingRxLen, rxPopped, rxUsed, rxFrames, rxFates, rxHeard)
    }

    /** One chain of `process_tx`. */
    method SendChain(taps: seq<TapWrite>) returns (left: seq<TapWrite>, ended: Ended)
      requires txAvail != [] && pendingTx == None
      modifies `txAvail, `txScratch, `pendingTx, `txPopped, `txCompleted, `tapFrames, `tapSent, `tapTold
      ensures SentOne(TxModel(), left, ended) == SendOne(old(TxModel()), taps)
    {
      left := taps;
      var c := txAvail[0];
      txAvail := txAvail[1..];
      ghost var at := |txPopped|;
      txPopped := txPopped + [c];
      if c.fault == BadChain {
        txCompleted := txCompleted + [c.head];
        return left, Broke;
      }
      if |c.bytes| < NET_HDR_LEN {
        txCompleted := txCompleted + [c.head];
        return left, Finished;
      }
      txScratch := Loaded(txScratch, c.bytes);
      if c.fault == BadRead {
        txCompleted := txCompleted + [c.head];
        return left, Broke;
      }
      var tap := NextTap(taps);
      left := LaterTaps(taps);
      tapTold := tapTold + [tap];
      if tap == Took {
        tapFrames, tapSent := tapFrames + [c.bytes], tapSent + [at];
        txCompleted := txCompleted + [c.head];
        return left, Finished;
      }
      if tap == Busy {
        pendingTx := Some(PendingTx(c.head, |c.bytes|));
        return left, Held;
      }
      txCompleted := txCompleted + [c.head];
      return left, Broke;
    }

    /** The loop of `process_tx`: chain after chain until the TAP is busy or one fails. */
    method SendChains(writes: seq<TapWrite>, before: bool) returns (used: bool, failed: bool)
      requires pendingTx == None
      modifies `txAvail, `txScratch, `pendingTx, `txPopped, `txCompleted, `tapFrames, `tapSent, `tapTold
      ensures TxDone(TxModel(), used, failed) == TxLoop(old(TxModel()), writes, before)
    {
      used, failed := before, false;
      var taps := writes;
      while txAvail != []
        invariant pendingTx == None && !failed
        invariant TxLoop(TxModel(), taps, used) == TxLoop(old(TxModel()), writes, before)
        decreases |txAvail|
      {
        var ended;
        taps, ended := SendChain(taps);
        if ended == Held {
          return;
        }
        used := true;
        if ended == Broke {
          failed := true;
          return;
        }
      }
    }

    /** `process_tx`: the held frame goes first. */
    method RunTx(ready: bool, writes: seq<TapWrite>) returns (used: bool, failed: bool)
      modifies `txAvail, `txScratch, `pendingTx, `txPopped, `txCompleted, `tapFrames, `tapSent, `tapTold, `txForeign
      ensures TxDone(TxModel(), used, failed) == ProcessTx(old(TxModel()), ready, writes)
    {
      used, failed := false, false;
      if !ready {
        pendingTx := None;
        txPopped, txCompleted, tapFrames, tapSent, tapTold, txForeign := [], [], [], [], [], 0;
        return;
      }
      if pendingTx == None {
        used, failed := SendChains(writes, false);
        return;
      }
      var tap := NextTap(writes);
      OfferHeld(tap);
      if tap == Took {
        used, failed := SendChains(LaterTaps(writes), true);
      } else {
        used, failed := tap == Failed, tap == Failed;
      }
    }

    /** The held frame and the TAP's answer to it. */
    method OfferHeld(tap: TapWrite)
      requires pendingTx.Some?
      modifies `pendingTx, `txCompleted, `tapFrames, `tapSent, `tapTold
      ensures TxModel() == HeldAnswered(old(TxModel()), tap)
    {
      tapTold := tapTold + [tap];
      if tap == Busy {
        return;
      }
      var held := pendingTx.value;
      pendingTx := None;
      txCompleted := txCompleted + [held.head];
      if tap == Took {
        ghost var at := if txPopped == [] then 0 else |txPopped| - 1;
        tapFrames, tapSent := tapFrames + [Front(txScratch, held.len)], tapSent + [at];
      }
    }

    /** `process_tx` with what it keeps: exactly-once completion, and an honest flag. */
    method ProcessTxQueue(ready: bool, writes: seq<TapWrite>) returns (used: bool, failed: bool)
      requires TxInv(TxModel())
      modifies `txAvail, `txScratch, `pendingTx, `txPopped, `txCompleted, `tapFrames, `tapSent, `tapTold, `txForeign
      ensures TxDone(TxModel(), used, failed) == ProcessTx(old(TxModel()), ready, writes)
      ensures TxInv(TxModel()) && (used <==> |txCompleted| > |old(txCompleted)|)
    {
      ProcessTxKeeps(TxModel(), ready, writes);
      used, failed := RunTx(ready, writes);
    }

    /** `flush_pending_rx`. */
    method FlushPendingRx() returns (used: bool)
      modifies `rxAvail, `rxScratch, `pendingRxLen, `rxPopped, `rxUsed, `rxFrames, `rxFates
      ensures RxDone(RxModel(), used, false) == FlushPending(old(RxModel()))
    {
      used := false;
      if pendingRxLen == None {
        return;
      }
      var len := pendingRxLen.value;
      ghost var ring: seq<RxChain> := [];
      while rxAvail != []
        invariant pendingRxLen == Some(len)
        invariant FlushLoop(RxModel(), len, ring) == FlushLoop(old(RxModel()), len, [])
        invariant used <==> ring != []
        invariant used || rxAvail != [] <==> old(rxAvail) != []
        decreases |rxAvail|
      {
        var c := rxAvail[0];
        rxAvail := rxAvail[1..];
        rxPopped := rxPopped + [c];
        used := true;
        if c.size < len {
          rxUsed := rxUsed + [Used(c.head, 0)];
          ring := ring + [c];
          continue;
        }
        rxUsed := rxUsed + [Used(c.head, len)];
        rxFates := rxFates + [Delivered(c.head, Front(rxScratch, len))];
        pendingRxLen := None;
        return;
      }
      if used {
        pendingRxLen := None;
        rxFates := rxFates + [NoBuffer(ring, |rxPopped|, |rxAvail|)];
      }
    }

    /** The reading loop of `process_rx`. */
    method ReadFrames(taps: seq<TapRead>, before: bool) returns (used: bool, failed: bool)
      requires pendingRxLen == None
      modifies `rxAvail, `rxScratch, `pendingRxLen, `rxPopped, `rxUsed, `rxFrames, `rxFates, `rxHeard
      ensures RxDone(RxModel(), used, failed) == RxLoop(old(RxModel()), taps, before)
    {
      used, failed := before, false;
      var left := taps;
      while left != []
        invariant pendingRxLen == None && !failed
        invariant RxLoop(RxModel(), left, used) == RxLoop(old(RxModel()), taps, before)
        decreases |left|
      {
        var tap := left[0];
        rxHeard := rxHeard + [tap];
        if tap.Nothing? {
          return;
        }
        if tap.ReadFailed? {
          failed := true;
          return;
        }
        var frame := Front(tap.bytes, MAX_FRAME);
        if frame == [] {
          return;
        }
        left := left[1..];
        if |frame| < NET_HDR_LEN {
          continue;
        }
        rxScratch := frame + (if |frame| < |rxScratch| then rxScratch[|frame|..] else []);
        pendingRxLen := Some(|frame|);
        rxFrames := rxFrames + [frame];
        var more := FlushPendingRx();
        used := used || more;
        if pendingRxLen.Some? {
          return;
        }
      }
    }

    /** `process_rx`: deliver a held frame before reading another. */
    method ProcessRxQueue(ready: bool, taps: seq<TapRead>) returns (used: bool, failed: bool)
      requires RxInv(RxModel())
      modifies `rxAvail, `rxScratch, `pendingRxLen, `rxPopped, `rxUsed, `rxFrames, `rxFates, `rxHeard
      ensures RxDone(RxModel(), used, failed) == ProcessRx(old(RxModel()), ready, taps)
      ensures RxInv(RxModel()) && (used <==> |rxUsed| > |old(rxUsed)|)
    {
      ProcessRxKeeps(RxModel(), ready, taps);
      used, failed := false, false;
      if !ready {
        if pendingRxLen.Some? {
          rxFates := rxFates + [QueueDown];
        }
        pendingRxLen := None;
        return;
      }
      used := FlushPendingRx();
      if pendingRxLen.Some? {
        return;
      }
      used, failed := ReadFrames(taps, used);
    }

    /** The driver resets the device and sets its queues up again. */
    method RenewQueues()
      requires TxInv(TxModel()) && RxInv(RxModel())
      modifies this
      ensures TxInv(TxModel()) && RxInv(RxModel())
      ensures TxModel() == RenewTx(old(TxModel())) && RxModel() == old(RxModel()).(avail := [])
    {
      RenewKeeps(TxModel());
      RenewRxKeeps(RxModel());
      RenewTxQueue();
      rxAvail := [];
    }

    method RenewTxQueue()
      modifies `txAvail, `txPopped, `txCompleted, `tapFrames, `tapSent, `tapTold, `txForeign
      ensures TxModel() == RenewTx(old(TxModel()))
    {
      ghost var held := RenewTx(TxModel()).popped;
      txAvail := [];
      txPopped, txCompleted, tapFrames, tapSent, tapTold, txForeign := held, [], [], [], [], |held|;
    }

    /** `process_net_once`: the interrupt is raised exactly when a descriptor was completed, errors included. */
    method ProcessOnce(txReady: bool, writes: seq<TapWrite>, rxReady: bool, taps: seq<TapRead>)
      returns (irq: bool, failed: bool)
      requires TxInv(TxModel()) && RxInv(RxModel())
      modifies this
      ensures TxInv(TxModel()) && RxInv(RxModel())
      ensures Net(TxModel(), RxModel()) == Step(Net(old(TxModel()), old(RxModel())), Work(txReady, writes, rxReady, taps))
      ensures irq <==> |txCompleted| > |old(txCompleted)| || |rxUsed| > |old(rxUsed)|
      ensures failed <==>
                || ProcessTx(old(TxModel()), txReady, writes).failed
                || ProcessRx(old(RxModel()), rxReady, taps).failed
    {
      ghost var rx0 := RxModel();
      var txUsed, txFailed := ProcessTxQueue(txReady, writes);
      ghost var tx1 := TxModel();
      assert RxModel() == rx0;
      var rxDone, rxFailed := ProcessRxQueue(rxReady, taps);
      assert TxModel() == tx1;
      irq := txUsed || rxDone;
      failed := txFailed || rxFailed;
    }
  }
}
