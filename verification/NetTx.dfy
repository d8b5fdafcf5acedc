/** virtio-net, guest to TAP: at most one frame is held while the TAP has no room. */
module NetTx {
  import opened Machine

  const NET_HDR_LEN: nat := 12

  function Front(s: seq<u8>, n: nat): seq<u8> {
    if n <= |s| then s[..n] else s
  }

  // ---- guest to TAP ----

  /** A TX chain: its head, its readable bytes, and what goes wrong when it is read. */
  datatype Fault = Sound | BadChain | BadRead
  datatype TxChain = TxChain(head: u16, bytes: seq<u8>, fault: Fault)

  /** Result of one TAP write: the whole frame, no room, or an error (a short write included). */
  datatype TapWrite = Took | Busy | Failed

  datatype PendingTx = PendingTx(head: u16, len: nat)

  /** `popped`, `completed`, `tap`, `sent`, `foreign` and `told` are the history since the queue was last set up. */
  datatype Tx = Tx(
    avail: seq<TxChain>, scratch: seq<u8>, pending: Option<PendingTx>,
    popped: seq<TxChain>, completed: seq<u16>,
    tap: seq<seq<u8>>,     // frames the TAP took
    sent: seq<nat>,        // for each, the position in `popped` it came from
    told: seq<TapWrite>,   // every answer the TAP gave to a write
    foreign: nat)          // how many of `popped` are of the ring before: the frame held when the queue was set up anew

  datatype TxDone = TxDone(tx: Tx, used: bool, failed: bool)

  function Complete(s: Tx, head: u16): Tx {
    s.(completed := s.completed + [head])
  }

  /** The TAP took `frame`, the one popped at position `at`. */
  function Sent(s: Tx, frame: seq<u8>, at: nat): Tx {
    s.(tap := s.tap + [frame], sent := s.sent + [at])
  }

  /** The TAP answered one more write. */
  function Told(s: Tx, answer: TapWrite): Tx {
    s.(told := s.told + [answer])
  }

  /** The scratch buffer after reading `bytes` into its front, growing it if needed. */
  function Loaded(scratch: seq<u8>, bytes: seq<u8>): (r: seq<u8>)
    ensures bytes <= r && |scratch| <= |r|
  {
    bytes + (if |bytes| < |scratch| then scratch[|bytes|..] else [])
  }

  /** How one chain ended: completed, held for a busy TAP, or completed with an error. */
  datatype Ended = Finished | Held | Broke
  datatype SentOne = SentOne(tx: Tx, taps: seq<TapWrite>, ended: Ended)

  function NextTap(taps: seq<TapWrite>): TapWrite {
    if taps == [] then Busy else taps[0]
  }

  function LaterTaps(taps: seq<TapWrite>): seq<TapWrite> {
    if taps == [] then [] else taps[1..]
  }

  /** One chain of `process_tx`; `taps` are the TAP's answers in turn. */
  function SendOne(s: Tx, taps: seq<TapWrite>): (r: SentOne)
    requires s.avail != []
    ensures r.tx.avail == s.avail[1..]
    ensures r.ended != Held ==> r.tx.pending == s.pending
  {
    var c := s.avail[0];
    var s1 := s.(avail := s.avail[1..], popped := s.popped + [c]);
    if c.fault == BadChain then SentOne(Complete(s1, c.head), taps, Broke)
    else if |c.bytes| < NET_HDR_LEN then SentOne(Complete(s1, c.head), taps, Finished)
    else
      var s2 := s1.(scratch := Loaded(s1.scratch, c.bytes));
      if c.fault == BadRead then SentOne(Complete(s2, c.head), taps, Broke)
      else
        var s3 := Told(s2, NextTap(taps));
        match NextTap(taps)
        case Took => SentOne(Complete(Sent(s3, c.bytes, |s.popped|), c.head), LaterTaps(taps), Finished)
        case Busy => SentOne(s3.(pending := Some(PendingTx(c.head, |c.bytes|))), LaterTaps(taps), Held)
        case Failed => SentOne(Complete(s3, c.head), LaterTaps(taps), Broke)
  }

  /** The loop of `process_tx` over the available chains. */
  function TxLoop(s: Tx, taps: seq<TapWrite>, used: bool): TxDone
    decreases |s.avail|
  {
    if s.avail == [] then TxDone(s, used, false)
    else
      var r := SendOne(s, taps);
      match r.ended
      case Finished => TxLoop(r.tx, r.taps, true)
      case Held => TxDone(r.tx, used, false)
      case Broke => TxDone(r.tx, true, true)
  }

  /** The held frame after the TAP's answer to it. */
  function HeldAnswered(s: Tx, answer: TapWrite): Tx
    requires s.pending.Some?
  {
    var p, s1 := s.pending.value, Told(s, answer);
    match answer
    case Took =>
      var at := if s.popped == [] then 0 else |s.popped| - 1;
      Complete(Sent(s1.(pending := None), Front(s.scratch, p.len), at), p.head)
    case Busy => s1
    case Failed => Complete(s1.(pending := None), p.head)
  }

  /** `process_tx`. A queue that is not ready drops the held frame and starts a new history. */
  function ProcessTx(s: Tx, ready: bool, taps: seq<TapWrite>): TxDone {
    if !ready then
      var clean := s.(pending := None, popped := [], completed := [], tap := [], sent := [], told := [], foreign := 0);
      TxDone(clean, false, false)
    else if s.pending == None then TxLoop(s, taps, false)
    else
      var s1 := HeldAnswered(s, NextTap(taps));
      match NextTap(taps)
      case Took => TxLoop(s1, LaterTaps(taps), true)
      case Busy => TxDone(s1, false, false)
      case Failed => TxDone(s1, true, true)
  }

  /** The driver resets the queue and sets it up again between two passes: the device keeps the frame it holds. */
  function RenewTx(s: Tx): Tx {
    var held := if s.pending.Some? && s.popped != [] then [s.popped[|s.popped| - 1]] else [];
    s.(avail := [], popped := held, completed := [], tap := [], sent := [], told := [], foreign := |held|)
  }

  function Heads(cs: seq<TxChain>): (r: seq<u16>)
    ensures |r| == |cs| && forall i :: 0 <= i < |cs| ==> r[i] == cs[i].head
  {
    seq(|cs|, i requires 0 <= i < |cs| => cs[i].head)
  }

  /** Heads popped are the heads completed, in order, then the held one if any. */
  predicate TxHeads(s: Tx) {
    Heads(s.popped) == s.completed + (if s.pending.Some? then [s.pending.value.head] else [])
  }

  /** The held frame is the last one popped and still stands whole at the front of the scratch buffer. */
  predicate TxHeld(s: Tx) {
    s.pending.Some? ==>
      && s.popped != []
      && var c := s.popped[|s.popped| - 1];
         s.pending.value.len == |c.bytes| && c.bytes <= s.scratch
  }

  /** What the TAP took is a subsequence of what was popped and completed, nothing twice. */
  predicate TxFrames(s: Tx) {
    && |s.tap| == |s.sent|
    && (forall k :: 0 <= k < |s.sent| ==> s.sent[k] < |s.completed| <= |s.popped| && s.tap[k] == s.popped[s.sent[k]].bytes)
    && (forall j, k :: 0 <= j < k < |s.sent| ==> s.sent[j] < s.sent[k])
  }

  // ---- which frames go out ----

  /** The chain is one to send: it could be read and holds a header at least. */
  predicate Offerable(c: TxChain) {
    c.fault == Sound && |c.bytes| >= NET_HDR_LEN
  }

  /** The positions of those, in order. */
  function Offered(popped: seq<TxChain>): seq<nat> {
    if popped == [] then []
    else
      var k := |popped| - 1;
      if Offerable(popped[k]) then Offered(popped[..k]) + [k] else Offered(popped[..k])
  }

  /** The answers that ended a frame, in order. */
  function Finals(told: seq<TapWrite>): seq<TapWrite> {
    if told == [] then []
    else
      var k := |told| - 1;
      if told[k] == Busy then Finals(told[..k]) else Finals(told[..k]) + [told[k]]
  }

  /** The first of `at`, one for each answer, whose answer is that the frame was taken. */
  function Chosen(at: seq<nat>, finals: seq<TapWrite>): seq<nat>
    requires |finals| <= |at|
  {
    if finals == [] then []
    else
      var k := |finals| - 1;
      Chosen(at, finals[..k]) + if finals[k] == Took then [at[k]] else []
  }

  /** Each frame to send has one final answer, in order, but the held one; those taken are the frames sent. */
  predicate TxTold(s: Tx) {
    && |Offered(s.popped)| == |Finals(s.told)| + (if s.pending.Some? then 1 else 0)
    && s.sent == Chosen(Offered(s.popped), Finals(s.told))
    && (s.pending.Some? ==> s.popped != [] && Offerable(s.popped[|s.popped| - 1]))
  }

  lemma OfferedPush(popped: seq<TxChain>, c: TxChain)
    ensures Offered(popped + [c]) == if Offerable(c) then Offered(popped) + [|popped|] else Offered(popped)
  {
    assert (popped + [c])[..|popped|] == popped;
  }

  lemma FinalsPush(told: seq<TapWrite>, answer: TapWrite)
    ensures Finals(told + [answer]) == if answer == Busy then Finals(told) else Finals(told) + [answer]
  {
    assert (told + [answer])[..|told|] == told;
  }

  lemma {:induction false} ChosenMore(at: seq<nat>, more: seq<nat>, finals: seq<TapWrite>)
    requires |finals| <= |at|
    ensures Chosen(at + more, finals) == Chosen(at, finals)
  {
    if finals != [] {
      ChosenMore(at, more, finals[..|finals| - 1]);
    }
  }

  lemma ChosenPush(at: seq<nat>, finals: seq<TapWrite>, answer: TapWrite)
    requires |finals| < |at|
    ensures Chosen(at, finals + [answer]) == Chosen(at, finals) + if answer == Took then [at[|finals|]] else []
  {
    assert (finals + [answer])[..|finals|] == finals;
  }

  /** A chain that is not to be sent comes and goes. */
  lemma PassedTold(s: Tx, s': Tx, c: TxChain)
    requires TxTold(s) && s.pending == None && !Offerable(c)
    requires s'.popped == s.popped + [c] && s'.told == s.told && s'.sent == s.sent && s'.pending == None
    ensures TxTold(s')
  {
    OfferedPush(s.popped, c);
  }

  /** A frame is offered to the TAP for the first time. */
  lemma OfferTold(s: Tx, s': Tx, c: TxChain, answer: TapWrite)
    requires TxTold(s) && s.pending == None && Offerable(c)
    requires s'.popped == s.popped + [c] && s'.told == s.told + [answer]
    requires s'.sent == s.sent + (if answer == Took then [|s.popped|] else [])
    requires s'.pending.Some? <==> answer == Busy
    ensures TxTold(s')
  {
    var at := Offered(s.popped);
    OfferedPush(s.popped, c);
    FinalsPush(s.told, answer);
    ChosenMore(at, [|s.popped|], Finals(s.told));
    ChosenPush(at + [|s.popped|], Finals(s.told), answer);
    assert s.sent + [] == s.sent;
  }

  /** The held frame is offered again. */
  lemma AgainTold(s: Tx, s': Tx, answer: TapWrite)
    requires TxTold(s) && s.pending.Some? && s'.popped == s.popped && s'.told == s.told + [answer]
    requires s'.sent == s.sent + (if answer == Took then [|s.popped| - 1] else [])
    requires s'.pending.Some? <==> answer == Busy
    ensures TxTold(s')
  {
    var k := |s.popped| - 1;
    assert Offered(s.popped) == Offered(s.popped[..k]) + [k];
    FinalsPush(s.told, answer);
    ChosenPush(Offered(s.popped), Finals(s.told), answer);
    assert s.sent + [] == s.sent;
  }

  predicate TxInv(s: Tx) {
    TxHeads(s) && TxHeld(s) && TxFrames(s) && TxTold(s) && s.foreign <= 1 && s.foreign <= |s.popped|
  }

  lemma HeadsPush(cs: seq<TxChain>, c: TxChain)
    ensures Heads(cs + [c]) == Heads(cs) + [c.head]
  {
  }

  /** Popping a chain and completing it at once. */
  lemma PopComplete(s: Tx, c: TxChain, scratch: seq<u8>)
    requires TxInv(s) && s.pending == None && !Offerable(c)
    ensures TxInv(Complete(s.(popped := s.popped + [c], scratch := scratch), c.head))
  {
    HeadsPush(s.popped, c);
    assert Heads(s.popped) == s.completed;
    PassedTold(s, Complete(s.(popped := s.popped + [c], scratch := scratch), c.head), c);
  }

  /** Popping a chain the TAP takes. */
  lemma PopSend(s: Tx, c: TxChain, scratch: seq<u8>)
    requires TxInv(s) && s.pending == None && Offerable(c)
    ensures var s1 := Told(s.(popped := s.popped + [c], scratch := scratch), Took);
            TxInv(Complete(Sent(s1, c.bytes, |s.popped|), c.head))
  {
    HeadsPush(s.popped, c);
    assert Heads(s.popped) == s.completed;
    var s1 := Told(s.(popped := s.popped + [c], scratch := scratch), Took);
    OfferTold(s, Complete(Sent(s1, c.bytes, |s.popped|), c.head), c, Took);
  }

  /** Popping a chain the TAP refuses. */
  lemma PopFail(s: Tx, c: TxChain, scratch: seq<u8>)
    requires TxInv(s) && s.pending == None && Offerable(c)
    ensures TxInv(Complete(Told(s.(popped := s.popped + [c], scratch := scratch), Failed), c.head))
  {
    HeadsPush(s.popped, c);
    assert Heads(s.popped) == s.completed;
    OfferTold(s, Complete(Told(s.(popped := s.popped + [c], scratch := scratch), Failed), c.head), c, Failed);
    assert s.sent + [] == s.sent;
  }

  /** Popping a chain the TAP has no room for. */
  lemma PopHold(s: Tx, c: TxChain, scratch: seq<u8>)
    requires TxInv(s) && s.pending == None && Offerable(c) && c.bytes <= scratch
    ensures TxInv(Told(s.(popped := s.popped + [c], scratch := scratch), Busy).(pending := Some(PendingTx(c.head, |c.bytes|))))
  {
    HeadsPush(s.popped, c);
    assert Heads(s.popped) == s.completed;
    var s1 := Told(s.(popped := s.popped + [c], scratch := scratch), Busy).(pending := Some(PendingTx(c.head, |c.bytes|)));
    assert s.sent + [] == s.sent;
    OfferTold(s, s1, c, Busy);
  }

  lemma AvailIrrelevant(s: Tx, avail: seq<TxChain>)
    requires TxInv(s)
    ensures TxInv(s.(avail := avail))
  {
  }

  /** History grows, and what was popped or is still available is what there was. */
  predicate TxGrows(s: Tx, s': Tx) {
    && s.popped <= s'.popped && s.completed <= s'.completed && s.tap <= s'.tap && s.told <= s'.told
    && s.popped + s.avail == s'.popped + s'.avail && s'.foreign == s.foreign
  }

  lemma TxGrowsTransitive(a: Tx, b: Tx, c: Tx)
    requires TxGrows(a, b) && TxGrows(b, c)
    ensures TxGrows(a, c)
  {
  }

  lemma PopGrows(s: Tx, s': Tx)
    requires s.avail != [] && s'.avail == s.avail[1..] && s'.popped == s.popped + [s.avail[0]]
    requires s.completed <= s'.completed && s.tap <= s'.tap && s.told <= s'.told && s'.foreign == s.foreign
    ensures TxGrows(s, s')
  {
  }

  lemma {:induction false} TxLoopKeeps(s: Tx, taps: seq<TapWrite>, used: bool)
    requires TxInv(s) && s.pending == None
    ensures var r := TxLoop(s, taps, used);
            && TxInv(r.tx) && TxGrows(s, r.tx)
            && (r.used <==> used || |r.tx.completed| > |s.completed|)
            && (r.failed ==> r.used && r.tx.pending == None)
            && (!r.failed && r.tx.pending == None ==> r.tx.avail == [])
    decreases |s.avail|
  {
    if s.avail != [] {
      SendOneKeeps(s, taps);
      var r := SendOne(s, taps);
      if r.ended == Finished {
        TxLoopKeeps(r.tx, r.taps, true);
        TxGrowsTransitive(s, r.tx, TxLoop(r.tx, r.taps, true).tx);
      }
    }
  }

  lemma SendOneKeeps(s: Tx, taps: seq<TapWrite>)
    requires TxInv(s) && s.pending == None && s.avail != []
    ensures var r := SendOne(s, taps);
            && TxInv(r.tx) && TxGrows(s, r.tx)
            && (r.ended == Held <==> r.tx.pending.Some?)
            && |r.tx.completed| == |s.completed| + (if r.ended == Held then 0 else 1)
  {
    var c := s.avail[0];
    var s0 := s.(avail := s.avail[1..]);
    AvailIrrelevant(s, s.avail[1..]);
    var scratch := Loaded(s.scratch, c.bytes);
    PopGrows(s, SendOne(s, taps).tx);
    if Offerable(c) {
      match NextTap(taps)
      case Took => PopSend(s0, c, scratch);
      case Busy => PopHold(s0, c, scratch);
      case Failed => PopFail(s0, c, scratch);
    } else if c.fault == BadChain || |c.bytes| < NET_HDR_LEN {
      PopComplete(s0, c, s.scratch);
    } else {
      PopComplete(s0, c, scratch);
    }
  }

  /**
   Exactly-once TX: `process_tx` keeps heads popped equal to heads completed then the held one, sends no
   frame twice and none out of order, and reports work exactly when it completed a descriptor, errors included.
   */
  lemma ProcessTxKeeps(s: Tx, ready: bool, taps: seq<TapWrite>)
    requires TxInv(s)
    ensures var r := ProcessTx(s, ready, taps);
            && TxInv(r.tx)
            && (r.used <==> |r.tx.completed| > |s.completed|)
            && (ready ==> TxGrows(s, r.tx))
            && (ready && s.pending.Some? && !r.used ==> r.tx == s.(told := s.told + [Busy]))
            && (r.failed ==> r.used)
            && (ready && !r.failed && r.tx.pending == None ==> r.tx.avail == [])
  {
    if ready && s.pending == None {
      TxLoopKeeps(s, taps, false);
    } else if ready {
      match NextTap(taps)
      case Took => HeldTook(s, LaterTaps(taps));
      case Busy => HeldBusy(s);
      case Failed => HeldFails(s);
    }
  }

  lemma HeldBusy(s: Tx)
    requires TxInv(s) && s.pending.Some?
    ensures TxInv(Told(s, Busy))
  {
    assert s.sent + [] == s.sent;
    AgainTold(s, Told(s, Busy), Busy);
  }

  lemma HeldTook(s: Tx, taps: seq<TapWrite>)
    requires TxInv(s) && s.pending.Some?
    ensures var r := TxLoop(HeldAnswered(s, Took), taps, true);
            && TxInv(r.tx) && TxGrows(s, r.tx) && s.completed + [s.pending.value.head] <= r.tx.completed && r.used
            && (!r.failed && r.tx.pending == None ==> r.tx.avail == [])
  {
    HeldSent(s);
    TxLoopKeeps(HeldAnswered(s, Took), taps, true);
    TxGrowsTransitive(s, HeldAnswered(s, Took), TxLoop(HeldAnswered(s, Took), taps, true).tx);
  }

  /** The TAP takes the held frame. */
  lemma HeldSent(s: Tx)
    requires TxInv(s) && s.pending.Some?
    ensures TxInv(HeldAnswered(s, Took))
  {
    HeldWhole(s);
    RelievedFrames(s, HeldAnswered(s, Took));
    AgainTold(s, HeldAnswered(s, Took), Took);
  }

  lemma HeldWhole(s: Tx)
    requires TxHeads(s) && TxHeld(s) && s.pending.Some?
    ensures Front(s.scratch, s.pending.value.len) == s.popped[|s.popped| - 1].bytes
    ensures |s.popped| == |s.completed| + 1
  {
    assert |Heads(s.popped)| == |s.popped|;
  }

  lemma RelievedFrames(s: Tx, s': Tx)
    requires TxFrames(s) && |s.popped| == |s.completed| + 1 && s'.popped == s.popped
    requires |s'.completed| == |s.completed| + 1
    requires s'.sent == s.sent + [|s.popped| - 1] && s'.tap == s.tap + [s.popped[|s.popped| - 1].bytes]
    ensures TxFrames(s')
  {
  }

  /** The TAP refuses the held frame. */
  lemma HeldFails(s: Tx)
    requires TxInv(s) && s.pending.Some?
    ensures TxInv(Complete(Told(s, Failed).(pending := None), s.pending.value.head))
  {
    assert |s.popped| == |s.completed| + 1;
    assert s.sent + [] == s.sent;
    AgainTold(s, Complete(Told(s, Failed).(pending := None), s.pending.value.head), Failed);
  }

  lemma RenewKeeps(s: Tx)
    requires TxInv(s)
    ensures TxInv(RenewTx(s))
  {
    if s.pending.Some? {
      var c := s.popped[|s.popped| - 1];
      assert Heads(s.popped)[|s.popped| - 1] == s.pending.value.head;
      StrandedKeeps(RenewTx(s), c);
    }
  }

  /** A ring set up with one frame held. */
  lemma StrandedKeeps(s: Tx, c: TxChain)
    requires s.popped == [c] && Offerable(c) && s.completed == [] && s.tap == [] && s.sent == [] && s.told == []
    requires s.pending == Some(PendingTx(c.head, |c.bytes|)) && c.bytes <= s.scratch && s.foreign == 1
    ensures TxInv(s)
  {
    assert Heads(s.popped) == [c.head];
    OfferedPush([], c);
    assert [] + [c] == [c];
  }

  function CountTook(told: seq<TapWrite>): nat {
    if told == [] then 0 else CountTook(told[..|told| - 1]) + if told[|told| - 1] == Took then 1 else 0
  }

  lemma {:induction false} TookCount(at: seq<nat>, told: seq<TapWrite>)
    requires |Finals(told)| <= |at|
    ensures |Chosen(at, Finals(told))| == CountTook(told)
  {
    if told != [] {
      var k := |told| - 1;
      TookCount(at, told[..k]);
      if told[k] != Busy {
        ChosenPush(at, Finals(told[..k]), told[k]);
      }
    }
  }

  /**
   The frame popped at position `i` and completed reached the TAP if and only if it was one to send and the final answer
   for it, the one in its place among the final answers, was that the TAP took it.
   */
  lemma SentExactly(s: Tx, i: nat)
    requires TxInv(s) && i < |s.completed|
    ensures i < |s.popped|
    ensures i in s.sent <==>
              && Offerable(s.popped[i])
              && var rank := |Offered(s.popped[..i])|; rank < |Finals(s.told)| && Finals(s.told)[rank] == Took
  {
    assert |Heads(s.popped)| == |s.popped|;
    var at, finals := Offered(s.popped), Finals(s.told);
    OfferedOrder(s.popped);
    ChosenMember(at, finals, i);
    if Offerable(s.popped[i]) {
      OfferedAt(s.popped, i);
    }
  }

  lemma {:induction false} OfferedOrder(popped: seq<TxChain>)
    ensures forall k :: 0 <= k < |Offered(popped)| ==> Offered(popped)[k] < |popped| && Offerable(popped[Offered(popped)[k]])
    ensures forall j, k :: 0 <= j < k < |Offered(popped)| ==> Offered(popped)[j] < Offered(popped)[k]
  {
    if popped != [] {
      OfferedOrder(popped[..|popped| - 1]);
    }
  }

  lemma {:induction false} OfferedAt(popped: seq<TxChain>, i: nat)
    requires i < |popped| && Offerable(popped[i])
    ensures |Offered(popped[..i])| < |Offered(popped)| && Offered(popped)[|Offered(popped[..i])|] == i
  {
    var k := |popped| - 1;
    if i < k {
      OfferedAt(popped[..k], i);
      assert popped[..k][..i] == popped[..i];
    }
  }

  lemma {:induction false} ChosenMember(at: seq<nat>, finals: seq<TapWrite>, x: nat)
    requires |finals| <= |at|
    ensures x in Chosen(at, finals) <==> exists k :: 0 <= k < |finals| && finals[k] == Took && at[k] == x
  {
    if finals != [] {
      ChosenMember(at, finals[..|finals| - 1], x);
    }
  }

  // ---- what one pass asks of the TAP ----

  /** A chain that cannot be read, or not to the end. */
  predicate Faulty(c: TxChain) {
    c.fault == BadChain || (c.fault == BadRead && |c.bytes| >= NET_HDR_LEN)
  }

  /**
   A pass takes the TAP's answers in turn, goes on only after a frame was taken, holds a frame exactly if the last answer
   was "busy", and reports an error exactly if the last answer was one or the last chain was at fault.
   */
  predicate Telling(s: Tx, r: TxDone, taps: seq<TapWrite>) {
    && |s.told| <= |r.tx.told| <= |s.told| + |taps| + 1
    && var n, answers := |r.tx.told| - |s.told|, taps + [Busy];
       && r.tx.told == s.told + answers[..n]
       && (forall i :: 0 <= i < n - 1 ==> answers[i] == Took)
       && (r.tx.pending.Some? <==> n > 0 && answers[n - 1] == Busy)
       && (r.failed <==> || (n > 0 && answers[n - 1] == Failed)
                         || (|r.tx.popped| > |s.popped| && Faulty(r.tx.popped[|r.tx.popped| - 1])))
  }

  lemma TellingCons(s: Tx, s1: Tx, r: TxDone, taps: seq<TapWrite>)
    requires taps != [] && taps[0] == Took && s1.told == s.told + [Took] && Telling(s1, r, taps[1..])
    requires |s.popped| <= |s1.popped| <= |r.tx.popped|
    requires |s1.popped| > |s.popped| && |r.tx.popped| == |s1.popped| ==> !Faulty(s1.popped[|s1.popped| - 1])
    requires r.tx.popped[..|s1.popped|] == s1.popped
    ensures Telling(s, r, taps)
  {
    var n := |r.tx.told| - |s.told|;
    var answers := taps + [Busy];
    assert answers == [Took] + (taps[1..] + [Busy]);
    assert answers[..n] == [Took] + (taps[1..] + [Busy])[..n - 1];
    forall i | 0 <= i < n - 1 ensures answers[i] == Took {
      assert i > 0 ==> answers[i] == (taps[1..] + [Busy])[i - 1];
    }
    assert r.tx.told == s.told + answers[..n];
  }

  /** The answers of a pass that asks for at most one. */
  lemma TellingOne(s: Tx, r: TxDone, taps: seq<TapWrite>)
    requires r.tx.told == s.told || r.tx.told == s.told + [NextTap(taps)]
    requires r.tx.pending.Some? <==> r.tx.told != s.told && NextTap(taps) == Busy
    requires r.failed <==> || (r.tx.told != s.told && NextTap(taps) == Failed)
                           || (|r.tx.popped| > |s.popped| && Faulty(r.tx.popped[|r.tx.popped| - 1]))
    ensures Telling(s, r, taps)
  {
    var answers := taps + [Busy];
    assert answers[0] == NextTap(taps) && answers[..1] == [NextTap(taps)] && s.told + answers[..0] == s.told;
  }

  /** A chain that asks nothing of the TAP and is not at fault. */
  lemma TellingPass(s: Tx, s1: Tx, r: TxDone, taps: seq<TapWrite>)
    requires s1.told == s.told && Telling(s1, r, taps)
    requires |s1.popped| == |s.popped| + 1 && !Faulty(s1.popped[|s.popped|]) && s1.popped <= r.tx.popped
    ensures Telling(s, r, taps)
  {
  }

  lemma {:induction false} TxLoopTells(s: Tx, taps: seq<TapWrite>, used: bool)
    requires s.pending == None
    ensures Telling(s, TxLoop(s, taps, used), taps) && s.popped <= TxLoop(s, taps, used).tx.popped
    decreases |s.avail|
  {
    var r := TxLoop(s, taps, used);
    if s.avail == [] {
      TellingOne(s, r, taps);
    } else {
      var o := SendOne(s, taps);
      if o.ended != Finished {
        TellingOne(s, r, taps);
      } else {
        TxLoopTells(o.tx, o.taps, true);
        if Offerable(s.avail[0]) {
          TellingCons(s, o.tx, r, taps);
        } else {
          TellingPass(s, o.tx, r, taps);
        }
      }
    }
  }

  /** For every pass on a ready queue. */
  lemma ProcessTxTells(s: Tx, taps: seq<TapWrite>)
    requires s.pending.Some? ==> s.popped != []
    ensures Telling(s, ProcessTx(s, true, taps), taps)
  {
    if s.pending == None {
      TxLoopTells(s, taps, false);
    } else if NextTap(taps) != Took {
      TellingOne(s, ProcessTx(s, true, taps), taps);
    } else {
      var s1 := HeldAnswered(s, Took);
      TxLoopTells(s1, LaterTaps(taps), true);
      TellingCons(s, s1, ProcessTx(s, true, taps), taps);
    }
  }
}
