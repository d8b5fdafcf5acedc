/** virtio-net, TAP to guest: at most one frame is held while the guest offers no buffer. */
module NetRx {
  import opened Machine
  import opened NetTx

  const MAX_FRAME: nat := 65536 + 18 + 12

  // ---- TAP to guest ----

  datatype RxChain = RxChain(head: u16, size: nat)

  /** Result of one TAP read: a frame, nothing to read, or an error. */
  datatype TapRead = Frame(bytes: seq<u8>) | Nothing | ReadFailed

  /**
   What became of a frame: delivered in a chain, or dropped, with the reason. Without a buffer, that is the chains tried,
   how many had been popped by then, and how many were left.
   */
  datatype Fate = Delivered(head: u16, frame: seq<u8>) | NoBuffer(ring: seq<RxChain>, upTo: nat, left: nat) | QueueDown

  datatype Used = Used(head: u16, len: nat)

  /** `popped`, `used`, `frames`, `fates` and `heard` are history, across set-ups of the queue. */
  datatype Rx = Rx(
    avail: seq<RxChain>, scratch: seq<u8>, pendingLen: Option<nat>,
    popped: seq<RxChain>, used: seq<Used>, frames: seq<seq<u8>>, fates: seq<Fate>,
    heard: seq<TapRead>)   // every answer the TAP gave to a read

  datatype RxDone = RxDone(rx: Rx, used: bool, failed: bool)

  /** The loop of `flush_pending_rx`; `ring` collects the chains given back empty. */
  function FlushLoop(s: Rx, len: nat, ring: seq<RxChain>): Rx
    decreases |s.avail|
  {
    if s.avail == [] then
      if ring == [] then s else s.(pendingLen := None, fates := s.fates + [NoBuffer(ring, |s.popped|, |s.avail|)])
    else
      var c := s.avail[0];
      var s1 := s.(avail := s.avail[1..], popped := s.popped + [c]);
      if c.size < len then FlushLoop(s1.(used := s1.used + [Used(c.head, 0)]), len, ring + [c])
      else s1.(pendingLen := None, used := s1.used + [Used(c.head, len)],
               fates := s1.fates + [Delivered(c.head, Front(s.scratch, len))])
  }

  function FlushPending(s: Rx): RxDone {
    if s.pendingLen == None then RxDone(s, false, false)
    else
      var r := FlushLoop(s, s.pendingLen.value, []);
      RxDone(r, s.avail != [], false)
  }

  function Received(s: Rx, frame: seq<u8>): Rx {
    s.(scratch := frame + (if |frame| < |s.scratch| then s.scratch[|frame|..] else []),
       pendingLen := Some(|frame|), frames := s.frames + [frame])
  }

  /** The answer to one more read. */
  function Answered(s: Rx, tap: TapRead): Rx {
    s.(heard := s.heard + [tap])
  }

  /** What the device sees of an answer; an empty frame is the end of what there is. */
  function FrameOf(tap: TapRead): seq<u8> {
    if tap.Frame? then Front(tap.bytes, MAX_FRAME) else []
  }

  /** The frames among the TAP's answers, in order: those of at least 12 bytes, cut to 65566, the buffer's size. */
  function Frames(heard: seq<TapRead>): (frames: seq<seq<u8>>) {
    if heard == [] then []
    else
      var k := |heard| - 1;
      if heard[k].Frame? && |heard[k].bytes| >= 12 then
        Frames(heard[..k]) + [if |heard[k].bytes| > 65566 then heard[k].bytes[..65566] else heard[k].bytes]
      else Frames(heard[..k])
  }

  /** The reading loop of `process_rx`: it is only ever entered with no frame held. */
  function RxLoop(s: Rx, taps: seq<TapRead>, used: bool): RxDone
    requires s.pendingLen == None
    decreases |taps|
  {
    if taps == [] then RxDone(s, used, false)
    else
      var s1, frame := Answered(s, taps[0]), FrameOf(taps[0]);
      if frame == [] then RxDone(s1, used, taps[0].ReadFailed?)
      else if |frame| < NET_HDR_LEN then RxLoop(s1, taps[1..], used)
      else
        var r := FlushPending(Received(s1, frame));
        if r.rx.pendingLen.Some? then RxDone(r.rx, used || r.used, false)
        else RxLoop(r.rx, taps[1..], used || r.used)
  }

  function ProcessRx(s: Rx, ready: bool, taps: seq<TapRead>): RxDone {
    if !ready then
      RxDone(if s.pendingLen.Some? then s.(pendingLen := None, fates := s.fates + [QueueDown]) else s, false, false)
    else
      var r := FlushPending(s);
      if r.rx.pendingLen.Some? then RxDone(r.rx, r.used, false)
      else RxLoop(r.rx, taps, r.used)
  }

  /** Every chain popped went back once, in order, never with more than it holds. */
  predicate RxChains(s: Rx) {
    && |s.used| == |s.popped|
    && forall i :: 0 <= i < |s.used| ==> s.used[i].head == s.popped[i].head && s.used[i].len <= s.popped[i].size
  }

  /** A frame delivered is the frame read; one dropped met at least one chain, all too small and none left to try. */
  predicate FateOk(frame: seq<u8>, fate: Fate, popped: seq<RxChain>) {
    match fate
    case Delivered(_, f) => f == frame
    case NoBuffer(ring, upTo, left) =>
      && ring != [] && (forall i :: 0 <= i < |ring| ==> ring[i].size < |frame|)
      && |ring| <= upTo <= |popped| && popped[upTo - |ring|..upTo] == ring && left == 0
    case QueueDown => true
  }

  lemma FateStays(frame: seq<u8>, fate: Fate, popped: seq<RxChain>, more: seq<RxChain>)
    requires FateOk(frame, fate, popped) && popped <= more
    ensures FateOk(frame, fate, more)
  {
    if fate.NoBuffer? {
      assert more[fate.upTo - |fate.ring|..fate.upTo] == popped[fate.upTo - |fate.ring|..fate.upTo];
    }
  }

  /** Each frame read has one fate, in read order; only the last may still be held, whole, in the scratch buffer. */
  predicate RxFrames(s: Rx) {
    && |s.frames| == |s.fates| + (if s.pendingLen.Some? then 1 else 0)
    && (forall i :: 0 <= i < |s.frames| ==> NET_HDR_LEN <= |s.frames[i]|)
    && (forall i :: 0 <= i < |s.fates| ==> FateOk(s.frames[i], s.fates[i], s.popped))
    && (s.pendingLen.Some? ==>
          var frame := s.frames[|s.frames| - 1]; s.pendingLen.value == |frame| && frame <= s.scratch)
  }

  /** The chains returned with data, and the frames delivered, as (head, length) in order. */
  function Filled(used: seq<Used>): seq<Used> {
    if used == [] then []
    else
      var u := used[|used| - 1];
      if u.len == 0 then Filled(used[..|used| - 1]) else Filled(used[..|used| - 1]) + [u]
  }

  function Deliveries(fates: seq<Fate>): seq<Used> {
    if fates == [] then []
    else
      var f := fates[|fates| - 1];
      var before := Deliveries(fates[..|fates| - 1]);
      if f.Delivered? then before + [Used(f.head, |f.frame|)] else before
  }

  predicate RxInv(s: Rx) {
    RxChains(s) && RxFrames(s) && Filled(s.used) == Deliveries(s.fates) && s.frames == Frames(s.heard)
  }

  lemma FramesPush(heard: seq<TapRead>, tap: TapRead)
    ensures Frames(heard + [tap]) ==
              if |FrameOf(tap)| < NET_HDR_LEN then Frames(heard) else Frames(heard) + [FrameOf(tap)]
  {
    assert (heard + [tap])[..|heard|] == heard;
    assert tap.Frame? && |tap.bytes| == MAX_FRAME ==> tap.bytes[..MAX_FRAME] == tap.bytes;
  }

  lemma FilledPush(used: seq<Used>, u: Used)
    ensures Filled(used + [u]) == if u.len == 0 then Filled(used) else Filled(used) + [u]
  {
    assert (used + [u])[..|used|] == used;
  }

  lemma DeliveriesPush(fates: seq<Fate>, f: Fate)
    ensures Deliveries(fates + [f]) ==
              if f.Delivered? then Deliveries(fates) + [Used(f.head, |f.frame|)] else Deliveries(fates)
  {
    assert (fates + [f])[..|fates|] == fates;
  }

  function FirstFit(avail: seq<RxChain>, len: nat): (i: nat)
    ensures i <= |avail|
    ensures forall j :: 0 <= j < i ==> avail[j].size < len
    ensures i < |avail| ==> avail[i].size >= len
  {
    if avail == [] || avail[0].size >= len then 0 else 1 + FirstFit(avail[1..], len)
  }

  /** Returned chains of the prefix that did not fit. */
  function Empties(cs: seq<RxChain>): (r: seq<Used>)
    ensures |r| == |cs| && forall i :: 0 <= i < |cs| ==> r[i] == Used(cs[i].head, 0)
  {
    seq(|cs|, i requires 0 <= i < |cs| => Used(cs[i].head, 0))
  }

  /**
   Hold, deliver or drop: the frame is held exactly when the ring is empty, goes into the first chain
   large enough, and is dropped exactly when a non-empty ring holds none; smaller chains before that go
   back empty, later ones stay.
   */
  lemma {:induction false} FlushDecides(s: Rx, len: nat, ring: seq<RxChain>)
    ensures var k := FirstFit(s.avail, len);
            var r := FlushLoop(s, len, ring);
            if k < |s.avail| then
              r == s.(avail := s.avail[k + 1..], popped := s.popped + s.avail[..k + 1], pendingLen := None,
                      used := s.used + Empties(s.avail[..k]) + [Used(s.avail[k].head, len)],
                      fates := s.fates + [Delivered(s.avail[k].head, Front(s.scratch, len))])
            else
              var s1 := s.(avail := [], popped := s.popped + s.avail, used := s.used + Empties(s.avail));
              r == if ring + s.avail == [] then s1
                   else s1.(pendingLen := None, fates := s.fates + [NoBuffer(ring + s.avail, |s1.popped|, 0)])
    decreases |s.avail|
  {
    if s.avail == [] {
      assert ring + s.avail == ring && s.popped + s.avail == s.popped && s.used + Empties(s.avail) == s.used;
    } else if s.avail[0].size < len {
      var c := s.avail[0];
      var s1 := s.(avail := s.avail[1..], popped := s.popped + [c], used := s.used + [Used(c.head, 0)]);
      FlushDecides(s1, len, ring + [c]);
      FlushSkip(s, len, ring);
    } else {
      assert s.avail[..0] == [] && s.used + Empties([]) == s.used && s.avail[..1] == [s.avail[0]];
    }
  }

  lemma FlushSkip(s: Rx, len: nat, ring: seq<RxChain>)
    requires s.avail != [] && s.avail[0].size < len
    ensures var c := s.avail[0];
            var k := FirstFit(s.avail, len);
            && k == 1 + FirstFit(s.avail[1..], len)
            && (s.popped + [c]) + s.avail[1..] == s.popped + s.avail
            && (ring + [c]) + s.avail[1..] == ring + s.avail
            && (s.used + [Used(c.head, 0)]) + Empties(s.avail[1..]) == s.used + Empties(s.avail)
            && (k < |s.avail| ==>
                  && (s.popped + [c]) + s.avail[1..][..k] == s.popped + s.avail[..k + 1]
                  && s.avail[1..][k..] == s.avail[k + 1..]
                  && s.avail[1..][k - 1] == s.avail[k]
                  && (s.used + [Used(c.head, 0)]) + Empties(s.avail[1..][..k - 1]) == s.used + Empties(s.avail[..k]))
  {
    var c := s.avail[0];
    var tail := s.avail[1..];
    var k := FirstFit(s.avail, len);
    ConsPrefix(s.avail, |s.avail|);
    Regroup(s.popped, c, tail);
    Regroup(ring, c, tail);
    Regroup(s.used, Used(c.head, 0), Empties(tail));
    EmptiesCons(c, tail);
    if k < |s.avail| {
      ConsPrefix(s.avail, k);
      ConsPrefix(s.avail, k + 1);
      Regroup(s.popped, c, tail[..k]);
      Regroup(s.used, Used(c.head, 0), Empties(tail[..k - 1]));
      EmptiesCons(c, tail[..k - 1]);
    }
  }

  lemma Regroup<T>(a: seq<T>, x: T, b: seq<T>)
    ensures (a + [x]) + b == a + ([x] + b)
  {
  }

  lemma ConsPrefix(cs: seq<RxChain>, k: nat)
    requires 0 < k <= |cs|
    ensures cs[..k] == [cs[0]] + cs[1..][..k - 1]
    ensures cs[1..][k - 1..] == cs[k..]
    ensures cs == [cs[0]] + cs[1..]
  {
  }

  lemma EmptiesCons(c: RxChain, cs: seq<RxChain>)
    ensures Empties([c] + cs) == [Used(c.head, 0)] + Empties(cs)
  {
  }

  // ---- RX invariant ----

  predicate LastPopped(s: Rx, ring: seq<RxChain>) {
    |ring| <= |s.popped| && s.popped[|s.popped| - |ring|..] == ring
  }

  lemma {:induction false} FlushLoopKeeps(s: Rx, len: nat, ring: seq<RxChain>)
    requires RxInv(s) && s.pendingLen == Some(len)
    requires LastPopped(s, ring) && forall i :: 0 <= i < |ring| ==> ring[i].size < len
    ensures RxInv(FlushLoop(s, len, ring))
    decreases |s.avail|
  {
    if s.avail == [] {
      if ring != [] {
        DropKeeps(s, len, ring);
      }
    } else {
      var c := s.avail[0];
      var s0 := s.(avail := s.avail[1..]);
      if c.size < len {
        SkipKeeps(s0, c);
        assert s.popped + [c] == s.popped[..|s.popped| - |ring|] + (ring + [c]);
        FlushLoopKeeps(s0.(popped := s.popped + [c], used := s.used + [Used(c.head, 0)]), len, ring + [c]);
      } else {
        GiveKeeps(s0, len, c);
      }
    }
  }

  lemma DropKeeps(s: Rx, len: nat, ring: seq<RxChain>)
    requires RxInv(s) && s.pendingLen == Some(len) && ring != []
    requires LastPopped(s, ring) && forall i :: 0 <= i < |ring| ==> ring[i].size < len
    ensures RxInv(s.(pendingLen := None, fates := s.fates + [NoBuffer(ring, |s.popped|, 0)]))
  {
    DeliveriesPush(s.fates, NoBuffer(ring, |s.popped|, 0));
  }

  lemma SkipKeeps(s: Rx, c: RxChain)
    requires RxInv(s)
    ensures RxInv(s.(popped := s.popped + [c], used := s.used + [Used(c.head, 0)]))
  {
    FilledPush(s.used, Used(c.head, 0));
    var s1 := s.(popped := s.popped + [c], used := s.used + [Used(c.head, 0)]);
    GiveChains(s, s1, 0, c);
    SameFrames(s, s1);
  }

  lemma SameFrames(s: Rx, s': Rx)
    requires RxFrames(s) && s'.frames == s.frames && s'.fates == s.fates
    requires s'.pendingLen == s.pendingLen && s'.scratch == s.scratch && s.popped <= s'.popped
    ensures RxFrames(s')
  {
    FatesStay(s, s'.popped);
  }

  lemma FatesStay(s: Rx, more: seq<RxChain>)
    requires RxFrames(s) && s.popped <= more
    ensures forall i :: 0 <= i < |s.fates| ==> FateOk(s.frames[i], s.fates[i], more)
  {
    forall i | 0 <= i < |s.fates| ensures FateOk(s.frames[i], s.fates[i], more) {
      FateStays(s.frames[i], s.fates[i], s.popped, more);
    }
  }

  lemma GiveKeeps(s: Rx, len: nat, c: RxChain)
    requires RxInv(s) && s.pendingLen == Some(len) && len <= c.size
    ensures RxInv(s.(popped := s.popped + [c], pendingLen := None, used := s.used + [Used(c.head, len)],
                     fates := s.fates + [Delivered(c.head, Front(s.scratch, len))]))
  {
    HeldFrame(s, len);
    var frame := s.frames[|s.frames| - 1];
    var s1 := s.(popped := s.popped + [c], pendingLen := None, used := s.used + [Used(c.head, len)],
                 fates := s.fates + [Delivered(c.head, frame)]);
    GiveChains(s, s1, len, c);
    GiveFrames(s, s1, c);
    GiveCounts(s.used, s.fates, c.head, frame);
  }

  lemma HeldFrame(s: Rx, len: nat)
    requires RxFrames(s) && s.pendingLen == Some(len)
    ensures s.frames != [] && Front(s.scratch, len) == s.frames[|s.frames| - 1]
    ensures len == |s.frames[|s.frames| - 1]| >= NET_HDR_LEN
  {
  }

  lemma GiveChains(s: Rx, s': Rx, len: nat, c: RxChain)
    requires RxChains(s) && len <= c.size
    requires s'.popped == s.popped + [c] && s'.used == s.used + [Used(c.head, len)]
    ensures RxChains(s')
  {
  }

  lemma GiveFrames(s: Rx, s': Rx, c: RxChain)
    requires RxFrames(s) && s.pendingLen.Some? && s'.pendingLen == None
    requires s'.frames == s.frames && s'.fates == s.fates + [Delivered(c.head, s.frames[|s.frames| - 1])]
    requires s.popped <= s'.popped
    ensures RxFrames(s')
  {
    FatesStay(s, s'.popped);
  }

  lemma GiveCounts(used: seq<Used>, fates: seq<Fate>, head: u16, frame: seq<u8>)
    requires Filled(used) == Deliveries(fates) && frame != []
    ensures Filled(used + [Used(head, |frame|)]) == Deliveries(fates + [Delivered(head, frame)])
  {
    FilledPush(used, Used(head, |frame|));
    DeliveriesPush(fates, Delivered(head, frame));
  }

  /** What one RX call may do to the history. */
  predicate RxGrows(s: Rx, s': Rx) {
    && s.heard <= s'.heard && s.popped <= s'.popped && s.used <= s'.used && s.fates <= s'.fates && s.frames <= s'.frames
    && s.popped + s.avail == s'.popped + s'.avail
  }

  lemma RxGrowsTransitive(a: Rx, b: Rx, c: Rx)
    requires RxGrows(a, b) && RxGrows(b, c)
    ensures RxGrows(a, c)
  {
  }

  lemma RxPopGrows(s: Rx, s': Rx)
    requires s.avail != [] && s'.avail == s.avail[1..] && s'.popped == s.popped + [s.avail[0]]
    requires s.used <= s'.used && s.fates <= s'.fates && s'.frames == s.frames && s'.heard == s.heard
    ensures RxGrows(s, s')
  {
  }

  lemma {:induction false} FlushLoopGrows(s: Rx, len: nat, ring: seq<RxChain>)
    ensures var r := FlushLoop(s, len, ring);
            && RxGrows(s, r) && r.frames == s.frames && r.heard == s.heard
            && (s.avail != [] <==> |r.used| > |s.used|)
            && (r.pendingLen.Some? ==> r == s)
            && (s.pendingLen.Some? ==> (r.pendingLen.Some? <==> s.avail == [] && ring == []))
    decreases |s.avail|
  {
    if s.avail != [] {
      var c := s.avail[0];
      var s1 := s.(avail := s.avail[1..], popped := s.popped + [c]);
      var r := FlushLoop(s, len, ring);
      if c.size < len {
        var s2 := s1.(used := s1.used + [Used(c.head, 0)]);
        RxPopGrows(s, s2);
        FlushLoopGrows(s2, len, ring + [c]);
        RxGrowsTransitive(s, s2, r);
        FlushLoopDecided(s2, len, ring + [c]);
      } else {
        RxPopGrows(s, r);
      }
    }
  }

  lemma {:induction false} FlushLoopDecided(s: Rx, len: nat, ring: seq<RxChain>)
    requires ring != []
    ensures FlushLoop(s, len, ring).pendingLen == None
    decreases |s.avail|
  {
    if s.avail != [] && s.avail[0].size < len {
      var c := s.avail[0];
      var s1 := s.(avail := s.avail[1..], popped := s.popped + [c], used := s.used + [Used(c.head, 0)]);
      FlushLoopDecided(s1, len, ring + [c]);
    }
  }

  lemma FlushPendingGrows(s: Rx)
    ensures var r := FlushPending(s);
            && RxGrows(s, r.rx) && r.rx.frames == s.frames && r.rx.heard == s.heard
            && (r.used <==> |r.rx.used| > |s.used|)
            && (r.rx.pendingLen.Some? ==> r.rx == s)
            && (r.rx.pendingLen.Some? <==> s.pendingLen.Some? && s.avail == [])
  {
    if s.pendingLen.Some? {
      FlushLoopGrows(s, s.pendingLen.value, []);
    }
  }

  lemma FlushPendingKeeps(s: Rx)
    requires RxInv(s)
    ensures RxInv(FlushPending(s).rx)
  {
    if s.pendingLen.Some? {
      FlushLoopKeeps(s, s.pendingLen.value, []);
    }
  }

  /** An answer of the TAP that is no frame. */
  lemma AnsweredKeeps(s: Rx, tap: TapRead)
    requires RxInv(s) && |FrameOf(tap)| < NET_HDR_LEN
    ensures RxInv(Answered(s, tap)) && RxGrows(s, Answered(s, tap))
  {
    FramesPush(s.heard, tap);
    SameFrames(s, Answered(s, tap));
  }

  lemma ReceivedKeeps(s: Rx, tap: TapRead)
    requires RxInv(s) && s.pendingLen == None && |FrameOf(tap)| >= NET_HDR_LEN
    ensures RxInv(Received(Answered(s, tap), FrameOf(tap)))
  {
    FramesPush(s.heard, tap);
  }

  /** One frame read and offered to the ring. */
  lemma FrameKeeps(s: Rx, tap: TapRead)
    requires RxInv(s) && s.pendingLen == None && |FrameOf(tap)| >= NET_HDR_LEN
    ensures var r := FlushPending(Received(Answered(s, tap), FrameOf(tap)));
            && RxInv(r.rx) && RxGrows(s, r.rx) && r.rx.heard == s.heard + [tap]
            && (r.used <==> |r.rx.used| > |s.used|)
  {
    var s1 := Received(Answered(s, tap), FrameOf(tap));
    ReceivedKeeps(s, tap);
    FlushPendingKeeps(s1);
    FlushPendingGrows(s1);
    RxGrowsTransitive(s, s1, FlushPending(s1).rx);
  }

  lemma {:induction false} RxLoopKeeps(s: Rx, taps: seq<TapRead>, used: bool)
    requires RxInv(s) && s.pendingLen == None
    ensures var r := RxLoop(s, taps, used);
            && RxInv(r.rx) && RxGrows(s, r.rx)
            && (r.used <==> used || |r.rx.used| > |s.used|)
    decreases |taps|
  {
    if taps != [] {
      var s1, frame := Answered(s, taps[0]), FrameOf(taps[0]);
      if |frame| < NET_HDR_LEN {
        AnsweredKeeps(s, taps[0]);
        if frame != [] {
          RxLoopKeeps(s1, taps[1..], used);
          RxGrowsTransitive(s, s1, RxLoop(s, taps, used).rx);
        }
      } else {
        FrameKeeps(s, taps[0]);
        var r := FlushPending(Received(s1, frame));
        if r.rx.pendingLen == None {
          RxLoopKeeps(r.rx, taps[1..], used || r.used);
          RxGrowsTransitive(s, r.rx, RxLoop(s, taps, used).rx);
        }
      }
    }
  }

  /** The answer is a frame, however short. */
  predicate Carries(tap: TapRead) {
    tap.Frame? && tap.bytes != []
  }

  /** The loop read a first part of `taps`, up to the first empty answer or the frame it had to hold. */
  predicate Reading(s: Rx, s': Rx, taps: seq<TapRead>) {
    && |s.heard| <= |s'.heard| <= |s.heard| + |taps|
    && var n := |s'.heard| - |s.heard|;
       && s'.heard == s.heard + taps[..n]
       && (n < |taps| ==> s'.pendingLen.Some? || (n > 0 && !Carries(taps[n - 1])))
       && (forall i :: 0 <= i < n - 1 ==> Carries(taps[i]))
  }

  lemma ReadingCons(s: Rx, s1: Rx, s': Rx, taps: seq<TapRead>)
    requires taps != [] && s1.heard == s.heard + [taps[0]] && Carries(taps[0]) && Reading(s1, s', taps[1..])
    ensures Reading(s, s', taps)
  {
    var n := |s'.heard| - |s.heard|;
    assert taps[..n] == [taps[0]] + taps[1..][..n - 1];
    forall i | 0 <= i < n - 1 ensures Carries(taps[i]) {
      assert i > 0 ==> taps[i] == taps[1..][i - 1];
    }
  }

  lemma {:induction false} RxLoopReads(s: Rx, taps: seq<TapRead>, used: bool)
    requires s.pendingLen == None
    ensures Reading(s, RxLoop(s, taps, used).rx, taps)
    decreases |taps|
  {
    if taps == [] {
      assert s.heard + taps[..0] == s.heard;
    } else {
      var s1, frame := Answered(s, taps[0]), FrameOf(taps[0]);
      assert taps[..1] == [taps[0]];
      if frame != [] && |frame| < NET_HDR_LEN {
        RxLoopReads(s1, taps[1..], used);
        ReadingCons(s, s1, RxLoop(s, taps, used).rx, taps);
      } else if frame != [] {
        FlushPendingGrows(Received(s1, frame));
        var r := FlushPending(Received(s1, frame));
        if r.rx.pendingLen == None {
          RxLoopReads(r.rx, taps[1..], used || r.used);
          ReadingCons(s, r.rx, RxLoop(s, taps, used).rx, taps);
        }
      }
    }
  }

  lemma {:induction false} RxLoopFails(s: Rx, taps: seq<TapRead>, used: bool)
    requires s.pendingLen == None
    ensures var r := RxLoop(s, taps, used);
            && s.heard <= r.rx.heard
            && (r.failed <==> |r.rx.heard| > |s.heard| && r.rx.heard[|r.rx.heard| - 1].ReadFailed?)
    decreases |taps|
  {
    if taps != [] {
      var s1, frame := Answered(s, taps[0]), FrameOf(taps[0]);
      if 0 < |frame| < NET_HDR_LEN {
        RxLoopFails(s1, taps[1..], used);
      } else if frame != [] {
        FlushPendingGrows(Received(s1, frame));
        var r := FlushPending(Received(s1, frame));
        if r.rx.pendingLen == None {
          RxLoopFails(r.rx, taps[1..], used || r.used);
        }
      }
    }
  }

  /** A pass reads the TAP if the queue is ready and no frame stays held, and then as long as there is anything to read. */
  lemma ProcessRxReads(s: Rx, ready: bool, taps: seq<TapRead>)
    ensures var s' := ProcessRx(s, ready, taps).rx;
            && (if ready && (s.pendingLen == None || s.avail != []) then Reading(s, s', taps) else s'.heard == s.heard)
            && (ProcessRx(s, ready, taps).failed <==>
                  |s'.heard| > |s.heard| && s'.heard[|s'.heard| - 1].ReadFailed?)
  {
    if ready {
      FlushPendingGrows(s);
      var r := FlushPending(s);
      if r.rx.pendingLen == None {
        RxLoopReads(r.rx, taps, r.used);
        RxLoopFails(r.rx, taps, r.used);
      }
    }
  }

  // ---- frames lost to a queue that went down ----

  function CountDown(fates: seq<Fate>): nat {
    if fates == [] then 0
    else CountDown(fates[..|fates| - 1]) + (if fates[|fates| - 1] == QueueDown then 1 else 0)
  }

  lemma CountDownPush(fates: seq<Fate>, fate: Fate)
    ensures CountDown(fates + [fate]) == CountDown(fates) + if fate == QueueDown then 1 else 0
  {
    assert (fates + [fate])[..|fates|] == fates;
  }

  lemma {:induction false} FlushLoopDown(s: Rx, len: nat, ring: seq<RxChain>)
    ensures CountDown(FlushLoop(s, len, ring).fates) == CountDown(s.fates)
    decreases |s.avail|
  {
    if s.avail == [] {
      CountDownPush(s.fates, NoBuffer(ring, |s.popped|, 0));
    } else {
      var c := s.avail[0];
      var s1 := s.(avail := s.avail[1..], popped := s.popped + [c]);
      if c.size < len {
        FlushLoopDown(s1.(used := s1.used + [Used(c.head, 0)]), len, ring + [c]);
      } else {
        CountDownPush(s.fates, Delivered(c.head, Front(s.scratch, len)));
      }
    }
  }

  lemma FlushPendingDown(s: Rx)
    ensures CountDown(FlushPending(s).rx.fates) == CountDown(s.fates)
  {
    if s.pendingLen.Some? {
      FlushLoopDown(s, s.pendingLen.value, []);
    }
  }

  lemma {:induction false} RxLoopDown(s: Rx, taps: seq<TapRead>, used: bool)
    requires s.pendingLen == None
    ensures CountDown(RxLoop(s, taps, used).rx.fates) == CountDown(s.fates)
    decreases |taps|
  {
    if taps != [] {
      var s1, frame := Answered(s, taps[0]), FrameOf(taps[0]);
      if 0 < |frame| < NET_HDR_LEN {
        RxLoopDown(s1, taps[1..], used);
      } else if frame != [] {
        FlushPendingDown(Received(s1, frame));
        var r := FlushPending(Received(s1, frame));
        if r.rx.pendingLen == None {
          RxLoopDown(r.rx, taps[1..], used || r.used);
        }
      }
    }
  }

  /** A pass drops a frame for a queue that is down exactly if it finds one held and the queue not ready. */
  lemma ProcessRxDown(s: Rx, ready: bool, taps: seq<TapRead>)
    ensures CountDown(ProcessRx(s, ready, taps).rx.fates)
            == CountDown(s.fates) + if !ready && s.pendingLen.Some? then 1 else 0
  {
    if !ready {
      CountDownPush(s.fates, QueueDown);
    } else {
      FlushPendingDown(s);
      var r := FlushPending(s);
      if r.rx.pendingLen == None {
        RxLoopDown(r.rx, taps, r.used);
      }
    }
  }

  /**
   RX: every frame read meets one fate in read order, delivered whole or dropped for a recorded reason;
   every chain popped is returned once; the flag says exactly whether one was. A frame is never read
   while one is held: the held frame and everything read so far are untouched until it leaves.
   */
  lemma ProcessRxKeeps(s: Rx, ready: bool, taps: seq<TapRead>)
    requires RxInv(s)
    ensures var r := ProcessRx(s, ready, taps);
            && RxInv(r.rx) && RxGrows(s, r.rx)
            && (r.used <==> |r.rx.used| > |s.used|)
            && (ready && s.pendingLen.Some? && s.avail == [] ==> r.rx == s)
            && (!ready ==> r.rx.pendingLen == None)
  {
    if !ready {
      DeliveriesPush(s.fates, QueueDown);
    } else {
      FlushPendingKeeps(s);
      FlushPendingGrows(s);
      var r := FlushPending(s);
      if r.rx.pendingLen == None {
        RxLoopKeeps(r.rx, taps, r.used);
        RxGrowsTransitive(s, r.rx, RxLoop(r.rx, taps, r.used).rx);
      }
    }
  }

  lemma RenewRxKeeps(s: Rx)
    requires RxInv(s)
    ensures RxInv(s.(avail := []))
  {
    SameFrames(s, s.(avail := []));
  }
}
