/**
 The order of the bytes a host socket sends towards the guest. Bytes read while older ones are stashed can
 overtake them, and bytes beyond the stash are discarded; this module says exactly when neither happens,
 and that the stream then comes through whole.
 */
module MuxOrder {
  import opened Machine
  import opened Wire
  import opened MuxSpec
  import opened MuxQueues
  import opened MuxInvariant
  import opened MuxRuns
  import opened MuxTheorems
  import opened MuxEffects

  /** Everything taken from the host so far and not discarded: queued for the guest, then stashed. */
  function Taken(c: Conn): seq<u8> {
    c.log.queued + c.prefetched
  }

  /** How many of `n` bytes just read go to the guest at once. */
  function Share(c: Conn, n: nat): nat {
    if CanSend(c) then Min(n, PeerAvail(c)) else 0
  }

  /** How many of them are kept at all. */
  function Kept(c: Conn, n: nat): nat {
    Share(c, n) + Min(n - Share(c, n), SatSub(MAX_PREFETCH, |c.prefetched|))
  }

  /** `ingest` appends `data` to the stream, all of it and in order. */
  predicate Appends(s: State, f: Flow, data: seq<u8>) {
    && f in s.conns && f in Ingest(s, f, data).conns
    && Taken(Ingest(s, f, data).conns[f]) == Taken(s.conns[f]) + data
  }

  /** Nothing stashed can be overtaken by `n` new bytes, and the part without credit fits the stash. */
  predicate InOrder(c: Conn, n: nat) {
    (Share(c, n) == 0 || c.prefetched == []) && Kept(c, n) == n
  }

  // ---- one read ----

  /** The queue and the stash after `data` was read. */
  predicate AfterRead(c: Conn, data: seq<u8>, c': Conn) {
    && c'.log.queued == c.log.queued + data[..Share(c, |data|)]
    && c'.prefetched == c.prefetched + data[Share(c, |data|)..Kept(c, |data|)]
  }

  lemma IngestReads(s: State, f: Flow, data: seq<u8>)
    requires f in s.conns
    ensures f in Ingest(s, f, data).conns && AfterRead(s.conns[f], data, Ingest(s, f, data).conns[f])
  {
    var c := s.conns[f];
    if data == [] {
      assert c.log.queued + data == c.log.queued && c.prefetched + data == c.prefetched;
    } else {
      var k := Share(c, |data|);
      IngestConn(s, f, data, k);
      assert data[k..][..Kept(c, |data|) - k] == data[k..Kept(c, |data|)];
    }
  }

  /** Reading `n` bytes keeps the stream, whatever the bytes are, exactly when `InOrder` says so. */
  lemma IngestInOrderExactly(s: State, f: Flow, n: nat)
    requires f in s.conns
    ensures (forall data: seq<u8> :: |data| == n ==> Appends(s, f, data)) <==> InOrder(s.conns[f], n)
  {
    var c := s.conns[f];
    if InOrder(c, n) {
      forall data: seq<u8> | |data| == n ensures Appends(s, f, data) {
        IngestReads(s, f, data);
        Overtakes(c.log.queued, c.prefetched, data, Share(c, n), n);
      }
    } else {
      var data := OutOfOrder(s, f, n);
      assert !Appends(s, f, data);
    }
  }

  /** New bytes and stashed bytes in the order `ingest` leaves them. */
  lemma Overtakes(q: seq<u8>, kept: seq<u8>, data: seq<u8>, k: nat, m: nat)
    requires k <= m <= |data|
    ensures (k == 0 || kept == []) && m == |data| ==> (q + data[..k]) + (kept + data[k..m]) == (q + kept) + data
    ensures m < |data| ==> (q + data[..k]) + (kept + data[k..m]) != (q + kept) + data
    ensures k > 0 && kept != [] && data[0] != kept[0] ==> (q + data[..k]) + (kept + data[k..m]) != (q + kept) + data
  {
    var a, b := (q + data[..k]) + (kept + data[k..m]), (q + kept) + data;
    if m < |data| {
      assert |a| < |b|;
    } else if k > 0 && kept != [] {
      assert a[|q|] == data[0] && b[|q|] == kept[0];
    }
  }

  lemma OutOfOrder(s: State, f: Flow, n: nat) returns (data: seq<u8>)
    requires f in s.conns && !InOrder(s.conns[f], n)
    ensures |data| == n && !Appends(s, f, data)
  {
    var c := s.conns[f];
    var fill: u8 := if c.prefetched != [] && c.prefetched[0] == 0 then 1 else 0;
    data := seq(n, _ => fill);
    IngestReads(s, f, data);
    Overtakes(c.log.queued, c.prefetched, data, Share(c, n), Kept(c, n));
  }

  // ---- one event ----

  /** The bytes event `e` reads from the host socket of flow `f`. */
  function ReadBytes(e: Event, f: Flow): seq<u8> {
    if e.ConnReady? && e.flow == f && e.ready.readable && e.ready.read.Bytes?
    then e.ready.read.data[..Min(|e.ready.read.data|, MAX_CHUNK)] else []
  }

  /** The stream stays as it is; some of the stash may have moved to the queue. */
  predicate Flows(c: Conn, c': Conn) {
    Taken(c') == Taken(c) && c.log.queued <= c'.log.queued
  }

  lemma FlushFlows(s: State, f: Flow, sends: seq<Send>, now: nat)
    requires f in s.conns && |s.conns[f].prefetched| <= MAX_PREFETCH && f in FlushConn(s, f, sends, now).conns
    ensures Flows(s.conns[f], FlushConn(s, f, sends, now).conns[f])
  {
    var c := s.conns[f];
    var r := FlushBoth(c, sends);
    FlushBothShape(c, sends);
    if r.ok {
      StashFlows(SetConn(s, f, ShutWrite(r.conn).(prefetched := [])), f, c.prefetched);
      MaybeCreditConn(Ingest(SetConn(s, f, ShutWrite(r.conn).(prefetched := [])), f, c.prefetched), f);
    } else {
      MarkShutConn(SetConn(s, f, r.conn), f, now);
    }
  }

  /** Sending the stash again puts a prefix of it into the queue and the rest back. */
  lemma StashFlows(s: State, f: Flow, stash: seq<u8>)
    requires f in s.conns && s.conns[f].prefetched == [] && |stash| <= MAX_PREFETCH
    ensures f in Ingest(s, f, stash).conns && Flows(s.conns[f].(prefetched := stash), Ingest(s, f, stash).conns[f])
  {
    IngestReads(s, f, stash);
    Overtakes(s.conns[f].log.queued, [], stash, Share(s.conns[f], |stash|), |stash|);
    assert s.conns[f].log.queued + [] + stash == s.conns[f].log.queued + stash;
  }

  lemma ReadConnReads(s: State, f: Flow, read: Read, now: nat)
    requires f in s.conns && f in ReadConn(s, f, read, now).conns
    ensures AfterRead(s.conns[f], if read.Bytes? then read.data[..Min(|read.data|, MAX_CHUNK)] else [],
                      ReadConn(s, f, read, now).conns[f])
  {
    var c := s.conns[f];
    if read.Bytes? && read.data != [] {
      IngestReads(s, f, read.data[..Min(|read.data|, MAX_CHUNK)]);
    } else {
      ReadsNothing(c);
    }
  }

  lemma ReadsNothing(c: Conn)
    ensures AfterRead(c, [], c)
  {
    assert c.log.queued + [] == c.log.queued && c.prefetched + [] == c.prefetched;
  }

  /** A connection after `data` was read and part of the stash moved on. */
  predicate ReadThenFlows(c: Conn, data: seq<u8>, c': Conn) {
    && c.log.queued + data[..Share(c, |data|)] <= c'.log.queued
    && Taken(c') == (c.log.queued + data[..Share(c, |data|)]) +
                    (c.prefetched + data[Share(c, |data|)..Kept(c, |data|)])
  }

  lemma ConnFdReads(s: State, f: Flow, r: Ready)
    requires Inv(s) && f in s.conns && f in OnConnFd(s, f, r).conns
    ensures ReadThenFlows(s.conns[f], ReadBytes(ConnReady(f, r), f), OnConnFd(s, f, r).conns[f])
  {
    assert FlowInv(f, ViewOf(s, f));
    var s1 := if r.readable then ReadConn(s, f, r.read, r.now) else s;
    ReadConnKeeps(s, f, r.read, r.now);
    assert FlowInv(f, ViewOf(s1, f));
    AfterFirst(s, f, r, s1);
    if r.writable && !s1.conns[f].connecting {
      FlushFlows(s1, f, r.sends, r.now);
    }
  }

  lemma AfterFirst(s: State, f: Flow, r: Ready, s1: State)
    requires f in s.conns && s1 == (if r.readable then ReadConn(s, f, r.read, r.now) else s) && f in s1.conns
    ensures AfterRead(s.conns[f], ReadBytes(ConnReady(f, r), f), s1.conns[f])
  {
    if r.readable {
      ReadConnReads(s, f, r.read, r.now);
    } else {
      ReadsNothing(s.conns[f]);
    }
  }

  lemma DispatchFlows(s: State, f: Flow, hdr: Header, data: seq<u8>, host: Host)
    requires f in s.conns && |s.conns[f].prefetched| <= MAX_PREFETCH && f in Dispatch(s, f, hdr, data, host).conns
    ensures Flows(s.conns[f], Dispatch(s, f, hdr, data, host).conns[f])
  {
    if hdr.op == OP_RESPONSE {
      ResponseFlows(s, f, host);
    } else if hdr.op == OP_SHUTDOWN {
      SetFlows(s, f, PeerShut(s.conns[f], hdr.flags), host);
    } else if hdr.op == OP_RW {
      RwFlows(s, f, data, host);
    } else {
      CreditFlows(s, f);
    }
  }

  lemma ResponseFlows(s: State, f: Flow, host: Host)
    requires f in s.conns && |s.conns[f].prefetched| <= MAX_PREFETCH
    ensures var s' := OnResponse(s, f, host.sends, host.now); f in s'.conns ==> Flows(s.conns[f], s'.conns[f])
  {
    SetFlows(s, f, Answered(f, s.conns[f]), host);
  }

  lemma RwFlows(s: State, f: Flow, data: seq<u8>, host: Host)
    requires f in s.conns && |s.conns[f].prefetched| <= MAX_PREFETCH
    ensures var s' := OnRw(s, f, data, host.sends, host.now); f in s'.conns ==> Flows(s.conns[f], s'.conns[f])
  {
    SetFlows(s, f, TakeRw(s.conns[f], data), host);
  }

  lemma CreditFlows(s: State, f: Flow)
    requires f in s.conns
    ensures f in EnqueueCredit(s, f).conns && Flows(s.conns[f], EnqueueCredit(s, f).conns[f])
  {
  }

  /** Setting fields that have no part in the stream, then flushing. */
  lemma SetFlows(s: State, f: Flow, c: Conn, host: Host)
    requires f in s.conns && |s.conns[f].prefetched| <= MAX_PREFETCH
    requires c.log.queued == s.conns[f].log.queued && c.prefetched == s.conns[f].prefetched
    ensures var s' := FlushConn(SetConn(s, f, c), f, host.sends, host.now);
            f in s'.conns ==> Flows(s.conns[f], s'.conns[f])
  {
    if f in FlushConn(SetConn(s, f, c), f, host.sends, host.now).conns {
      FlushFlows(SetConn(s, f, c), f, host.sends, host.now);
    }
  }

  lemma GuestTxFlows(s: State, e: Event, f: Flow)
    requires Inv(s) && e.GuestTx? && f in s.conns && f in Step(s, e).conns
    ensures Flows(s.conns[f], Step(s, e).conns[f])
  {
    if Speaks(s, e, f) {
      SpokenStep(s, e, f);
      assert FlowInv(f, ViewOf(s, f));
      var h := e.chain.hdr;
      if h.op != OP_REQUEST {
        DispatchFlows(SetConn(s, f, NoteCredit(s.conns[f], h)), f, h, e.chain.data, e.host);
      }
    } else {
      OtherTxSame(s, e, f);
    }
  }

  /** Every event takes exactly the bytes it read, as `AfterRead` places them, and may move some of the stash on. */
  lemma StepReads(s: State, e: Event, f: Flow)
    requires Inv(s) && f in s.conns && f in Step(s, e).conns
    ensures ReadThenFlows(s.conns[f], ReadBytes(e, f), Step(s, e).conns[f])
  {
    ReadsNothing(s.conns[f]);
    match e
    case Accept =>
    case IncomingReady(i, read, now) => IncomingNew(s, i, read, now);
    case ConnReady(g, ready) =>
      if g == f {
        ConnFdReads(s, f, ready);
      } else {
        OtherFdSteady(s, g, ready, f);
      }
    case GuestTx(_, _) => GuestTxFlows(s, e, f);
    case GuestRx(avail) => RxSame(s, avail, f);
    case Timeouts(order, now) => DropExpiredConns(s, order, now);
    case TransportDown =>
  }

  lemma RxSame(s: State, avail: nat, f: Flow)
    requires f in s.conns
    ensures var s' := RxBuffer(s, avail);
            && f in s'.conns && s'.conns[f].log.queued == s.conns[f].log.queued
            && s'.conns[f].prefetched == s.conns[f].prefetched
  {
  }

  // ---- the source of every byte ----

  /**
   Where the bytes come from: for each byte in the queue and in the stash its position in the source, of which `n`
   bytes were read so far.
   */
  datatype Tags = Tags(q: seq<nat>, p: seq<nat>, n: nat)

  function Interval(a: nat, b: nat): (r: seq<nat>)
    requires a <= b
    ensures |r| == b - a && forall i :: 0 <= i < |r| ==> r[i] == a + i
  {
    seq(b - a, i requires 0 <= i < b - a => a + i)
  }

  function StartTags(c: Conn): Tags {
    var q, n := |c.log.queued|, |Taken(c)|;
    Tags(Interval(0, q), Interval(q, n), n)
  }

  function TagRead(t: Tags, c: Conn, n: nat): Tags {
    var k, m := t.n + Share(c, n), t.n + Kept(c, n);
    Tags(t.q + Interval(t.n, k), t.p + Interval(k, m), t.n + n)
  }

  /** Move tags from the stash until the queue has `n` of them. */
  function TagMove(t: Tags, n: nat): Tags {
    if |t.q| <= n <= |t.q| + |t.p| then Tags(t.q + t.p[..n - |t.q|], t.p[n - |t.q|..], t.n) else t
  }

  function TagStep(t: Tags, c: Conn, c': Conn, e: Event, f: Flow): Tags {
    TagMove(TagRead(t, c, |ReadBytes(e, f)|), |c'.log.queued|)
  }

  /** The tags after a run during which flow `f` kept its connection. */
  function RunTags(s: State, es: seq<Event>, f: Flow): Tags
    requires f in s.conns
  {
    if es == [] then StartTags(s.conns[f])
    else
      var k := |es| - 1;
      var s1, s2 := Run(s, es[..k]), Run(s, es);
      if f in s1.conns && f in s2.conns
      then TagStep(RunTags(s, es[..k], f), s1.conns[f], s2.conns[f], es[k], f)
      else RunTags(s, es[..k], f)
  }

  predicate Draws(tags: seq<nat>, source: seq<u8>, bytes: seq<u8>) {
    |tags| == |bytes| && forall i :: 0 <= i < |tags| ==> tags[i] < |source| && bytes[i] == source[tags[i]]
  }

  /** The tags tell the truth about connection `c`. */
  predicate TagsOk(t: Tags, c: Conn, source: seq<u8>) {
    t.n == |source| && Draws(t.q, source, c.log.queued) && Draws(t.p, source, c.prefetched)
  }

  lemma DrawsMore(tags: seq<nat>, source: seq<u8>, bytes: seq<u8>, data: seq<u8>, a: nat, b: nat)
    requires Draws(tags, source, bytes) && a <= b <= |data|
    ensures Draws(tags + Interval(|source| + a, |source| + b), source + data, bytes + data[a..b])
  {
  }

  lemma DrawsMove(q: seq<nat>, p: seq<nat>, source: seq<u8>, a: seq<u8>, b: seq<u8>, a': seq<u8>, b': seq<u8>)
    requires Draws(q, source, a) && Draws(p, source, b) && a <= a' && a' + b' == a + b
    ensures var k := |a'| - |a|;
            k <= |p| && Draws(q + p[..k], source, a') && Draws(p[k..], source, b')
  {
    var k := |a'| - |a|;
    assert |a'| + |b'| == |a| + |b|;
    forall i | 0 <= i < |a'| ensures a'[i] == (a + b)[i] {
      assert (a' + b')[i] == a'[i];
    }
    forall i | 0 <= i < |b'| ensures b'[i] == b[k + i] {
      assert (a' + b')[|a'| + i] == b'[i];
    }
  }

  lemma StepTagsOk(t: Tags, c: Conn, source: seq<u8>, e: Event, f: Flow, c': Conn)
    requires TagsOk(t, c, source) && ReadThenFlows(c, ReadBytes(e, f), c')
    ensures TagsOk(TagStep(t, c, c', e, f), c', source + ReadBytes(e, f))
  {
    var data := ReadBytes(e, f);
    ReadTagsOk(t, c, source, data);
    var k := Share(c, |data|);
    MoveTagsOk(TagRead(t, c, |data|), source + data, c.log.queued + data[..k],
               c.prefetched + data[k..Kept(c, |data|)], c');
  }

  lemma ReadTagsOk(t: Tags, c: Conn, source: seq<u8>, data: seq<u8>)
    requires TagsOk(t, c, source)
    ensures var k, t' := Share(c, |data|), TagRead(t, c, |data|);
            && t'.n == |source + data|
            && Draws(t'.q, source + data, c.log.queued + data[..k])
            && Draws(t'.p, source + data, c.prefetched + data[k..Kept(c, |data|)])
  {
    var k := Share(c, |data|);
    DrawsMore(t.q, source, c.log.queued, data, 0, k);
    DrawsMore(t.p, source, c.prefetched, data, k, Kept(c, |data|));
    assert data[0..k] == data[..k];
  }

  lemma MoveTagsOk(t: Tags, source: seq<u8>, q: seq<u8>, p: seq<u8>, c: Conn)
    requires t.n == |source| && Draws(t.q, source, q) && Draws(t.p, source, p)
    requires q <= c.log.queued && Taken(c) == q + p
    ensures TagsOk(TagMove(t, |c.log.queued|), c, source)
  {
    DrawsMove(t.q, t.p, source, q, p, c.log.queued, c.prefetched);
  }

  // ---- order, exactly ----

  /** Nothing lost and nothing overtaken: the tags are 0, 1, 2 and so on. */
  predicate Ordered(t: Tags) {
    t.q + t.p == Interval(0, t.n)
  }

  /** A byte is missing, or one in the queue is out of its place. */
  predicate Spoilt(t: Tags) {
    |t.q| + |t.p| < t.n || exists i :: 0 <= i < |t.q| && t.q[i] != i
  }

  lemma SpoiltNotOrdered(t: Tags)
    requires Spoilt(t)
    ensures !Ordered(t)
  {
    if |t.q| + |t.p| >= t.n {
      var i :| 0 <= i < |t.q| && t.q[i] != i;
      assert (t.q + t.p)[i] != i;
    }
  }

  /** What is spoilt stays so: the queue only grows, and a lost byte never comes back. */
  lemma SpoiltStays(t: Tags, c: Conn, c': Conn, e: Event, f: Flow)
    requires Spoilt(t)
    ensures Spoilt(TagStep(t, c, c', e, f))
  {
    var t' := TagStep(t, c, c', e, f);
    if |t.q| + |t.p| >= t.n {
      var i :| 0 <= i < |t.q| && t.q[i] != i;
      assert t'.q[i] == t.q[i];
    }
  }

  /** A read keeps the order exactly if it is in order itself. */
  lemma ReadOrder(t: Tags, c: Conn, n: nat)
    requires Ordered(t) && |t.p| == |c.prefetched|
    ensures if InOrder(c, n) then Ordered(TagRead(t, c, n)) else Spoilt(TagRead(t, c, n))
  {
    var t' := TagRead(t, c, n);
    var k, m := t.n + Share(c, n), t.n + Kept(c, n);
    assert |t.q| + |t.p| == t.n;
    if InOrder(c, n) {
      InsertBefore(t.q, t.p, Interval(t.n, k), Interval(k, m));
      assert Interval(0, t.n) + (Interval(t.n, k) + Interval(k, m)) == Interval(0, m);
    } else if m == t.n + n {
      assert t'.q[|t.q|] == t.n;
    }
  }

  lemma InsertBefore(q: seq<nat>, p: seq<nat>, a: seq<nat>, b: seq<nat>)
    requires p == [] || a == []
    ensures (q + a) + (p + b) == (q + p) + (a + b)
  {
  }

  lemma MoveOrder(t: Tags, n: nat)
    ensures Ordered(t) ==> Ordered(TagMove(t, n))
    ensures Spoilt(t) ==> Spoilt(TagMove(t, n))
  {
    if |t.q| <= n <= |t.q| + |t.p| {
      var k := n - |t.q|;
      assert t.p[..k] + t.p[k..] == t.p;
      assert (t.q + t.p[..k]) + t.p[k..] == t.q + t.p;
      if Spoilt(t) && |t.q| + |t.p| >= t.n {
        var i :| 0 <= i < |t.q| && t.q[i] != i;
        assert (t.q + t.p[..k])[i] == t.q[i];
      }
    }
  }

  predicate ReadsInOrder(s: State, e: Event, f: Flow) {
    f in s.conns ==> InOrder(s.conns[f], |ReadBytes(e, f)|)
  }

  /** All bytes a run reads from the host socket of flow `f`, in order. */
  function AllRead(es: seq<Event>, f: Flow): seq<u8> {
    if es == [] then [] else AllRead(es[..|es| - 1], f) + ReadBytes(es[|es| - 1], f)
  }

  predicate AllInOrder(s: State, es: seq<Event>, f: Flow) {
    es == [] ||
    var k := |es| - 1;
    AllInOrder(s, es[..k], f) && ReadsInOrder(Run(s, es[..k]), es[k], f)
  }

  lemma {:induction false} RunOrder(s: State, es: seq<Event>, f: Flow)
    requires Inv(s) && f in s.conns && f in Run(s, es).conns && Run(s, es).conns[f].log.id == s.conns[f].log.id
    ensures var t := RunTags(s, es, f);
            && TagsOk(t, Run(s, es).conns[f], Taken(s.conns[f]) + AllRead(es, f))
            && if AllInOrder(s, es, f) then Ordered(t) else Spoilt(t)
  {
    if es == [] {
      StartOrder(s.conns[f]);
    } else {
      var k := |es| - 1;
      var s1, s2 := Run(s, es[..k]), Run(s, es);
      RunKeeps(s, es[..k]);
      StepKeeps(s1, es[k]);
      SameBefore(s, s1, s2, f);
      RunOrder(s, es[..k], f);
      StepReads(s1, es[k], f);
      var t, c, c' := RunTags(s, es[..k], f), s1.conns[f], s2.conns[f];
      StepTagsOk(t, c, Taken(s.conns[f]) + AllRead(es[..k], f), es[k], f, c');
      Assoc(Taken(s.conns[f]), AllRead(es[..k], f), ReadBytes(es[k], f));
      StepOrder(t, c, c', es[k], f);
    }
  }

  lemma StepOrder(t: Tags, c: Conn, c': Conn, e: Event, f: Flow)
    requires |t.p| == |c.prefetched|
    ensures Ordered(t) ==> if InOrder(c, |ReadBytes(e, f)|) then Ordered(TagStep(t, c, c', e, f))
                           else Spoilt(TagStep(t, c, c', e, f))
    ensures Spoilt(t) ==> Spoilt(TagStep(t, c, c', e, f))
  {
    if Spoilt(t) {
      SpoiltStays(t, c, c', e, f);
    }
    if Ordered(t) {
      ReadOrder(t, c, |ReadBytes(e, f)|);
      MoveOrder(TagRead(t, c, |ReadBytes(e, f)|), |c'.log.queued|);
    }
  }

  lemma StartOrder(c: Conn)
    ensures Ordered(StartTags(c)) && TagsOk(StartTags(c), c, Taken(c) + [])
  {
    assert Taken(c) + [] == Taken(c);
  }

  /** A connection that is there at the end was there in between. */
  lemma SameBefore(s: State, s1: State, s2: State, f: Flow)
    requires Evolves(s, s1) && Evolves(s1, s2)
    requires f in s.conns && s.conns[f].log.id < s.nextId && f in s2.conns && s2.conns[f].log.id == s.conns[f].log.id
    ensures f in s1.conns && s1.conns[f].log.id == s.conns[f].log.id
  {
  }

  /**
   The host-to-guest stream end to end, between any two points of a connection's life. Every byte queued or stashed
   comes from the source at the position its tag says. The tags are in order without gap if and only if every
   read in between was in order; one that was not is never made good. And then what the guest was handed,
   what is queued for it and what is stashed are together exactly the source.
   */
  lemma HostBytesInOrder(guestCid: u64, es: seq<Event>, more: seq<Event>, f: Flow)
    requires f in Run(Init(guestCid), es).conns && f in Run(Run(Init(guestCid), es), more).conns
    requires Run(Run(Init(guestCid), es), more).conns[f].log.id == Run(Init(guestCid), es).conns[f].log.id
    ensures var s := Run(Init(guestCid), es);
            var source := Taken(s.conns[f]) + AllRead(more, f);
            var s' := Run(s, more);
            var c' := s'.conns[f];
            var t := RunTags(s, more, f);
            && TagsOk(t, c', source)
            && (Ordered(t) <==> AllInOrder(s, more, f))
            && (Ordered(t) ==> c'.log.delivered + Payload(OfFlow(s'.outData, f)) + c'.prefetched == source)
  {
    Reachable(guestCid, es);
    var s := Run(Init(guestCid), es);
    RunKeeps(s, more);
    RunOrder(s, more, f);
    var t := RunTags(s, more, f);
    if Spoilt(t) {
      SpoiltNotOrdered(t);
    }
    assert FlowInv(f, ViewOf(Run(s, more), f));
    if Ordered(t) {
      OrderedBytes(t, Run(s, more).conns[f], Taken(s.conns[f]) + AllRead(more, f));
    }
  }

  lemma OrderedBytes(t: Tags, c: Conn, source: seq<u8>)
    requires TagsOk(t, c, source) && Ordered(t)
    ensures Taken(c) == source
  {
    assert |t.q| + |t.p| == t.n;
    forall i | 0 <= i < |source| ensures Taken(c)[i] == source[i] {
      assert (t.q + t.p)[i] == i;
    }
  }

  // ---- and it can fail ----

  function Asks(f: Flow, op: u16, bufAlloc: u32): Event {
    GuestTx(Packet(Header(3, HOST_CID, f.guestPort, f.hostPort, 0, TYPE_STREAM, op, 0, bufAlloc, 0), []),
            Host(Done, [], 0))
  }

  function Gets(f: Flow, data: seq<u8>): Event {
    ConnReady(f, Ready(true, false, Bytes(data), true, [], 0))
  }

  /** Two bytes read against one byte of credit, more credit, then a third byte. */
  function OvertakingRun(f: Flow): seq<Event> {
    [Asks(f, OP_REQUEST, 1), Gets(f, [10, 20]), Asks(f, OP_CREDIT_UPDATE, 9), Gets(f, [30])]
  }

  /** The third byte overtakes the second: the guest will read 10, 30 while 20 is still stashed. */
  lemma BytesCanBeOvertaken(f: Flow)
    ensures var s := Run(Init(3), OvertakingRun(f));
            f in s.conns && s.conns[f].log.queued == [10, 30] && s.conns[f].prefetched == [20]
  {
    var s0 := Init(3);
    var s1 := Step(s0, Asks(f, OP_REQUEST, 1));
    var s2 := Step(s1, Gets(f, [10, 20]));
    var s3 := Step(s2, Asks(f, OP_CREDIT_UPDATE, 9));
    FourSteps(s0, Asks(f, OP_REQUEST, 1), Gets(f, [10, 20]), Asks(f, OP_CREDIT_UPDATE, 9), Gets(f, [30]));
    Opened(s0, f);
    FirstRead(s1, f);
    MoreCredit(s2, f);
    SecondRead(s3, f);
  }

  lemma Opened(s: State, f: Flow)
    requires f !in s.conns && s.guestCid == 3
    ensures var s' := Step(s, Asks(f, OP_REQUEST, 1));
            && s'.guestCid == 3 && f in s'.conns && CanSend(s'.conns[f])
            && s'.conns[f].peerBufAlloc == 1 && s'.conns[f].peerFwdCnt == s'.conns[f].sentToGuest == 0
            && s'.conns[f].log.queued == [] && s'.conns[f].prefetched == []
  {
  }

  lemma MoreCredit(s: State, f: Flow)
    requires f in s.conns && s.guestCid == 3
    ensures var s' := Step(s, Asks(f, OP_CREDIT_UPDATE, 9));
            f in s'.conns && s'.conns[f] == NoteCredit(s.conns[f], Asks(f, OP_CREDIT_UPDATE, 9).chain.hdr)
  {
  }

  /** Two bytes with credit for one: the first is queued, the second stashed. */
  lemma FirstRead(s: State, f: Flow)
    requires f in s.conns && CanSend(s.conns[f]) && s.conns[f].peerBufAlloc == 1
    requires s.conns[f].peerFwdCnt == s.conns[f].sentToGuest == 0
    requires s.conns[f].log.queued == [] && s.conns[f].prefetched == []
    ensures var s' := Step(s, Gets(f, [10, 20]));
            && s'.guestCid == s.guestCid && f in s'.conns && s'.conns[f].log.queued == [10] && s'.conns[f].prefetched == [20]
            && s'.conns[f] == s.conns[f].(sentToGuest := Add32(s.conns[f].sentToGuest, 1), prefetched := [20],
                                          log := s.conns[f].log.(queued := [10]))
  {
    var data: seq<u8> := [10, 20];
    assert data[..2] == data && data[..1] == [10] && data[1..] == [20];
    IngestConn(s, f, data, 1);
    assert data[1..][..1] == [20];
  }

  /** One more byte, now with credit: it is queued at once. */
  lemma SecondRead(s: State, f: Flow)
    requires f in s.conns && CanSend(s.conns[f]) && PeerAvail(s.conns[f]) >= 1
    requires s.conns[f].log.queued == [10] && s.conns[f].prefetched == [20]
    ensures var s' := Step(s, Gets(f, [30]));
            f in s'.conns && s'.conns[f].log.queued == [10, 30] && s'.conns[f].prefetched == [20]
  {
    var data: seq<u8> := [30];
    assert data[..1] == data && data[1..] == [];
    IngestConn(s, f, data, 1);
    assert data[1..][..0] == [] && [20] + [] == [20];
  }
}
