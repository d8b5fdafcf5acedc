/** Facts about the two output queues: projections to a flow, counts of packets, and payload bytes. */
module MuxQueues {
  import opened Machine
  import opened MuxSpec

  function CountOp(q: seq<OutPkt>, op: u16): nat {
    if q == [] then 0 else (if q[0].op == op then 1 else 0) + CountOp(q[1..], op)
  }

  /** SHUTDOWN packets that carry the SEND bit, and those that carry the RCV bit. */
  function CountSend(q: seq<OutPkt>): nat {
    if q == [] then 0 else (if q[0].op == OP_SHUTDOWN && HasSend(q[0].flags) then 1 else 0) + CountSend(q[1..])
  }

  function CountRecv(q: seq<OutPkt>): nat {
    if q == [] then 0 else (if q[0].op == OP_SHUTDOWN && HasRecv(q[0].flags) then 1 else 0) + CountRecv(q[1..])
  }

  /** A queue without its RST packets. */
  function NoRst(q: seq<OutPkt>): seq<OutPkt> {
    if q == [] then [] else if q[0].op == OP_RST then NoRst(q[1..]) else [q[0]] + NoRst(q[1..])
  }

  /** What one flow sees of the multiplexer. */
  datatype View = View(conn: Option<Conn>, ctrl: seq<OutPkt>, data: seq<OutPkt>)

  function ViewOf(s: State, f: Flow): View {
    View(if f in s.conns then Some(s.conns[f]) else None, OfFlow(s.outCtrl, f), OfFlow(s.outData, f))
  }

  // ---- projections ----

  lemma {:induction false} OfFlowConcat(a: seq<OutPkt>, b: seq<OutPkt>, f: Flow)
    ensures OfFlow(a + b, f) == OfFlow(a, f) + OfFlow(b, f)
  {
    if a == [] {
      assert a + b == b;
    } else {
      OfFlowConcat(a[1..], b, f);
      assert (a + b)[1..] == a[1..] + b;
    }
  }

  lemma OfFlowPush(q: seq<OutPkt>, p: OutPkt, f: Flow)
    ensures OfFlow(q + [p], f) == OfFlow(q, f) + (if p.flow == f then [p] else [])
  {
    OfFlowConcat(q, [p], f);
    assert [p][1..] == [];
  }

  lemma {:induction false} OfFlowAll(q: seq<OutPkt>, f: Flow, g: Flow)
    requires forall i :: 0 <= i < |q| ==> q[i].flow == f
    ensures OfFlow(q, g) == if f == g then q else []
  {
    if q != [] {
      OfFlowAll(q[1..], f, g);
    }
  }

  lemma {:induction false} OfFlowWithout(q: seq<OutPkt>, f: Flow, g: Flow)
    ensures OfFlow(WithoutFlow(q, f), g) == if f == g then [] else OfFlow(q, g)
  {
    if q != [] {
      OfFlowWithout(q[1..], f, g);
      if q[0].flow != f {
        assert WithoutFlow(q, f)[1..] == WithoutFlow(q[1..], f);
      }
    }
  }

  lemma {:induction false} OfFlowWithoutRst(q: seq<OutPkt>, f: Flow, g: Flow)
    ensures OfFlow(WithoutRst(q, f), g) == if f == g then NoRst(OfFlow(q, g)) else OfFlow(q, g)
  {
    if q != [] {
      OfFlowWithoutRst(q[1..], f, g);
      if !(q[0].flow == f && q[0].op == OP_RST) {
        assert WithoutRst(q, f)[1..] == WithoutRst(q[1..], f);
      }
      if q[0].flow == g {
        assert OfFlow(q, g)[1..] == OfFlow(q[1..], g);
      }
    }
  }

  lemma {:induction false} OfFlowMember(q: seq<OutPkt>, f: Flow, p: OutPkt)
    ensures p in OfFlow(q, f) <==> p in q && p.flow == f
  {
    if q != [] {
      OfFlowMember(q[1..], f, p);
      assert p in q <==> p == q[0] || p in q[1..];
    }
  }

  // ---- counts ----

  lemma {:induction false} CountConcat(a: seq<OutPkt>, b: seq<OutPkt>)
    ensures forall op: u16 :: CountOp(a + b, op) == CountOp(a, op) + CountOp(b, op)
    ensures CountSend(a + b) == CountSend(a) + CountSend(b)
    ensures CountRecv(a + b) == CountRecv(a) + CountRecv(b)
  {
    if a == [] {
      assert a + b == b;
    } else {
      CountConcat(a[1..], b);
      assert (a + b)[1..] == a[1..] + b;
    }
  }

  lemma CountPush(q: seq<OutPkt>, p: OutPkt)
    ensures forall op: u16 :: CountOp(q + [p], op) == CountOp(q, op) + (if p.op == op then 1 else 0)
    ensures CountSend(q + [p]) == CountSend(q) + (if p.op == OP_SHUTDOWN && HasSend(p.flags) then 1 else 0)
    ensures CountRecv(q + [p]) == CountRecv(q) + (if p.op == OP_SHUTDOWN && HasRecv(p.flags) then 1 else 0)
  {
    CountConcat(q, [p]);
    assert [p][1..] == [];
    forall op: u16 ensures CountOp(q + [p], op) == CountOp(q, op) + (if p.op == op then 1 else 0) {
      assert CountOp([p], op) == if p.op == op then 1 else 0;
    }
  }

  lemma CountCons(p: OutPkt, q: seq<OutPkt>)
    ensures forall op: u16 :: CountOp([p] + q, op) == (if p.op == op then 1 else 0) + CountOp(q, op)
    ensures CountSend([p] + q) == (if p.op == OP_SHUTDOWN && HasSend(p.flags) then 1 else 0) + CountSend(q)
    ensures CountRecv([p] + q) == (if p.op == OP_SHUTDOWN && HasRecv(p.flags) then 1 else 0) + CountRecv(q)
  {
    assert ([p] + q)[1..] == q;
  }

  lemma {:induction false} CountNoRst(q: seq<OutPkt>)
    ensures forall op: u16 :: CountOp(NoRst(q), op) == if op == OP_RST then 0 else CountOp(q, op)
    ensures CountSend(NoRst(q)) == CountSend(q) && CountRecv(NoRst(q)) == CountRecv(q)
    ensures forall p :: p in NoRst(q) ==> p in q
  {
    if q != [] {
      CountNoRst(q[1..]);
      if q[0].op != OP_RST {
        assert NoRst(q)[1..] == NoRst(q[1..]);
      }
    }
  }

  lemma {:induction false} CountPositive(q: seq<OutPkt>, op: u16)
    ensures CountOp(q, op) > 0 <==> exists i :: 0 <= i < |q| && q[i].op == op
  {
    if q != [] {
      CountPositive(q[1..], op);
      if CountOp(q[1..], op) > 0 {
        var i :| 0 <= i < |q[1..]| && q[1..][i].op == op;
        assert q[i + 1].op == op;
      }
      if i :| 0 <= i < |q| && q[i].op == op {
        assert i == 0 || q[1..][i - 1].op == op;
      }
    }
  }

  /** `any(|pkt| pkt.flow == flow && pkt.op == op)` is a positive count in the flow's view. */
  lemma QueuedIsCount(q: seq<OutPkt>, f: Flow, op: u16)
    ensures Queued(q, f, op) <==> CountOp(OfFlow(q, f), op) > 0
  {
    var v := OfFlow(q, f);
    CountPositive(v, op);
    if Queued(q, f, op) {
      var i :| 0 <= i < |q| && q[i].flow == f && q[i].op == op;
      OfFlowMember(q, f, q[i]);
      assert q[i] in v;
    }
    if CountOp(v, op) > 0 {
      var i :| 0 <= i < |v| && v[i].op == op;
      OfFlowMember(q, f, v[i]);
      assert v[i] in v;
    }
  }

  // ---- payload ----

  lemma Assoc(a: seq<u8>, b: seq<u8>, c: seq<u8>)
    ensures a + (b + c) == (a + b) + c
  {
  }

  lemma {:induction false} PayloadConcat(a: seq<OutPkt>, b: seq<OutPkt>)
    ensures Payload(a + b) == Payload(a) + Payload(b)
  {
    if a == [] {
      assert a + b == b;
    } else {
      PayloadConcat(a[1..], b);
      assert (a + b)[1..] == a[1..] + b;
      Assoc(a[0].data, Payload(a[1..]), Payload(b));
    }
  }

  /** A packet as `out_data` may hold it. */
  predicate RwPkt(f: Flow, p: OutPkt) {
    p.flow == f && p.op == OP_RW && p.flags == 0 && 1 <= |p.data| <= MAX_CHUNK
  }

  lemma {:induction false} ChunksFacts(f: Flow, data: seq<u8>)
    ensures Payload(Chunks(f, data)) == data
    ensures forall i :: 0 <= i < |Chunks(f, data)| ==> RwPkt(f, Chunks(f, data)[i])
    decreases |data|
  {
    if data != [] {
      var n := Min(|data|, MAX_CHUNK);
      ChunksFacts(f, data[n..]);
      assert Chunks(f, data)[1..] == Chunks(f, data[n..]);
      assert data == data[..n] + data[n..];
    }
  }

  // ---- how the queue operations move the views ----

  /** Nothing but flow `f` sees a difference between the two states. */
  ghost predicate Only(s: State, s': State, f: Flow) {
    && s'.guestCid == s.guestCid
    && s'.wire == s.wire
    && (forall g :: g != f ==> ViewOf(s', g) == ViewOf(s, g))
  }

  lemma EnqueueView(s: State, p: OutPkt)
    requires p.op != OP_RW
    ensures Only(s, Enqueue(s, p), p.flow)
    ensures ViewOf(Enqueue(s, p), p.flow) == ViewOf(s, p.flow).(ctrl := OfFlow(s.outCtrl, p.flow) + [p])
  {
    forall g ensures OfFlow(s.outCtrl + [p], g) == OfFlow(s.outCtrl, g) + (if p.flow == g then [p] else []) {
      OfFlowPush(s.outCtrl, p, g);
    }
  }

  lemma EnqueueRstView(s: State, f: Flow)
    ensures Only(s, EnqueueRst(s, f), f)
    ensures ViewOf(EnqueueRst(s, f), f) ==
            ViewOf(s, f).(ctrl := NoRst(OfFlow(s.outCtrl, f)) + [Ctrl(f, OP_RST, 0)])
  {
    var s1 := s.(outCtrl := WithoutRst(s.outCtrl, f));
    forall g ensures OfFlow(s1.outCtrl, g) == if f == g then NoRst(OfFlow(s.outCtrl, g)) else OfFlow(s.outCtrl, g) {
      OfFlowWithoutRst(s.outCtrl, f, g);
    }
    assert Only(s, s1, f);
    EnqueueView(s1, Ctrl(f, OP_RST, 0));
  }

  lemma DropConnView(s: State, f: Flow, rst: bool)
    ensures Only(s, DropConn(s, f, rst), f)
    ensures ViewOf(DropConn(s, f, rst), f) == View(None, if rst then [Ctrl(f, OP_RST, 0)] else [], [])
  {
    var s1 := s.(conns := s.conns - {f}, outCtrl := WithoutFlow(s.outCtrl, f), outData := WithoutFlow(s.outData, f));
    forall g
      ensures OfFlow(s1.outCtrl, g) == if f == g then [] else OfFlow(s.outCtrl, g)
      ensures OfFlow(s1.outData, g) == if f == g then [] else OfFlow(s.outData, g)
    {
      OfFlowWithout(s.outCtrl, f, g);
      OfFlowWithout(s.outData, f, g);
    }
    assert Only(s, s1, f);
    if rst {
      EnqueueRstView(s1, f);
      assert NoRst([]) + [Ctrl(f, OP_RST, 0)] == [Ctrl(f, OP_RST, 0)];
    }
  }

  lemma PushChunksView(s: State, f: Flow, data: seq<u8>)
    ensures var s' := s.(outData := s.outData + Chunks(f, data));
            && Only(s, s', f)
            && ViewOf(s', f) == ViewOf(s, f).(data := OfFlow(s.outData, f) + Chunks(f, data))
  {
    var ps := Chunks(f, data);
    ChunksFacts(f, data);
    forall g ensures OfFlow(s.outData + ps, g) == OfFlow(s.outData, g) + (if f == g then ps else []) {
      OfFlowConcat(s.outData, ps, g);
      assert forall i :: 0 <= i < |ps| ==> RwPkt(f, ps[i]);
      OfFlowAll(ps, f, g);
    }
  }
}
