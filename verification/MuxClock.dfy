/** Deadlines against the clock: what a turn of the device's worker leaves behind. */
module MuxClock {
  import opened Machine
  import opened Wire
  import opened MuxSpec
  import opened MuxRuns
  import opened MuxTheorems
  import opened MuxShutdown

  /** No connection is past its deadline. */
  predicate OnTime(s: State, now: nat) {
    forall f :: f in s.conns ==> !Expired(s.conns[f], now)
  }

  /** A deadline as it was, none, or a new one in the future of `now`. */
  predicate Reset(c: Conn, c': Conn, now: nat) {
    c'.expiry == c.expiry || c'.expiry == None || (c'.expiry.Some? && c'.expiry.value > now)
  }

  lemma FlushResets(s: State, f: Flow, sends: seq<Send>, now: nat)
    requires f in s.conns
    ensures var s' := FlushConn(s, f, sends, now); f in s'.conns ==> Reset(s.conns[f], s'.conns[f], now)
  {
    FlushBothSide(s.conns[f], sends);
    if FlushBoth(s.conns[f], sends).ok {
      FlushDone(s, f, sends, now);
    }
  }

  lemma ResponseResets(s: State, f: Flow, host: Host)
    requires f in s.conns
    ensures var s' := OnResponse(s, f, host.sends, host.now); f in s'.conns ==> Reset(s.conns[f], s'.conns[f], host.now)
  {
    FlushResets(SetConn(s, f, Answered(f, s.conns[f])), f, host.sends, host.now);
  }

  lemma ShutdownResets(s: State, f: Flow, flags: u32, host: Host)
    requires f in s.conns
    ensures var s' := OnShutdown(s, f, flags, host.sends, host.now);
            f in s'.conns ==> Reset(s.conns[f], s'.conns[f], host.now)
  {
    FlushResets(SetConn(s, f, PeerShut(s.conns[f], flags)), f, host.sends, host.now);
  }

  lemma RwResets(s: State, f: Flow, data: seq<u8>, host: Host)
    requires f in s.conns
    ensures var s' := OnRw(s, f, data, host.sends, host.now); f in s'.conns ==> Reset(s.conns[f], s'.conns[f], host.now)
  {
    FlushResets(SetConn(s, f, TakeRw(s.conns[f], data)), f, host.sends, host.now);
  }

  lemma CreditResets(s: State, f: Flow)
    requires f in s.conns
    ensures f in EnqueueCredit(s, f).conns && EnqueueCredit(s, f).conns[f].expiry == s.conns[f].expiry
  {
  }

  lemma DispatchResets(s: State, f: Flow, hdr: Header, data: seq<u8>, host: Host)
    requires f in s.conns
    ensures var s' := Dispatch(s, f, hdr, data, host); f in s'.conns ==> Reset(s.conns[f], s'.conns[f], host.now)
  {
    if hdr.op == OP_RESPONSE {
      ResponseResets(s, f, host);
    } else if hdr.op == OP_SHUTDOWN {
      ShutdownResets(s, f, hdr.flags, host);
    } else if hdr.op == OP_RW {
      RwResets(s, f, data, host);
    } else {
      CreditResets(s, f);
    }
  }

  /** A guest packet handled at or after `now` makes nothing overdue at `now`. */
  lemma GuestTxOnTime(s: State, chain: TxChain, host: Host, now: nat)
    requires Inv(s) && OnTime(s, now) && now <= host.now
    ensures OnTime(GuestChain(s, chain, host), now)
  {
    var e := GuestTx(chain, host);
    var s' := GuestChain(s, chain, host);
    forall f | f in s'.conns ensures !Expired(s'.conns[f], now) {
      if f !in s.conns {
        NewGuestConn(s, chain, host, f);
      } else if !Speaks(s, e, f) {
        OtherTxSame(s, e, f);
      } else {
        SpokenStep(s, e, f);
        var h := chain.hdr;
        if h.op != OP_REQUEST {
          DispatchResets(SetConn(s, f, NoteCredit(s.conns[f], h)), f, h, chain.data, host);
        }
      }
    }
  }

  /** The events of driving the queues, at or after `now`. */
  predicate Drives(e: Event, now: nat) {
    (e.GuestTx? && now <= e.host.now) || e.GuestRx? || e.TransportDown?
  }

  lemma StepOnTime(s: State, e: Event, now: nat)
    requires Inv(s) && OnTime(s, now) && Drives(e, now)
    ensures OnTime(Step(s, e), now)
  {
    if e.GuestTx? {
      GuestTxOnTime(s, e.chain, e.host, now);
    }
  }

  lemma {:induction false} RunOnTime(s: State, es: seq<Event>, now: nat)
    requires Inv(s) && OnTime(s, now) && forall i :: 0 <= i < |es| ==> Drives(es[i], now)
    ensures OnTime(Run(s, es), now)
  {
    if es != [] {
      var k := |es| - 1;
      RunOnTime(s, es[..k], now);
      RunKeeps(s, es[..k]);
      StepOnTime(Run(s, es[..k]), es[k], now);
    }
  }
}
