/** The host-port allocator: which port it picks, and when it gives up. */
module MuxPorts {
  import opened Machine
  import opened MuxSpec

  const PORT_SPAN: int := M32 - FIRST_PORT

  /** The i-th port after `next`, wrapping from 2^32-1 to 1024. */
  function PortAt(next: u32, i: nat): (p: u32)
    requires FIRST_PORT <= next
    ensures FIRST_PORT <= p
  {
    FIRST_PORT + (next - FIRST_PORT + i) % PORT_SPAN
  }

  lemma PortAtNext(next: u32, i: nat)
    requires FIRST_PORT <= next
    ensures FIRST_PORT <= NextPort(next)
    ensures PortAt(next, 0) == next
    ensures PortAt(NextPort(next), i) == PortAt(next, i + 1)
  {
    var a := next - FIRST_PORT;
    if next == MAX_U32 {
      assert a + (i + 1) == PORT_SPAN + i;
      assert (PORT_SPAN + i) % PORT_SPAN == i % PORT_SPAN;
    }
  }

  lemma PortAtInjective(next: u32, i: nat, j: nat)
    requires FIRST_PORT <= next && i < j < PORT_SPAN
    ensures PortAt(next, i) != PortAt(next, j)
  {
    var a := next - FIRST_PORT;
    var turns := (a + j) / PORT_SPAN - (a + i) / PORT_SPAN;
    assert (a + j) % PORT_SPAN - (a + i) % PORT_SPAN == (j - i) - turns * PORT_SPAN;
  }

  function PortsFrom(next: u32, n: nat): set<u32>
    requires FIRST_PORT <= next
  {
    set i | 0 <= i < n :: PortAt(next, i)
  }

  /** Any window of consecutive ports consists of as many distinct ports. */
  lemma {:induction false} PortsFromSize(next: u32, n: nat)
    requires FIRST_PORT <= next && n <= PORT_SPAN
    ensures |PortsFrom(next, n)| == n
  {
    if n > 0 {
      PortsFromSize(next, n - 1);
      var last := PortAt(next, n - 1);
      forall i | 0 <= i < n - 1 ensures PortAt(next, i) != last {
        PortAtInjective(next, i, n - 1);
      }
      assert PortsFrom(next, n) == PortsFrom(next, n - 1) + {last};
    }
  }

  /**
   The allocator returns the first port from `next` on that no live flow uses, and fails exactly when
   every port it may try is in use. The cursor never leaves 1024..2^32-1.
   */
  lemma {:induction false} AllocPortFinds(next: u32, live: set<u32>, tries: nat) returns (k: nat)
    requires FIRST_PORT <= next
    ensures var a := AllocPort(next, live, tries);
            && FIRST_PORT <= a.next
            && k <= tries
            && (forall i :: 0 <= i < k ==> PortAt(next, i) in live)
            && (if k < tries then a.port == Some(PortAt(next, k)) && PortAt(next, k) !in live
                              && a.next == NextPort(PortAt(next, k))
                else a.port == None && a.next == PortAt(next, k))
    decreases tries
  {
    PortAtNext(next, 0);
    if tries == 0 || next !in live {
      k := 0;
    } else {
      var m := AllocPortFinds(NextPort(next), live, tries - 1);
      k := m + 1;
      forall i | 0 <= i < k ensures PortAt(next, i) in live {
        if i > 0 {
          PortAtNext(next, i - 1);
        }
      }
      PortAtNext(next, m);
    }
  }

  /** By pigeonhole: failing takes at least 60,000 distinct live host ports. */
  lemma AllocFailsOnlyWhenCrowded(next: u32, live: set<u32>)
    requires FIRST_PORT <= next
    ensures AllocPort(next, live, PORT_TRIES).port == None ==> |live| >= PORT_TRIES
    ensures AllocPort(next, live, PORT_TRIES).port == None <==> PortsFrom(next, PORT_TRIES) <= live
  {
    var k := AllocPortFinds(next, live, PORT_TRIES);
    PortsFromSize(next, PORT_TRIES);
    if k == PORT_TRIES {
      assert PortsFrom(next, PORT_TRIES) <= live;
      Subset(PortsFrom(next, PORT_TRIES), live);
    } else {
      assert PortAt(next, k) in PortsFrom(next, PORT_TRIES);
    }
  }

  lemma Subset(a: set<u32>, b: set<u32>)
    requires a <= b
    ensures |a| <= |b|
  {
    assert b == a + (b - a);
  }
}
