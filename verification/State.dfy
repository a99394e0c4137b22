/** The 16-bit packet identifier allocator. */
module State {
  import opened Util

  const MAX_ID: nat := 65535

  predicate PacketId(pid: int) { 1 <= pid && pid <= MAX_ID }

  /** `pid` is the smallest identifier not in `inUse`. */
  ghost predicate LeastFree(pid: int, inUse: set<int>) {
    PacketId(pid) && pid !in inUse && forall q :: 1 <= q < pid ==> q in inUse
  }

  function IdsUpTo(n: nat): set<int> {
    if n == 0 then {} else IdsUpTo(n - 1) + {n}
  }

  lemma {:induction false} IdsAre(n: nat)
    ensures forall i :: i in IdsUpTo(n) <==> 1 <= i <= n
    ensures |IdsUpTo(n)| == n
  {
    if n > 0 {
      IdsAre(n - 1);
    }
  }

  lemma Contained(a: set<int>, b: set<int>)
    requires a <= b
    ensures |a| <= |b|
  {
    var rest := b - a;
    assert b == a + rest;
  }

  /** Fewer than 65535 identifiers in use leave one free at or above any point below which all are taken. */
  lemma SomeFreeAbove(inUse: set<int>, next: nat)
    requires 1 <= next <= MAX_ID && |inUse| < MAX_ID
    requires forall q :: 1 <= q < next ==> q in inUse
    ensures exists p :: next <= p <= MAX_ID && p !in inUse
  {
    if forall p :: next <= p <= MAX_ID ==> p in inUse {
      IdsAre(MAX_ID);
      Contained(IdsUpTo(MAX_ID), inUse);
      assert false;
    }
  }

  lemma LeastFreeIsUnique(p: int, q: int, inUse: set<int>)
    requires LeastFree(p, inUse) && LeastFree(q, inUse)
    ensures p == q
  {
    assert !(p < q) && !(q < p);
  }

  class PacketIdPool {
    var next: int
    var inUse: set<int>

    /** Every identifier below `next` is taken. */
    ghost predicate Valid()
      reads this
    {
      1 <= next <= MAX_ID && (forall q :: q in inUse ==> PacketId(q)) && forall q :: 1 <= q < next ==> q in inUse
    }

    constructor ()
      ensures Valid() && inUse == {}
    {
      next, inUse := 1, {};
    }

    /** None is the RuntimeError raised when all 65535 identifiers are taken. */
    method Acquire() returns (r: Option<int>)
      requires Valid()
      modifies this
      ensures Valid()
      ensures r.None? <==> |old(inUse)| >= MAX_ID
      ensures r.None? ==> inUse == old(inUse) && next == old(next)
      ensures r.Some? ==> LeastFree(r.value, old(inUse)) && inUse == old(inUse) + {r.value}
    {
      if |inUse| >= MAX_ID {
        return None;
      }
      while next in inUse
        invariant Valid() && inUse == old(inUse)
        invariant next >= old(next)
        decreases MAX_ID - next
      {
        SomeFreeAbove(inUse, next);
        next := next % MAX_ID + 1;
      }
      var pid := next;
      inUse := inUse + {pid};
      next := pid % MAX_ID + 1;
      r := Some(pid);
    }

    /** Whether the pool survives a release depends on the identifier alone: zero or below would be handed out next. */
    method Release(pid: int)
      requires Valid()
      modifies this
      ensures inUse == old(inUse) - {pid}
      ensures Valid() <==> pid >= 1
      ensures pid < 1 ==> next == pid
    {
      inUse := inUse - {pid};
      next := if pid < next then pid else next;
    }
  }
}
