/** The bookkeeping of the buffer pool: a stack of free indices and one in-use flag per buffer. */
module LeaseSpec {
  datatype Pool = Pool(free: seq<nat>, inUse: seq<bool>)

  /** Indices 0..n, pushed in descending order so that index 0 is taken first. */
  function InitialPool(n: nat): Pool {
    Pool(seq(n, i requires 0 <= i < n => (n - 1 - i) as nat), seq(n, _ => false))
  }

  function TakeIndex(p: Pool): nat
    requires |p.free| > 0
  {
    p.free[|p.free| - 1]
  }

  function SetFlag(flags: seq<bool>, i: nat, value: bool): (r: seq<bool>)
    ensures |r| == |flags|
  {
    if i < |flags| then flags[i := value] else flags
  }

  function AfterTake(p: Pool): Pool
    requires |p.free| > 0
  {
    Pool(p.free[..|p.free| - 1], SetFlag(p.inUse, TakeIndex(p), true))
  }

  function AfterGive(p: Pool, i: nat): Pool {
    Pool(p.free + [i], SetFlag(p.inUse, i, false))
  }

  /** The free list and the flags agree with the set of leased indices. */
  ghost predicate Bookkeeping(n: nat, p: Pool, leased: set<nat>) {
    && |p.inUse| == n && |p.free| + |leased| == n
    && (forall k :: k in leased ==> k < n)
    && (forall k :: 0 <= k < |p.free| ==> p.free[k] < n)
    && (forall k :: 0 <= k < n ==> (p.inUse[k] <==> k in leased))
    && (forall k :: 0 <= k < n ==> (k in p.free <==> k !in leased))
    && (forall j, k :: 0 <= j < k < |p.free| ==> p.free[j] != p.free[k])
  }

  lemma InitialBookkeeping(n: nat)
    ensures Bookkeeping(n, InitialPool(n), {})
  {
    var free := InitialPool(n).free;
    forall k | 0 <= k < n ensures k in free {
      assert free[n - 1 - k] == k;
    }
  }

  lemma TakeBookkeeping(n: nat, p: Pool, leased: set<nat>)
    requires Bookkeeping(n, p, leased) && p.free != []
    ensures TakeIndex(p) < n && TakeIndex(p) !in leased
    ensures Bookkeeping(n, AfterTake(p), leased + {TakeIndex(p)})
  {
    var i := TakeIndex(p);
    assert p.free[|p.free| - 1] == i;
    assert i in p.free;
    forall k | 0 <= k < n ensures k in AfterTake(p).free <==> k !in leased + {i} {
      assert k in p.free <==> k in AfterTake(p).free || k == i;
    }
  }

  lemma GiveBookkeeping(n: nat, p: Pool, leased: set<nat>, i: nat)
    requires Bookkeeping(n, p, leased) && i in leased
    ensures Bookkeeping(n, AfterGive(p, i), leased - {i})
  {
    assert i !in p.free;
  }
}
