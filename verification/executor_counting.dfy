/** Summing the partition over all indices: how many buffers the queues and workers can hold. */
module ExecutorCounting {
  import opened Base
  import opened Executor
  import opened ExecutorLeases
  import opened RunSpec

  ghost function SumFree(free: seq<nat>, n: nat): nat {
    if n == 0 then 0 else SumFree(free, n - 1) + InFree(free, n - 1)
  }

  ghost function SumItems(items: seq<Item>, n: nat): nat {
    if n == 0 then 0 else SumItems(items, n - 1) + InItems(items, n - 1)
  }

  ghost function SumHand(held: Option<nat>, n: nat): nat {
    if n == 0 then 0 else SumHand(held, n - 1) + InHand(held, n - 1)
  }

  ghost function Holds(held: Option<nat>): nat {
    if held.Some? then 1 else 0
  }

  lemma {:induction false} SumFreeStep(free: seq<nat>, n: nat)
    requires free != []
    ensures SumFree(free, n) == SumFree(free[..|free| - 1], n) + if free[|free| - 1] < n then 1 else 0
  {
    if n > 0 {
      SumFreeStep(free, n - 1);
    }
  }

  lemma {:induction false} SumFreeIsLength(free: seq<nat>, n: nat)
    requires forall i: nat {:trigger InFree(free, i)} :: i >= n ==> InFree(free, i) == 0
    ensures SumFree(free, n) == |free|
  {
    if free == [] {
      SumFreeEmpty(n);
    } else {
      SumFreeStep(free, n);
      assert InFree(free, free[|free| - 1]) > 0;
      forall i: nat {:trigger InFree(free[..|free| - 1], i)} | i >= n ensures InFree(free[..|free| - 1], i) == 0 {
        assert InFree(free, i) == 0;
      }
      SumFreeIsLength(free[..|free| - 1], n);
    }
  }

  lemma {:induction false} SumFreeEmpty(n: nat)
    ensures SumFree([], n) == 0
  {
    if n > 0 {
      SumFreeEmpty(n - 1);
    }
  }

  lemma {:induction false} SumItemsStep(items: seq<Item>, n: nat)
    requires items != []
    ensures SumItems(items, n) == SumItems(items[1..], n) + if items[0].buf < n then 1 else 0
  {
    if n > 0 {
      SumItemsStep(items, n - 1);
    }
  }

  lemma {:induction false} SumItemsIsLength(items: seq<Item>, n: nat)
    requires forall i: nat {:trigger InItems(items, i)} :: i >= n ==> InItems(items, i) == 0
    ensures SumItems(items, n) == |items|
  {
    if items == [] {
      SumItemsEmpty(n);
    } else {
      SumItemsStep(items, n);
      assert InItems(items, items[0].buf) > 0;
      forall i: nat | i >= n ensures InItems(items[1..], i) == 0 {
        assert InItems(items, i) == 0;
      }
      SumItemsIsLength(items[1..], n);
    }
  }

  lemma {:induction false} SumItemsEmpty(n: nat)
    ensures SumItems([], n) == 0
  {
    if n > 0 {
      SumItemsEmpty(n - 1);
    }
  }

  lemma {:induction false} SumHandIsHolds(held: Option<nat>, n: nat)
    ensures SumHand(held, n) == if held.Some? && held.value < n then 1 else 0
  {
    if n > 0 {
      SumHandIsHolds(held, n - 1);
    }
  }

  lemma {:induction false} SumPlaces(s: State, n: nat)
    requires forall i: nat :: i < n ==> Places(s, i) == 1
    ensures SumFree(s.pool.free, n) + SumHand(ReaderBuf(s.reader), n) + SumItems(s.first.items, n)
          + SumHand(ProcessorBuf(s.processor), n) + SumItems(s.second.items, n)
          + SumHand(WriterBuf(s.writer), n) == n
  {
    if n > 0 {
      SumPlaces(s, n - 1);
      assert Places(s, n - 1) == 1;
    }
  }

  /** The pool's buffers, counted by where they are. */
  lemma LeaseCount(c: Config, s: State)
    requires Partition(c, s)
    ensures |s.pool.free| + Holds(ReaderBuf(s.reader)) + |s.first.items| + Holds(ProcessorBuf(s.processor))
          + |s.second.items| + Holds(WriterBuf(s.writer)) == c.buffers
  {
    var n := c.buffers;
    SumPlaces(s, n);
    forall i: nat | i >= n
      ensures InFree(s.pool.free, i) == InItems(s.first.items, i) == InItems(s.second.items, i) == 0
      ensures InHand(ReaderBuf(s.reader), i) == InHand(ProcessorBuf(s.processor), i) == InHand(WriterBuf(s.writer), i) == 0
    {
      assert Places(s, i) == 0;
    }
    SumFreeIsLength(s.pool.free, n);
    SumItemsIsLength(s.first.items, n);
    SumItemsIsLength(s.second.items, n);
    HandWithin(ReaderBuf(s.reader), n);
    HandWithin(ProcessorBuf(s.processor), n);
    HandWithin(WriterBuf(s.writer), n);
  }

  lemma HandWithin(held: Option<nat>, n: nat)
    requires forall i: nat {:trigger InHand(held, i)} :: i >= n ==> InHand(held, i) == 0
    ensures SumHand(held, n) == Holds(held)
  {
    SumHandIsHolds(held, n);
    assert held.Some? ==> InHand(held, held.value) == 1;
  }
}
