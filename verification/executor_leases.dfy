/** Every buffer index is in exactly one place: the free list, a worker's hands, or a queue. */
module ExecutorLeases {
  import opened Base
  import opened BoundedQueue
  import opened Executor
  import opened LeaseSpec
  import opened RunSpec

  /** Occurrences of an index in the free stack, counted from the top. */
  ghost function InFree(free: seq<nat>, i: nat): nat {
    if free == [] then 0
    else InFree(free[..|free| - 1], i) + if free[|free| - 1] == i then 1 else 0
  }

  /** Occurrences of an index among queued items, counted from the head. */
  ghost function InItems(items: seq<Item>, i: nat): nat {
    if items == [] then 0
    else (if items[0].buf == i then 1 else 0) + InItems(items[1..], i)
  }

  ghost function ReaderBuf(pc: ReaderPc): Option<nat> {
    match pc
    case RRead(b) => Some(b)
    case RPush(item) => Some(item.buf)
    case RClose(b) => Some(b)
    case RDrop(b) => Some(b)
    case RUnwind(b, _) => Some(b)
    case _ => None
  }

  ghost function ProcessorBuf(pc: ProcessorPc): Option<nat> {
    match pc
    case PProcess(item) => Some(item.buf)
    case PPush(item) => Some(item.buf)
    case PUnwind(b, _) => Some(b)
    case _ => None
  }

  ghost function WriterBuf(pc: WriterPc): Option<nat> {
    match pc
    case WWrite(item, _) => Some(item.buf)
    case WCount(item) => Some(item.buf)
    case WRelease(b) => Some(b)
    case WUnwind(b, _) => Some(b)
    case _ => None
  }

  ghost function InHand(held: Option<nat>, i: nat): nat {
    if held == Some(i) then 1 else 0
  }

  /** How often index i occurs anywhere in the system. */
  ghost function Places(s: State, i: nat): nat {
    InFree(s.pool.free, i) + InHand(ReaderBuf(s.reader), i) + InItems(s.first.items, i)
    + InHand(ProcessorBuf(s.processor), i) + InItems(s.second.items, i) + InHand(WriterBuf(s.writer), i)
  }

  /** `in_use_` is the complement of the free list. */
  ghost predicate FlagsAgree(n: nat, p: Pool) {
    |p.inUse| == n && forall i: nat {:trigger InFree(p.free, i)} :: i < n ==> (p.inUse[i] <==> InFree(p.free, i) == 0)
  }

  ghost predicate Partition(c: Config, s: State) {
    && |s.buffers| == c.buffers
    && (forall i: nat :: Places(s, i) == if i < c.buffers then 1 else 0)
    && FlagsAgree(c.buffers, s.pool)
  }

  lemma {:induction false} InItemsAppend(items: seq<Item>, item: Item, i: nat)
    ensures InItems(items + [item], i) == InItems(items, i) + if item.buf == i then 1 else 0
  {
    if items != [] {
      InItemsAppend(items[1..], item, i);
      assert (items + [item])[1..] == items[1..] + [item];
    }
  }

  lemma {:induction false} InItemsMember(items: seq<Item>, k: nat)
    requires k < |items|
    ensures InItems(items, items[k].buf) > 0
  {
    if k > 0 {
      InItemsMember(items[1..], k - 1);
    }
  }

  lemma InFreeAppend(free: seq<nat>, b: nat, i: nat)
    ensures InFree(free + [b], i) == InFree(free, i) + if b == i then 1 else 0
  {
    assert (free + [b])[..|free|] == free;
  }

  lemma {:induction false} InitialFree(n: nat, k: nat, i: nat)
    requires k <= n
    ensures InFree(InitialPool(n).free[..k], i) == if n - k <= i < n then 1 else 0
  {
    if k > 0 {
      InitialFree(n, k - 1, i);
      var free := InitialPool(n).free;
      assert free[..k][..k - 1] == free[..k - 1];
    }
  }

  lemma InitPartition(c: Config)
    ensures Partition(c, Init(c))
  {
    var free := InitialPool(c.buffers).free;
    assert free[..c.buffers] == free;
    forall i: nat ensures Places(Init(c), i) == InFree(free, i) == if i < c.buffers then 1 else 0 {
      InitialFree(c.buffers, c.buffers, i);
    }
  }

  lemma TakeKeepsFlags(n: nat, p: Pool)
    requires |p.free| > 0 && FlagsAgree(n, p) && forall i: nat :: InFree(p.free, i) <= 1
    ensures FlagsAgree(n, AfterTake(p))
  {
    forall i: nat | i < n
      ensures AfterTake(p).inUse[i] <==> InFree(AfterTake(p).free, i) == 0
    {
      assert InFree(p.free, i) <= 1;
    }
  }

  lemma GiveKeepsFlags(n: nat, p: Pool, b: nat)
    requires FlagsAgree(n, p)
    ensures FlagsAgree(n, AfterGive(p, b))
  {
    forall i: nat | i < n
      ensures AfterGive(p, b).inUse[i] <==> InFree(AfterGive(p, b).free, i) == 0
    {
      InFreeAppend(p.free, b, i);
    }
  }

  lemma ReadKeepsPlaces(c: Config, s: State, buf: nat, i: nat)
    requires s.reader == RRead(buf)
    ensures Places(AfterRead(c, s, buf), i) == Places(s, i)
  {
    hide InFree, InItems;
    assert ReaderBuf(AfterRead(c, s, buf).reader) == Some(buf);
  }

  lemma ReaderPushKeepsPlaces(s: State, item: Item, i: nat)
    requires s.reader == RPush(item) && CanPush(s.first)
    ensures Places(AfterReaderPush(s, item), i) == Places(s, i)
  {
    hide InFree, InItems;
    InItemsAppend(s.first.items, item, i);
  }

  lemma ReaderKeepsPlaces(c: Config, s: State, i: nat)
    requires ReaderReady(c, s)
    ensures Places(ReaderNext(c, s), i) == Places(s, i)
  {
    match s.reader {
      case RRead(buf) => ReadKeepsPlaces(c, s, buf, i);
      case RPush(item) => ReaderPushKeepsPlaces(s, item, i);
      case RDrop(b) => InFreeAppend(s.pool.free, b, i);
      case RUnwind(b, _) => InFreeAppend(s.pool.free, b, i);
      case _ =>
    }
  }

  lemma ProcessKeepsPlaces(c: Config, s: State, item: Item, i: nat)
    requires s.processor == PProcess(item) && |s.stageMemory| == |c.stages|
    ensures Places(AfterProcess(c, s, item), i) == Places(s, i)
  {
    hide InFree, InItems;
    assert ProcessorBuf(AfterProcess(c, s, item).processor) == Some(item.buf);
  }

  lemma ProcessorPushKeepsPlaces(s: State, item: Item, i: nat)
    requires s.processor == PPush(item) && CanPush(s.second)
    ensures Places(AfterProcessorPush(s, item), i) == Places(s, i)
  {
    hide InFree, InItems;
    InItemsAppend(s.second.items, item, i);
  }

  lemma ProcessorKeepsPlaces(c: Config, s: State, i: nat)
    requires ProcessorReady(c, s)
    ensures Places(ProcessorNext(c, s), i) == Places(s, i)
  {
    match s.processor {
      case PProcess(item) => ProcessKeepsPlaces(c, s, item, i);
      case PPush(item) => ProcessorPushKeepsPlaces(s, item, i);
      case PUnwind(b, _) => InFreeAppend(s.pool.free, b, i);
      case _ =>
    }
  }

  lemma WriteKeepsPlaces(s: State, item: Item, done: nat, w: WriteChoice, i: nat)
    requires s.writer == WWrite(item, done)
    ensures Places(AfterWrite(s, item, done, w), i) == Places(s, i)
  {
    hide InFree, InItems;
    assert WriterBuf(AfterWrite(s, item, done, w).writer) == Some(item.buf);
  }

  lemma CountKeepsPlaces(s: State, item: Item, i: nat)
    requires s.writer == WCount(item)
    ensures Places(AfterCount(s, item), i) == Places(s, i)
  {
    hide InFree, InItems;
    assert WriterBuf(AfterCount(s, item).writer) == Some(item.buf);
  }

  lemma WriterPopKeepsPlaces(s: State, i: nat)
    requires s.writer == WPop && CanPop(s.second)
    ensures Places(AfterWriterPop(s), i) == Places(s, i)
  {
    hide InFree;
  }

  lemma WriterKeepsPlaces(c: Config, s: State, w: WriteChoice, i: nat)
    requires WriterReady(c, s, w)
    ensures Places(WriterNext(c, s, w), i) == Places(s, i)
  {
    match s.writer {
      case WPop => WriterPopKeepsPlaces(s, i);
      case WWrite(item, done) => WriteKeepsPlaces(s, item, done, w, i);
      case WCount(item) => CountKeepsPlaces(s, item, i);
      case WRelease(b) => InFreeAppend(s.pool.free, b, i);
      case WUnwind(b, _) => InFreeAppend(s.pool.free, b, i);
      case _ =>
    }
  }

  lemma DiscardFirstKeepsPlaces(s: State, i: nat)
    requires s.first.items != []
    ensures Places(DiscardFromFirst(s), i) == Places(s, i)
  {
    hide InFree, InHand;
    InFreeAppend(s.pool.free, s.first.items[0].buf, i);
  }

  lemma DiscardSecondKeepsPlaces(s: State, i: nat)
    requires s.second.items != []
    ensures Places(DiscardFromSecond(s), i) == Places(s, i)
  {
    hide InFree, InHand;
    InFreeAppend(s.pool.free, s.second.items[0].buf, i);
  }

  lemma FailKeepsPlaces(s: State, t: Tid, i: nat)
    requires FailReady(s, t)
    ensures Places(FailNext(s, t), i) == Places(s, i)
  {
    hide InFree, InHand, InItems, DiscardFromFirst, DiscardFromSecond, AfterRecord, AfterFailFirst, AfterFailSecond,
      AfterDiscardFirst, AfterDiscardSecond, ReaderBuf, ProcessorBuf, WriterBuf;
    if s.failing[t].DiscardFirst? && s.first.items != [] {
      DiscardFirstKeepsPlaces(s, i);
    } else if s.failing[t].DiscardSecond? && s.second.items != [] {
      DiscardSecondKeepsPlaces(s, i);
    }
  }
}
