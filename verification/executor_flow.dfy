/** What the blocks in flight are: each queue holds consecutive blocks, the bytes behind an item are
    the input block before the processor and the transformed block after it, and the file is the
    transform of a block prefix plus part of the next block. */
module ExecutorFlow {
  import opened Base
  import opened BoundedQueue
  import opened Executor
  import opened ExecutorControl
  import opened ExecutorLeases
  import opened FileSpec
  import opened RunSpec
  import opened Stages

  ghost predicate ItemAt(c: Config, item: Item, k: nat) {
    item.index == k && item.offset == Off(c, k) && item.len == Len(c, k) && HasData(c, k)
  }

  ghost predicate RawItem(c: Config, buffers: seq<seq<byte>>, item: Item, k: nat) {
    ItemAt(c, item, k) && ValidData(buffers, item) == Raw(c, k)
  }

  ghost predicate DoneItem(c: Config, buffers: seq<seq<byte>>, item: Item, k: nat)
    requires |c.stages| == |c.memory0|
  {
    ItemAt(c, item, k) && ValidData(buffers, item) == Transformed(c, k)
  }

  ghost predicate BuffersShaped(c: Config, buffers: seq<seq<byte>>) {
    |buffers| == c.buffers && forall b :: 0 <= b < |buffers| ==> |buffers[b]| == c.blockSize
  }

  /** The reader's locals follow the schedule, and it stops only at end of input. */
  ghost predicate ReaderFlow(c: Config, buffers: seq<seq<byte>>, pc: ReaderPc, blockIndex: nat, fileOffset: nat) {
    && fileOffset == Off(c, blockIndex) <= U64_MAX
    && Delivered(c, blockIndex)
    && (pc.RPush? ==> RawItem(c, buffers, pc.item, blockIndex) && fileOffset + pc.item.len <= U64_MAX)
    && (pc.RClose? || pc.RDrop? || pc.RReturned? ==> ReadAt(c, blockIndex) == Got(0))
  }

  /** The first queue holds the blocks that were read and not yet taken, in order. */
  ghost predicate FirstFlow(c: Config, buffers: seq<seq<byte>>, q: Queue<Item>, taken: nat, blockIndex: nat) {
    && taken <= blockIndex
    && (!q.state.Failed? ==>
          && taken + |q.items| == blockIndex
          && forall i: nat :: i < |q.items| ==> RawItem(c, buffers, q.items[i], taken + i))
  }

  /** The stage memory is the serial one, and the processor holds the next block or none. */
  ghost predicate ProcessorFlow(c: Config, buffers: seq<seq<byte>>, pc: ProcessorPc, memory: seq<int>,
                                taken: nat, processed: nat, forwarded: nat)
    requires |c.stages| == |c.memory0|
  {
    && forwarded <= processed <= taken <= forwarded + 1
    && Clean(c, processed)
    && |memory| == |c.stages|
    && (!pc.PUnwind? && !pc.PFailed? ==> memory == MemoryAt(c, processed))
    && match pc
       case PProcess(item) =>
         taken == processed + 1 && forwarded == processed && RawItem(c, buffers, item, processed)
       case PPush(item) =>
         taken == processed == forwarded + 1 && DoneItem(c, buffers, item, forwarded)
       case PUnwind(_, _) => true
       case PFailed => true
       case _ => taken == processed == forwarded
  }

  /** The second queue holds the blocks that were forwarded and not yet received, in order. */
  ghost predicate SecondFlow(c: Config, buffers: seq<seq<byte>>, q: Queue<Item>, received: nat, forwarded: nat)
    requires |c.stages| == |c.memory0|
  {
    && received <= forwarded
    && (!q.state.Failed? ==>
          && received + |q.items| == forwarded
          && forall i: nat :: i < |q.items| ==> DoneItem(c, buffers, q.items[i], received + i))
  }

  /** The file is the transform of the counted blocks and of `partial` bytes of the next one. */
  ghost predicate FileFlow(c: Config, output: seq<byte>, result: RunResult, partial: nat, received: nat)
    requires |c.stages| == |c.memory0|
  {
    && result.bytes == Off(c, result.blocks)
    && output == SerialOutput(c, result.blocks) + Slice(Transformed(c, result.blocks), 0, partial)
    && partial <= Len(c, result.blocks)
    && result.blocks <= received <= result.blocks + 1
    && (partial > 0 ==> received == result.blocks + 1)
  }

  ghost predicate WriterFlow(c: Config, buffers: seq<seq<byte>>, pc: WriterPc, blocks: nat, partial: nat, received: nat)
    requires |c.stages| == |c.memory0|
  {
    match pc
    case WWrite(item, done) =>
      received == blocks + 1 && partial == done < item.len && DoneItem(c, buffers, item, blocks)
    case WCount(item) =>
      received == blocks + 1 && partial == item.len && DoneItem(c, buffers, item, blocks)
    case WUnwind(_, _) => true
    case WFailed => true
    case _ => received == blocks && partial == 0
  }

  /** A consumer that saw the end of its queue has seen every block of the input. */
  ghost predicate EndFlow(c: Config, s: State) {
    && (s.processor.PClose? || s.processor.PReturned? ==>
          s.processed == s.blockIndex && ReadAt(c, s.blockIndex) == Got(0))
    && (s.writer.WReturned? ==> s.processor.PReturned? && s.result.blocks == s.processed)
  }

  ghost predicate Flow(c: Config, s: State)
    requires |c.stages| == |c.memory0|
  {
    && BuffersShaped(c, s.buffers)
    && ReaderFlow(c, s.buffers, s.reader, s.blockIndex, s.fileOffset)
    && FirstFlow(c, s.buffers, s.first, s.taken, s.blockIndex)
    && ProcessorFlow(c, s.buffers, s.processor, s.stageMemory, s.taken, s.processed, s.forwarded)
    && SecondFlow(c, s.buffers, s.second, s.received, s.forwarded)
    && WriterFlow(c, s.buffers, s.writer, s.result.blocks, s.partial, s.received)
    && FileFlow(c, s.output, s.result, s.partial, s.received)
    && EndFlow(c, s)
  }

  lemma InitFlow(c: Config)
    requires Accepted(c)
    ensures Flow(c, Init(c))
  {
  }

  // ----- buffers in different hands do not interfere -----

  lemma ReaderBufferIsPrivate(c: Config, s: State, b: nat)
    requires Partition(c, s) && ReaderBuf(s.reader) == Some(b)
    ensures b < c.buffers && ProcessorBuf(s.processor) != Some(b) && WriterBuf(s.writer) != Some(b)
    ensures forall i :: 0 <= i < |s.first.items| ==> s.first.items[i].buf != b
    ensures forall i :: 0 <= i < |s.second.items| ==> s.second.items[i].buf != b
  {
    assert 1 <= Places(s, b) <= 1;
    forall i | 0 <= i < |s.first.items| ensures s.first.items[i].buf != b {
      InItemsMember(s.first.items, i);
    }
    forall i | 0 <= i < |s.second.items| ensures s.second.items[i].buf != b {
      InItemsMember(s.second.items, i);
    }
  }

  lemma ProcessorBufferIsPrivate(c: Config, s: State, b: nat)
    requires Partition(c, s) && ProcessorBuf(s.processor) == Some(b)
    ensures b < c.buffers && ReaderBuf(s.reader) != Some(b) && WriterBuf(s.writer) != Some(b)
    ensures forall i :: 0 <= i < |s.first.items| ==> s.first.items[i].buf != b
    ensures forall i :: 0 <= i < |s.second.items| ==> s.second.items[i].buf != b
  {
    assert 1 <= Places(s, b) <= 1;
    forall i | 0 <= i < |s.first.items| ensures s.first.items[i].buf != b {
      InItemsMember(s.first.items, i);
    }
    forall i | 0 <= i < |s.second.items| ensures s.second.items[i].buf != b {
      InItemsMember(s.second.items, i);
    }
  }

  lemma FillKeepsShape(c: Config, buffers: seq<seq<byte>>, buf: nat, data: seq<byte>)
    requires BuffersShaped(c, buffers)
    ensures BuffersShaped(c, Fill(buffers, buf, data))
  {
  }

  lemma FillHere(buffers: seq<seq<byte>>, buf: nat, data: seq<byte>, item: Item)
    requires buf < |buffers| && |data| <= |buffers[buf]|
    requires item.buf == buf && item.len == |data|
    ensures ValidData(Fill(buffers, buf, data), item) == data
  {
  }

  lemma FillElsewhere(buffers: seq<seq<byte>>, buf: nat, data: seq<byte>, item: Item)
    requires item.buf != buf
    ensures ValidData(Fill(buffers, buf, data), item) == ValidData(buffers, item)
  {
  }

  lemma FillKeepsFirst(c: Config, buffers: seq<seq<byte>>, buf: nat, data: seq<byte>, q: Queue<Item>,
                       taken: nat, blockIndex: nat)
    requires FirstFlow(c, buffers, q, taken, blockIndex)
    requires forall i :: 0 <= i < |q.items| ==> q.items[i].buf != buf
    ensures FirstFlow(c, Fill(buffers, buf, data), q, taken, blockIndex)
  {
    forall i: nat | i < |q.items| && !q.state.Failed?
      ensures RawItem(c, Fill(buffers, buf, data), q.items[i], taken + i)
    {
      FillElsewhere(buffers, buf, data, q.items[i]);
    }
  }

  lemma FillKeepsSecond(c: Config, buffers: seq<seq<byte>>, buf: nat, data: seq<byte>, q: Queue<Item>,
                        received: nat, forwarded: nat)
    requires |c.stages| == |c.memory0|
    requires SecondFlow(c, buffers, q, received, forwarded)
    requires forall i :: 0 <= i < |q.items| ==> q.items[i].buf != buf
    ensures SecondFlow(c, Fill(buffers, buf, data), q, received, forwarded)
  {
    forall i: nat | i < |q.items| && !q.state.Failed?
      ensures DoneItem(c, Fill(buffers, buf, data), q.items[i], received + i)
    {
      FillElsewhere(buffers, buf, data, q.items[i]);
    }
  }

  lemma FillKeepsReader(c: Config, buffers: seq<seq<byte>>, buf: nat, data: seq<byte>, pc: ReaderPc, k: nat, offset: nat)
    requires ReaderFlow(c, buffers, pc, k, offset) && ReaderBuf(pc) != Some(buf)
    ensures ReaderFlow(c, Fill(buffers, buf, data), pc, k, offset)
  {
    if pc.RPush? {
      FillElsewhere(buffers, buf, data, pc.item);
    }
  }

  lemma FillKeepsProcessor(c: Config, buffers: seq<seq<byte>>, buf: nat, data: seq<byte>,
                           pc: ProcessorPc, memory: seq<int>, taken: nat, processed: nat, forwarded: nat)
    requires |c.stages| == |c.memory0|
    requires ProcessorFlow(c, buffers, pc, memory, taken, processed, forwarded) && ProcessorBuf(pc) != Some(buf)
    ensures ProcessorFlow(c, Fill(buffers, buf, data), pc, memory, taken, processed, forwarded)
  {
    if pc.PProcess? || pc.PPush? {
      FillElsewhere(buffers, buf, data, pc.item);
    }
  }

  lemma FillKeepsWriter(c: Config, buffers: seq<seq<byte>>, buf: nat, data: seq<byte>,
                        pc: WriterPc, blocks: nat, partial: nat, received: nat)
    requires |c.stages| == |c.memory0|
    requires WriterFlow(c, buffers, pc, blocks, partial, received) && WriterBuf(pc) != Some(buf)
    ensures WriterFlow(c, Fill(buffers, buf, data), pc, blocks, partial, received)
  {
    if pc.WWrite? || pc.WCount? {
      FillElsewhere(buffers, buf, data, pc.item);
    }
  }

  // ----- the ends of the two queues -----

  lemma FirstHead(c: Config, buffers: seq<seq<byte>>, q: Queue<Item>, taken: nat, blockIndex: nat)
    requires FirstFlow(c, buffers, q, taken, blockIndex) && !q.state.Failed? && q.items != []
    ensures RawItem(c, buffers, q.items[0], taken)
    ensures FirstFlow(c, buffers, q.(items := q.items[1..]), taken + 1, blockIndex)
  {
    var rest := q.items[1..];
    forall i: nat | i < |rest| ensures RawItem(c, buffers, rest[i], taken + 1 + i) {
      assert RawItem(c, buffers, q.items[i + 1], taken + (i + 1));
    }
  }

  lemma SecondHead(c: Config, buffers: seq<seq<byte>>, q: Queue<Item>, received: nat, forwarded: nat)
    requires |c.stages| == |c.memory0|
    requires SecondFlow(c, buffers, q, received, forwarded) && !q.state.Failed? && q.items != []
    ensures DoneItem(c, buffers, q.items[0], received)
    ensures SecondFlow(c, buffers, q.(items := q.items[1..]), received + 1, forwarded)
  {
    var rest := q.items[1..];
    forall i: nat | i < |rest| ensures DoneItem(c, buffers, rest[i], received + 1 + i) {
      assert DoneItem(c, buffers, q.items[i + 1], received + (i + 1));
    }
  }

  lemma SecondTail(c: Config, buffers: seq<seq<byte>>, q: Queue<Item>, received: nat, forwarded: nat, item: Item)
    requires |c.stages| == |c.memory0|
    requires SecondFlow(c, buffers, q, received, forwarded) && DoneItem(c, buffers, item, forwarded)
    ensures SecondFlow(c, buffers, q.(items := q.items + [item]), received, forwarded + 1) || q.state.Failed?
  {
  }

  // ----- the reader -----

  lemma ReadKeepsFlow(c: Config, s: State, buf: nat)
    requires Accepted(c) && Partition(c, s) && Flow(c, s) && s.reader == RRead(buf)
    ensures Flow(c, AfterRead(c, s, buf))
  {
    hide FirstFlow, SecondFlow, ProcessorFlow, WriterFlow, FileFlow;
    var data := Slice(c.input, s.fileOffset, Len(c, s.blockIndex));
    assert ReadOk(c, s.blockIndex);
    ReaderBufferIsPrivate(c, s, buf);
    FillKeepsShape(c, s.buffers, buf, data);
    FillKeepsFirst(c, s.buffers, buf, data, s.first, s.taken, s.blockIndex);
    FillKeepsSecond(c, s.buffers, buf, data, s.second, s.received, s.forwarded);
    FillKeepsProcessor(c, s.buffers, buf, data, s.processor, s.stageMemory, s.taken, s.processed, s.forwarded);
    FillKeepsWriter(c, s.buffers, buf, data, s.writer, s.result.blocks, s.partial, s.received);
    ReadKeepsReaderFlow(c, s, buf);
  }

  lemma ReadKeepsReaderFlow(c: Config, s: State, buf: nat)
    requires ReadOk(c, s.blockIndex) && BuffersShaped(c, s.buffers) && buf < c.buffers
    requires ReaderFlow(c, s.buffers, s.reader, s.blockIndex, s.fileOffset) && s.reader == RRead(buf)
    ensures var n := AfterRead(c, s, buf); ReaderFlow(c, n.buffers, n.reader, n.blockIndex, n.fileOffset)
  {
    var data := Slice(c.input, s.fileOffset, Len(c, s.blockIndex));
    if ReadAt(c, s.blockIndex).Got? {
      FillHere(s.buffers, buf, data, Item(s.blockIndex, s.fileOffset, |data|, buf));
    }
  }

  lemma ReaderPushKeepsFlow(c: Config, s: State, item: Item)
    requires Accepted(c) && Flow(c, s) && Lifecycles(c, s) && s.reader == RPush(item) && CanPush(s.first)
    ensures Flow(c, AfterReaderPush(s, item))
  {
    hide ProcessorFlow, SecondFlow, WriterFlow, FileFlow;
  }

  lemma ReaderKeepsFlow(c: Config, s: State)
    requires Accepted(c) && Partition(c, s) && Flow(c, s) && Lifecycles(c, s) && ReaderReady(c, s)
    ensures Flow(c, ReaderNext(c, s))
  {
    hide ProcessorFlow, SecondFlow, WriterFlow, FileFlow;
    match s.reader {
      case RRead(buf) => ReadKeepsFlow(c, s, buf);
      case RPush(item) => ReaderPushKeepsFlow(c, s, item);
      case _ =>
    }
  }

  // ----- the processor -----

  lemma ProcessorPopKeepsFlow(c: Config, s: State)
    requires Accepted(c) && Flow(c, s) && Lifecycles(c, s) && s.processor.PPop? && CanPop(s.first)
    ensures Flow(c, AfterProcessorPop(s))
  {
    hide SecondFlow, WriterFlow, FileFlow;
    if !s.first.state.Failed? && s.first.items != [] {
      FirstHead(c, s.buffers, s.first, s.taken, s.blockIndex);
    }
  }

  lemma ProcessKeepsFlow(c: Config, s: State, item: Item)
    requires Accepted(c) && Partition(c, s) && Flow(c, s) && s.processor == PProcess(item)
    ensures Flow(c, AfterProcess(c, s, item))
  {
    hide FirstFlow, SecondFlow, WriterFlow, FileFlow;
    var data := ProcessAll(c.stages, s.stageMemory, ValidData(s.buffers, item)).bytes;
    ProcessorBufferIsPrivate(c, s, item.buf);
    FillKeepsShape(c, s.buffers, item.buf, data);
    FillKeepsFirst(c, s.buffers, item.buf, data, s.first, s.taken, s.blockIndex);
    FillKeepsSecond(c, s.buffers, item.buf, data, s.second, s.received, s.forwarded);
    FillKeepsReader(c, s.buffers, item.buf, data, s.reader, s.blockIndex, s.fileOffset);
    FillKeepsWriter(c, s.buffers, item.buf, data, s.writer, s.result.blocks, s.partial, s.received);
    ProcessKeepsProcessorFlow(c, s, item);
  }

  lemma ProcessKeepsProcessorFlow(c: Config, s: State, item: Item)
    requires Accepted(c) && BuffersShaped(c, s.buffers) && s.processor == PProcess(item) && item.buf < c.buffers
    requires ProcessorFlow(c, s.buffers, s.processor, s.stageMemory, s.taken, s.processed, s.forwarded)
    ensures var n := AfterProcess(c, s, item);
            ProcessorFlow(c, n.buffers, n.processor, n.stageMemory, n.taken, n.processed, n.forwarded)
  {
    assert HasData(c, s.processed);
    RawLength(c, s.processed);
    FillHere(s.buffers, item.buf, Transformed(c, s.processed), item);
    assert Unthrown(c, s.processed) ==> Clean(c, s.processed + 1);
  }

  lemma ProcessorPushKeepsFlow(c: Config, s: State, item: Item)
    requires Accepted(c) && Flow(c, s) && Lifecycles(c, s) && s.processor == PPush(item) && CanPush(s.second)
    ensures Flow(c, AfterProcessorPush(s, item))
  {
    hide FirstFlow, WriterFlow, FileFlow;
    SecondTail(c, s.buffers, s.second, s.received, s.forwarded, item);
  }

  lemma ProcessorKeepsFlow(c: Config, s: State)
    requires Accepted(c) && Partition(c, s) && Flow(c, s) && Lifecycles(c, s) && ProcessorReady(c, s)
    ensures Flow(c, ProcessorNext(c, s))
  {
    hide FirstFlow, ReaderFlow, WriterFlow, FileFlow;
    match s.processor {
      case PPop => ProcessorPopKeepsFlow(c, s);
      case PProcess(item) => ProcessKeepsFlow(c, s, item);
      case PPush(item) => ProcessorPushKeepsFlow(c, s, item);
      case _ =>
    }
  }

  // ----- the writer -----

  /** The writer takes the next finished block. */
  lemma BlockPopKeepsFlow(c: Config, s: State)
    requires Accepted(c) && Flow(c, s) && s.writer.WPop? && !s.second.state.Failed? && s.second.items != []
    ensures Flow(c, AfterWriterPop(s))
  {
    hide BuffersShaped, ReaderFlow, FirstFlow, ProcessorFlow, SecondFlow, ReadContract, KeepsLength, RawItem;
    SecondHead(c, s.buffers, s.second, s.received, s.forwarded);
  }

  /** The writer sees the end of its queue. */
  lemma EndPopKeepsFlow(c: Config, s: State)
    requires Accepted(c) && Flow(c, s) && Lifecycles(c, s) && s.writer.WPop? && s.second.state.Closed?
    requires s.second.items == []
    ensures Flow(c, AfterWriterPop(s))
  {
    hide BuffersShaped, ReaderFlow, FirstFlow, FileFlow, ReadContract, KeepsLength, RawItem, DoneItem, Clean, MemoryAt;
  }

  /** The writer meets the failure of its queue. */
  lemma FailedPopKeepsFlow(c: Config, s: State)
    requires Accepted(c) && Flow(c, s) && s.writer.WPop? && s.second.state.Failed?
    ensures Flow(c, AfterWriterPop(s))
  {
    hide BuffersShaped, ReaderFlow, FirstFlow, ProcessorFlow, SecondFlow, FileFlow, ReadContract, KeepsLength;
  }

  lemma WriterPopKeepsFlow(c: Config, s: State)
    requires Accepted(c) && Flow(c, s) && Lifecycles(c, s) && s.writer.WPop? && CanPop(s.second)
    ensures Flow(c, AfterWriterPop(s))
  {
    hide Accepted, Flow, Lifecycles, AfterWriterPop;
    if s.second.state.Failed? {
      FailedPopKeepsFlow(c, s);
    } else if s.second.items != [] {
      BlockPopKeepsFlow(c, s);
    } else {
      EndPopKeepsFlow(c, s);
    }
  }

  lemma CountedBlocksDelivered(c: Config, s: State)
    requires |c.stages| == |c.memory0| && Flow(c, s)
    ensures s.result.blocks <= s.received <= s.forwarded <= s.processed <= s.taken <= s.blockIndex
    ensures Delivered(c, s.result.blocks)
  {
  }

  lemma WriteKeepsFlow(c: Config, s: State, item: Item, done: nat, w: WriteChoice)
    requires Accepted(c) && Flow(c, s) && s.writer == WWrite(item, done)
    requires w.Wrote? ==> done + w.n <= item.len
    ensures Flow(c, AfterWrite(s, item, done, w))
  {
    hide ReaderFlow, FirstFlow, ProcessorFlow, SecondFlow, ReadContract, KeepsLength, Overlay;
    if w.Wrote? && w.n > 0 {
      var k := s.result.blocks;
      CountedBlocksDelivered(c, s);
      ChunkExtendsFile(c, item, ValidData(s.buffers, item), s.output, k, done, w.n);
    }
  }

  /** One more chunk of block k lands at the end of the file. */
  lemma ChunkExtendsFile(c: Config, item: Item, data: seq<byte>, output: seq<byte>, k: nat, done: nat, n: nat)
    requires Accepted(c) && ItemAt(c, item, k) && data == Transformed(c, k) && Delivered(c, k)
    requires done + n <= item.len
    requires output == SerialOutput(c, k) + Slice(Transformed(c, k), 0, done)
    ensures Overlay(output, item.offset + done, Slice(data, done, n))
         == SerialOutput(c, k) + Slice(Transformed(c, k), 0, done + n)
  {
    hide KeepsLength, ReadContract, ProcessAll, MemoryAt, Processed, SerialOutput;
    RawLength(c, k);
    SerialOutputLength(c, k);
    OverlayAtEnd(output, Slice(data, done, n));
    assert data[..done] + data[done..done + n] == data[..done + n];
  }

  lemma CountKeepsFlow(c: Config, s: State, item: Item)
    requires Accepted(c) && Flow(c, s) && s.writer == WCount(item) && WriterCannotOverflow(s)
    ensures Flow(c, AfterCount(s, item))
  {
    hide ReaderFlow, FirstFlow, ProcessorFlow, SecondFlow;
    RawLength(c, s.result.blocks);
  }

  lemma WriterKeepsFlow(c: Config, s: State, w: WriteChoice)
    requires Accepted(c) && Flow(c, s) && Lifecycles(c, s) && WriterReady(c, s, w) && WriterCannotOverflow(s)
    ensures Flow(c, WriterNext(c, s, w))
  {
    hide ReaderFlow, FirstFlow, ProcessorFlow, SecondFlow, FileFlow;
    match s.writer {
      case WPop => WriterPopKeepsFlow(c, s);
      case WWrite(item, done) => WriteKeepsFlow(c, s, item, done, w);
      case WCount(item) => CountKeepsFlow(c, s, item);
      case _ =>
    }
  }

  // ----- the calling thread and fail_all -----

  lemma MainKeepsFlow(c: Config, s: State, spawn: SpawnChoice)
    requires Accepted(c) && Flow(c, s) && Lifecycles(c, s) && MainReady(s)
    ensures Flow(c, MainNext(s, spawn))
  {
    hide FirstFlow, SecondFlow, FileFlow;
  }

  lemma FailKeepsFlow(c: Config, s: State, t: Tid)
    requires Accepted(c) && Flow(c, s) && Lifecycles(c, s) && Locks(s) && FailReady(s, t)
    ensures Flow(c, FailNext(s, t))
  {
    FailTouchesQueuesOnly(c, s, t);
  }

  lemma FailTouchesQueuesOnly(c: Config, s: State, t: Tid)
    requires Lifecycles(c, s) && Locks(s) && FailReady(s, t)
    ensures var n := FailNext(s, t);
            && n == s.(pool := n.pool, first := n.first, firstLock := n.firstLock, second := n.second,
                       secondLock := n.secondLock, firstFailure := n.firstFailure, failing := n.failing)
            && (n.first.state.Failed? || n.first == s.first)
            && (n.second.state.Failed? || n.second == s.second)
  {
    hide Finished, Lifecycles, Locks, AfterRecord, AfterFailFirst, AfterFailSecond, AfterDiscardFirst,
      AfterDiscardSecond;
    DiscardingMeansFailed(c, s, t);
  }

  lemma DiscardingMeansFailed(c: Config, s: State, t: Tid)
    requires Lifecycles(c, s) && Locks(s) && FailReady(s, t)
    ensures s.failing[t].DiscardFirst? ==> s.first.state.Failed?
    ensures s.failing[t].DiscardSecond? ==> s.second.state.Failed?
  {
  }

  // ----- the counter overflows that cannot happen -----

  lemma ReaderIndexFits(c: Config, s: State)
    requires Accepted(c) && Flow(c, s)
    ensures ReaderCannotOverflowIndex(c, s)
  {
    if ReaderReady(c, s) && s.reader.RRead? && Len(c, s.blockIndex) > 0 {
      OffsetBounds(c, s.blockIndex + 1);
      assert HasData(c, s.blockIndex);
      assert Delivered(c, s.blockIndex + 1);
      assert Off(c, s.blockIndex + 1) == s.fileOffset + Len(c, s.blockIndex);
    }
  }

  lemma WriterCountersFit(c: Config, s: State)
    requires Accepted(c) && Flow(c, s)
    ensures WriterCannotOverflow(s)
  {
    if s.writer.WCount? {
      var k := s.result.blocks;
      assert HasData(c, k);
      OffsetMonotone(c, k + 1, s.blockIndex);
      assert Delivered(c, k + 1);
      OffsetBounds(c, k + 1);
    }
  }
}
