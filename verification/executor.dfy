/** `PipelineExecutor::run` as a transition system. A state holds the pool, the buffers, the two
    queues with their mutexes, the program counter and locals of the four threads, and the output
    file. One action is one lock-protected section, one read, one run of the stages over a block,
    one `pwrite`, one lease release during unwinding, one thread spawn, or one piece of `fail_all`. */
module Executor {
  import opened Base
  import opened BoundedQueue
  import opened FileSpec
  import opened LeaseSpec
  import opened RunSpec
  import opened Stages

  /** A block on its way through the workers; its bytes stay in buffer `buf`. */
  datatype Item = Item(index: nat, offset: nat, len: nat, buf: nat)

  datatype Tid = MainThread | ReaderThread | ProcessorThread | WriterThread

  /** Where a thread is inside `fail_all`: recording `first_failure`, then `fail` on each queue.
      `fail` holds the queue's mutex while it returns the leases of the discarded items one by one. */
  datatype FailPhase =
    | Record(failure: Failure)
    | FailFirst(failure: Failure)
    | DiscardFirst(failure: Failure)
    | FailSecond(failure: Failure)
    | DiscardSecond(failure: Failure)

  datatype ReaderPc =
    | RUnstarted
    | RAcquire
    | RRead(buf: nat)
    | RPush(item: Item)
    | RClose(buf: nat)
    | RDrop(buf: nat)
    | RUnwind(buf: nat, failure: Failure)
    | RReturned
    | RFailed

  datatype ProcessorPc =
    | PUnstarted
    | PPop
    | PProcess(item: Item)
    | PPush(item: Item)
    | PClose
    | PUnwind(buf: nat, failure: Failure)
    | PReturned
    | PFailed

  datatype WriterPc =
    | WUnstarted
    | WPop
    | WWrite(item: Item, done: nat)
    | WCount(item: Item)
    | WRelease(buf: nat)
    | WUnwind(buf: nat, failure: Failure)
    | WReturned
    | WFailed

  datatype MainPc =
    | SpawnWriter
    | SpawnProcessor
    | SpawnReader
    | Joining
    | Returned
    | Threw(failure: Failure)

  datatype RunResult = RunResult(blocks: nat, bytes: nat)

  /** `failing` holds the threads that are inside `fail_all`; a worker whose counter is at
      RFailed, PFailed or WFailed has left its loop with an exception and finishes when it leaves
      that map. The last six fields are history: how many items left the first queue, were processed,
      entered and left the second queue, how much of the next block is in the file, and the
      exceptions thrown so far by an operation (not by a failed queue). */
  datatype State = State(
    pool: Pool, buffers: seq<seq<byte>>,
    first: Queue<Item>, firstLock: Option<Tid>,
    second: Queue<Item>, secondLock: Option<Tid>,
    reader: ReaderPc, blockIndex: nat, fileOffset: nat,
    processor: ProcessorPc, stageMemory: seq<int>,
    writer: WriterPc, output: seq<byte>, result: RunResult,
    main: MainPc, firstFailure: Option<Failure>, failing: map<Tid, FailPhase>,
    taken: nat, processed: nat, forwarded: nat, received: nat, partial: nat, raised: seq<Failure>)

  datatype WriteChoice = Wrote(n: nat) | WriteError(errno: int)

  datatype SpawnChoice = Spawned | SpawnThrew(errno: int)

  datatype Action =
    | StepReader
    | StepProcessor
    | StepWriter(write: WriteChoice)
    | StepMain(spawn: SpawnChoice)
    | StepFail(thread: Tid)

  function Init(c: Config): State {
    State(
      InitialPool(c.buffers), seq(c.buffers, _ => Zeros(c.blockSize)),
      Queue(c.depth, [], Open), None, Queue(c.depth, [], Open), None,
      RUnstarted, 0, 0, PUnstarted, c.memory0, WUnstarted, [], RunResult(0, 0),
      SpawnWriter, None, map[], 0, 0, 0, 0, 0, [])
  }

  /** The prefix of a leased buffer that an item makes visible. */
  function ValidData(buffers: seq<seq<byte>>, item: Item): seq<byte> {
    if item.buf < |buffers| then Slice(buffers[item.buf], 0, item.len) else []
  }

  function Fill(buffers: seq<seq<byte>>, buf: nat, data: seq<byte>): (r: seq<seq<byte>>)
    ensures |r| == |buffers|
  {
    if buf < |buffers| && |data| <= |buffers[buf]|
    then buffers[buf := data + buffers[buf][|data|..]]
    else buffers
  }

  function Raise(s: State, f: Failure): State {
    s.(raised := s.raised + [f])
  }

  /** The thread's catch handler enters `fail_all` with the exception it caught. */
  function Catch(s: State, t: Tid, f: Failure): State {
    s.(failing := s.failing[t := Record(f)])
  }

  // ----- the reader -----

  predicate ReaderReady(c: Config, s: State) {
    match s.reader
    case RAcquire => |s.pool.free| > 0
    case RRead(_) => true
    case RPush(_) => s.firstLock.None? && CanPush(s.first)
    case RClose(_) => s.firstLock.None?
    case RDrop(_) => true
    case RUnwind(_, _) => true
    case _ => false
  }

  /** Where the reader goes with the outcome of its read. */
  function ReaderAfterRead(c: Config, s: State, buf: nat): ReaderPc {
    match ReadAt(c, s.blockIndex)
    case ReadThrew(e) => RUnwind(buf, ReadFailed(e))
    case Got(n) =>
      if n == 0 then RClose(buf)
      else if s.fileOffset + n > U64_MAX then RUnwind(buf, OffsetOverflow)
      else if s.blockIndex == U64_MAX then RUnwind(buf, BlockIndexOverflow)
      else RPush(Item(s.blockIndex, s.fileOffset, n, buf))
  }

  function AfterRead(c: Config, s: State, buf: nat): State {
    var pc := ReaderAfterRead(c, s, buf);
    var n := Len(c, s.blockIndex);
    s.(reader := pc,
       buffers := if n == 0 then s.buffers else Fill(s.buffers, buf, Slice(c.input, s.fileOffset, n)),
       raised := if pc.RUnwind? then s.raised + [pc.failure] else s.raised)
  }

  function AfterReaderPush(s: State, item: Item): State
    requires CanPush(s.first)
  {
    match PushResult(s.first)
    case Pushed =>
      s.(first := AfterPush(s.first, item), reader := RAcquire,
         blockIndex := s.blockIndex + 1, fileOffset := s.fileOffset + item.len)
    case Rejected => Raise(s, ReadQueueClosed).(reader := RUnwind(item.buf, ReadQueueClosed))
    case PushThrew(f) => s.(reader := RUnwind(item.buf, f))
  }

  function ReaderNext(c: Config, s: State): State
    requires ReaderReady(c, s)
  {
    match s.reader
    case RAcquire => s.(pool := AfterTake(s.pool), reader := RRead(TakeIndex(s.pool)))
    case RRead(buf) => AfterRead(c, s, buf)
    case RPush(item) => AfterReaderPush(s, item)
    case RClose(buf) => s.(first := AfterClose(s.first), reader := RDrop(buf))
    case RDrop(buf) => s.(pool := AfterGive(s.pool, buf), reader := RReturned)
    case RUnwind(buf, f) => Catch(s, ReaderThread, f).(pool := AfterGive(s.pool, buf), reader := RFailed)
    case _ => s
  }

  // ----- the processor -----

  predicate ProcessorReady(c: Config, s: State) {
    match s.processor
    case PPop => s.firstLock.None? && CanPop(s.first)
    case PProcess(_) => |s.stageMemory| == |c.stages|
    case PPush(_) => s.secondLock.None? && CanPush(s.second)
    case PClose => s.secondLock.None?
    case PUnwind(_, _) => true
    case _ => false
  }

  function AfterProcessorPop(s: State): State
    requires CanPop(s.first)
  {
    match PopResult(s.first)
    case Popped(item) =>
      s.(first := AfterPop(s.first), taken := s.taken + 1, processor := PProcess(item))
    case EndOfStream => s.(processor := PClose)
    case PopThrew(f) => Catch(s, ProcessorThread, f).(processor := PFailed)
  }

  function AfterProcess(c: Config, s: State, item: Item): State
    requires |s.stageMemory| == |c.stages|
  {
    var out := ProcessAll(c.stages, s.stageMemory, ValidData(s.buffers, item));
    var pc := if out.thrown.Some? then PUnwind(item.buf, StageFailed(out.thrown.value)) else PPush(item);
    s.(stageMemory := out.memory, buffers := Fill(s.buffers, item.buf, out.bytes), processor := pc,
       processed := if pc.PPush? then s.processed + 1 else s.processed,
       raised := if pc.PUnwind? then s.raised + [pc.failure] else s.raised)
  }

  function AfterProcessorPush(s: State, item: Item): State
    requires CanPush(s.second)
  {
    match PushResult(s.second)
    case Pushed =>
      s.(second := AfterPush(s.second, item), forwarded := s.forwarded + 1, processor := PPop)
    case Rejected => Raise(s, WriteQueueClosed).(processor := PUnwind(item.buf, WriteQueueClosed))
    case PushThrew(f) => s.(processor := PUnwind(item.buf, f))
  }

  function ProcessorNext(c: Config, s: State): State
    requires ProcessorReady(c, s)
  {
    match s.processor
    case PPop => AfterProcessorPop(s)
    case PProcess(item) => AfterProcess(c, s, item)
    case PPush(item) => AfterProcessorPush(s, item)
    case PClose => s.(second := AfterClose(s.second), processor := PReturned)
    case PUnwind(buf, f) => Catch(s, ProcessorThread, f).(pool := AfterGive(s.pool, buf), processor := PFailed)
    case _ => s
  }

  // ----- the writer -----

  predicate WriterReady(c: Config, s: State, w: WriteChoice) {
    match s.writer
    case WPop => s.secondLock.None? && CanPop(s.second)
    case WWrite(item, done) => w.Wrote? ==> done + w.n <= item.len
    case WCount(_) => true
    case WRelease(_) => true
    case WUnwind(_, _) => true
    case _ => false
  }

  function AfterWriterPop(s: State): State
    requires CanPop(s.second)
  {
    match PopResult(s.second)
    case Popped(item) =>
      s.(second := AfterPop(s.second), received := s.received + 1, writer := WWrite(item, 0))
    case EndOfStream => s.(writer := WReturned)
    case PopThrew(f) => Catch(s, WriterThread, f).(writer := WFailed)
  }

  /** One `pwrite` of the loop that writes the block: short, failing, or writing nothing. */
  function AfterWrite(s: State, item: Item, done: nat, w: WriteChoice): State {
    match w
    case WriteError(e) => Raise(s, WriteFailed(e)).(writer := WUnwind(item.buf, WriteFailed(e)))
    case Wrote(n) =>
      if n == 0 then Raise(s, WriteFailed(EIO)).(writer := WUnwind(item.buf, WriteFailed(EIO)))
      else
        var chunk := Slice(ValidData(s.buffers, item), done, n);
        s.(output := Overlay(s.output, item.offset + done, chunk), partial := done + n,
           writer := if done + n == item.len then WCount(item) else WWrite(item, done + n))
  }

  function AfterCount(s: State, item: Item): State {
    if s.result.bytes + item.len > U64_MAX then
      Raise(s, ByteCountOverflow).(writer := WUnwind(item.buf, ByteCountOverflow))
    else if s.result.blocks == U64_MAX then
      Raise(s, BlockCountOverflow).(result := RunResult(s.result.blocks, s.result.bytes + item.len),
        writer := WUnwind(item.buf, BlockCountOverflow))
    else
      s.(result := RunResult(s.result.blocks + 1, s.result.bytes + item.len), partial := 0,
         writer := WRelease(item.buf))
  }

  function WriterNext(c: Config, s: State, w: WriteChoice): State
    requires WriterReady(c, s, w)
  {
    match s.writer
    case WPop => AfterWriterPop(s)
    case WWrite(item, done) => AfterWrite(s, item, done, w)
    case WCount(item) => AfterCount(s, item)
    case WRelease(buf) => s.(pool := AfterGive(s.pool, buf), writer := WPop)
    case WUnwind(buf, f) => Catch(s, WriterThread, f).(pool := AfterGive(s.pool, buf), writer := WFailed)
    case _ => s
  }

  // ----- the thread that called run -----

  /** Every thread that was started has ended, and no thread is inside `fail_all`. */
  predicate Finished(s: State) {
    && s.failing == map[]
    && (s.reader.RUnstarted? || s.reader.RReturned? || s.reader.RFailed?)
    && (s.processor.PUnstarted? || s.processor.PReturned? || s.processor.PFailed?)
    && (s.writer.WUnstarted? || s.writer.WReturned? || s.writer.WFailed?)
  }

  predicate MainReady(s: State) {
    match s.main
    case SpawnWriter => true
    case SpawnProcessor => true
    case SpawnReader => true
    case Joining => Finished(s)
    case _ => false
  }

  function MainNext(s: State, spawn: SpawnChoice): State
    requires MainReady(s)
  {
    if s.main.Joining? then
      s.(main := if s.firstFailure.Some? then Threw(s.firstFailure.value) else Returned)
    else if spawn.SpawnThrew? then
      Catch(Raise(s, SpawnFailed(spawn.errno)), MainThread, SpawnFailed(spawn.errno)).(main := Joining)
    else match s.main
      case SpawnWriter => s.(writer := WPop, main := SpawnProcessor)
      case SpawnProcessor => s.(processor := PPop, main := SpawnReader)
      case _ => s.(reader := RAcquire, main := Joining)
  }

  // ----- fail_all, run by whichever thread caught an exception -----

  /** A step of `fail_all` that moves no block and no worker, revives no queue, and leaves a recorded
      failure as it is. */
  predicate MovesNothing(s: State, n: State) {
    && n.pool == s.pool && n.buffers == s.buffers
    && n.first.items == s.first.items && n.first.capacity == s.first.capacity
    && n.second.items == s.second.items && n.second.capacity == s.second.capacity
    && (n.first.state == s.first.state || (!s.first.state.Failed? && n.first.state.Failed?))
    && (n.second.state == s.second.state || (!s.second.state.Failed? && n.second.state.Failed?))
    && n.reader == s.reader && n.blockIndex == s.blockIndex && n.fileOffset == s.fileOffset
    && n.processor == s.processor && n.stageMemory == s.stageMemory
    && n.writer == s.writer && n.output == s.output && n.result == s.result && n.main == s.main
    && n.taken == s.taken && n.processed == s.processed && n.forwarded == s.forwarded
    && n.received == s.received && n.partial == s.partial && n.raised == s.raised
    && (s.firstFailure.Some? ==> n.firstFailure == s.firstFailure)
  }

  function At(s: State, t: Tid, phase: FailPhase): (n: State)
    ensures MovesNothing(s, n) && n.failing == s.failing[t := phase]
  {
    s.(failing := s.failing[t := phase])
  }

  function Leave(s: State, t: Tid): (n: State)
    ensures MovesNothing(s, n) && n.failing == s.failing - {t}
  {
    s.(failing := s.failing - {t})
  }

  predicate FailReady(s: State, t: Tid) {
    t in s.failing &&
    match s.failing[t]
    case FailFirst(_) => s.firstLock.None?
    case FailSecond(_) => s.secondLock.None?
    case _ => true
  }

  function AfterRecord(s: State, t: Tid, f: Failure): (n: State)
    ensures MovesNothing(s, n)
    ensures exists g :: n.failing == s.failing[t := FailFirst(g)]
  {
    var canonical := if s.firstFailure.Some? then s.firstFailure.value else f;
    At(s.(firstFailure := Some(canonical)), t, FailFirst(canonical))
  }

  function DiscardFromFirst(s: State): State
    requires s.first.items != []
  {
    s.(pool := AfterGive(s.pool, s.first.items[0].buf), first := s.first.(items := s.first.items[1..]))
  }

  function DiscardFromSecond(s: State): State
    requires s.second.items != []
  {
    s.(pool := AfterGive(s.pool, s.second.items[0].buf), second := s.second.(items := s.second.items[1..]))
  }

  /** `fail` on the first queue, up to the point where its mutex is held and its items are
      about to be discarded, or all of it when the queue had already failed. */
  function AfterFailFirst(s: State, t: Tid, f: Failure): (n: State)
    ensures MovesNothing(s, n)
    ensures n.failing == s.failing[t := FailSecond(f)] || n.failing == s.failing[t := DiscardFirst(f)]
  {
    if s.first.state.Failed? then At(s, t, FailSecond(f))
    else At(s.(first := s.first.(state := Failed(f)), firstLock := Some(t)), t, DiscardFirst(f))
  }

  function AfterFailSecond(s: State, t: Tid, f: Failure): (n: State)
    ensures MovesNothing(s, n)
    ensures n.failing == s.failing - {t} || n.failing == s.failing[t := DiscardSecond(f)]
  {
    if s.second.state.Failed? then Leave(s, t)
    else At(s.(second := s.second.(state := Failed(f)), secondLock := Some(t)), t, DiscardSecond(f))
  }

  /** The end of `fail` on a queue: the mutex is released. */
  function AfterDiscardFirst(s: State, t: Tid, f: Failure): (n: State)
    ensures MovesNothing(s, n) && n.failing == s.failing[t := FailSecond(f)]
  {
    At(s.(firstLock := None), t, FailSecond(f))
  }

  function AfterDiscardSecond(s: State, t: Tid): (n: State)
    ensures MovesNothing(s, n) && n.failing == s.failing - {t}
  {
    Leave(s.(secondLock := None), t)
  }

  function FailNext(s: State, t: Tid): State
    requires FailReady(s, t)
  {
    match s.failing[t]
    case Record(f) => AfterRecord(s, t, f)
    case FailFirst(f) => AfterFailFirst(s, t, f)
    case DiscardFirst(f) =>
      if s.first.items == [] then AfterDiscardFirst(s, t, f) else DiscardFromFirst(s)
    case FailSecond(f) => AfterFailSecond(s, t, f)
    case DiscardSecond(f) =>
      if s.second.items == [] then AfterDiscardSecond(s, t) else DiscardFromSecond(s)
  }

  // ----- runs -----

  predicate Enabled(c: Config, s: State, a: Action) {
    match a
    case StepReader => ReaderReady(c, s)
    case StepProcessor => ProcessorReady(c, s)
    case StepWriter(w) => WriterReady(c, s, w)
    case StepMain(_) => MainReady(s)
    case StepFail(t) => FailReady(s, t)
  }

  function Next(c: Config, s: State, a: Action): State
    requires Enabled(c, s, a)
  {
    match a
    case StepReader => ReaderNext(c, s)
    case StepProcessor => ProcessorNext(c, s)
    case StepWriter(w) => WriterNext(c, s, w)
    case StepMain(spawn) => MainNext(s, spawn)
    case StepFail(t) => FailNext(s, t)
  }

  /** An interleaving: every action is enabled where it is taken. */
  predicate Legal(c: Config, s: State, run: seq<Action>)
    decreases |run|
  {
    run == [] || (Enabled(c, s, run[0]) && Legal(c, Next(c, s, run[0]), run[1..]))
  }

  function Exec(c: Config, s: State, run: seq<Action>): State
    requires Legal(c, s, run)
    decreases |run|
  {
    if run == [] then s else Exec(c, Next(c, s, run[0]), run[1..])
  }

  predicate Terminal(s: State) {
    s.main.Returned? || s.main.Threw?
  }
}
