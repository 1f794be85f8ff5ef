/** How far the reader runs ahead of the writer, exactly, and why the pool does not always bound it. */
module ExecutorRunAhead {
  import opened Base
  import opened BoundedQueue
  import opened Executor
  import opened ExecutorControl
  import opened ExecutorCounting
  import opened ExecutorFlow
  import opened ExecutorInvariant
  import opened ExecutorLeases
  import opened ExecutorTheorems
  import opened FileSpec
  import opened RunSpec
  import opened Stages

  // ----- blocks that a throwing worker dropped -----

  /** A worker that threw over a block of its own has taken that block and not passed it on. */
  predicate ProcessorDrops(pc: ProcessorPc, first: Queue<Item>, taken: nat, forwarded: nat) {
    && (pc.PUnwind? ==> taken == forwarded + 1)
    && (pc.PFailed? ==> first.state.Failed? || taken == forwarded + 1)
  }

  predicate WriterDrops(pc: WriterPc, second: Queue<Item>, received: nat, blocks: nat) {
    && (pc.WUnwind? ==> received == blocks + 1)
    && (pc.WFailed? ==> second.state.Failed? || received == blocks + 1)
  }

  predicate Drops(s: State) {
    && ProcessorDrops(s.processor, s.first, s.taken, s.forwarded)
    && WriterDrops(s.writer, s.second, s.received, s.result.blocks)
  }

  lemma ProcessorKeepsDrops(c: Config, s: State)
    requires Accepted(c) && Drops(s) && ProcessorReady(c, s)
    requires ProcessorFlow(c, s.buffers, s.processor, s.stageMemory, s.taken, s.processed, s.forwarded)
    ensures Drops(ProcessorNext(c, s))
  {
    hide MemoryAt, ProcessAll, RawItem, DoneItem, Fill;
  }

  lemma WriterKeepsDrops(c: Config, s: State, w: WriteChoice)
    requires Accepted(c) && Drops(s) && WriterReady(c, s, w)
    requires WriterFlow(c, s.buffers, s.writer, s.result.blocks, s.partial, s.received)
    ensures Drops(WriterNext(c, s, w))
  {
    hide ProcessorDrops, RawItem, DoneItem, ValidData, Overlay;
  }

  lemma ReaderKeepsDrops(c: Config, s: State)
    requires Drops(s) && ReaderReady(c, s)
    ensures Drops(ReaderNext(c, s))
  {
    hide Fill, ReaderAfterRead;
  }

  lemma MainKeepsDrops(s: State, spawn: SpawnChoice)
    requires Drops(s) && MainReady(s)
    ensures Drops(MainNext(s, spawn))
  {
  }

  lemma FailKeepsDrops(s: State, t: Tid)
    requires Drops(s) && FailReady(s, t)
    ensures Drops(FailNext(s, t))
  {
    hide AfterRecord, AfterFailFirst, AfterFailSecond, AfterDiscardFirst, AfterDiscardSecond;
  }

  lemma NextKeepsDrops(c: Config, s: State, a: Action)
    requires Inv(c, s) && Drops(s) && Enabled(c, s, a)
    ensures Drops(Next(c, s, a))
  {
    hide Partition, Locks, Agreement, Lifecycles, Drops, ProcessorFlow, WriterFlow;
    match a {
      case StepReader => ReaderKeepsDrops(c, s);
      case StepProcessor => ProcessorKeepsDrops(c, s);
      case StepWriter(w) => WriterKeepsDrops(c, s, w);
      case StepMain(spawn) => MainKeepsDrops(s, spawn);
      case StepFail(t) => FailKeepsDrops(s, t);
    }
  }

  lemma {:induction false} RunKeepsDrops(c: Config, s: State, run: seq<Action>)
    requires Inv(c, s) && Drops(s) && Legal(c, s, run)
    ensures Drops(Exec(c, s, run))
    decreases |run|
  {
    hide Inv, Drops, Enabled, Next;
    if run != [] {
      NextKeepsDrops(c, s, run[0]);
      NextInv(c, s, run[0]);
      RunKeepsDrops(c, Next(c, s, run[0]), run[1..]);
    }
  }

  lemma ReachedDrops(c: Config, run: seq<Action>, s: State)
    requires Reaches(c, run, s)
    ensures Drops(s)
  {
    hide Inv;
    InitInv(c);
    RunKeepsDrops(c, Init(c), run);
  }

  // ----- the exact distance -----

  /** Leased buffers that hold no block under way: the reader's before its block is read or after the
      last one, and the writer's after its block was counted. */
  ghost function Spare(s: State): nat {
    (if ReaderBuf(s.reader).Some? && !s.reader.RPush? then 1 else 0) + (if s.writer.WRelease? then 1 else 0)
  }

  /** Blocks whose lease a stopped worker has already given back. */
  function Dropped(s: State): nat {
    (if s.processor.PFailed? then 1 else 0) + (if s.writer.WFailed? then 1 else 0)
  }

  /** While both queues are alive, the distance between reader and writer is the number of buffers
      that are neither free nor spare, and the blocks that were dropped come on top. It stays within
      the number of buffers exactly when the free and the spare ones make up for the dropped blocks. */
  lemma RunAheadExactly(c: Config, run: seq<Action>, s: State)
    requires Reaches(c, run, s) && !s.first.state.Failed? && !s.second.state.Failed?
    ensures BlocksRead(s) - s.result.blocks == c.buffers - |s.pool.free| - Spare(s) + Dropped(s)
    ensures BlocksRead(s) - s.result.blocks <= c.buffers <==> Dropped(s) <= |s.pool.free| + Spare(s)
  {
    hide Partition, Locks, Agreement, Lifecycles, RawItem, DoneItem, MemoryAt, Legal, Exec, Accepted;
    ReachedInv(c, run, s);
    ReachedDrops(c, run, s);
    LeaseCount(c, s);
  }

  // ----- a run that gets further ahead -----

  function Explode(memory: int, bytes: seq<byte>): StageOutcome {
    StageOutcome(memory, bytes, Some(1))
  }

  function TwoBlocks(k: nat): ReadResult {
    if k < 2 then Got(1) else Got(0)
  }

  /** One buffer, two blocks, and a stage that throws. */
  function ThrowingConfig(): Config {
    Config(1, 1, 1, [7, 8], TwoBlocks, [Explode], [0])
  }

  lemma {:induction false} ThrowingOffsets(k: nat)
    ensures Off(ThrowingConfig(), k) == if k < 2 then k else 2
  {
    if k > 0 {
      ThrowingOffsets(k - 1);
      assert ReadAt(ThrowingConfig(), k - 1) == TwoBlocks(k - 1);
    }
  }

  lemma ThrowingConfigIsAccepted()
    ensures Accepted(ThrowingConfig())
  {
    var c := ThrowingConfig();
    forall k: nat ensures ReadOk(c, k) {
      ThrowingOffsets(k);
      assert ReadAt(c, k) == TwoBlocks(k);
    }
    forall m, b: seq<byte> ensures |Run(c.stages[0], m, b).bytes| == |b| {
      assert Run(c.stages[0], m, b) == Explode(m, b);
    }
    assert KeepsLength(c.stages[0]);
  }

  lemma {:induction false} LegalSnoc(c: Config, s: State, run: seq<Action>, a: Action)
    requires Legal(c, s, run) && Enabled(c, Exec(c, s, run), a)
    ensures Legal(c, s, run + [a]) && Exec(c, s, run + [a]) == Next(c, Exec(c, s, run), a)
    decreases |run|
  {
    hide Enabled, Next;
    if run == [] {
      assert [] + [a] == [a] && [a][1..] == [];
      assert Legal(c, Next(c, s, a), []);
    } else {
      LegalSnoc(c, Next(c, s, run[0]), run[1..], a);
      assert (run + [a])[0] == run[0] && (run + [a])[1..] == run[1..] + [a];
    }
  }

  /** One more step of a run. */
  lemma Extend(c: Config, run: seq<Action>, s: State, a: Action) returns (longer: seq<Action>, n: State)
    requires Reaches(c, run, s) && Enabled(c, s, a)
    ensures Reaches(c, longer, n) && n == Next(c, s, a)
  {
    hide Enabled, Next;
    LegalSnoc(c, Init(c), run, a);
    longer, n := run + [a], Next(c, s, a);
  }

  lemma ThreadsStart() returns (run: seq<Action>, s: State)
    ensures Reaches(ThrowingConfig(), run, s)
    ensures s == Init(ThrowingConfig()).(writer := WPop, processor := PPop, reader := RAcquire, main := Joining)
  {
    var c := ThrowingConfig();
    ThrowingConfigIsAccepted();
    hide Accepted, Legal, Exec;
    run, s := [], Init(c);
    assert Reaches(c, run, s) by { NoSteps(c); }
    run, s := Extend(c, run, s, StepMain(Spawned));
    run, s := Extend(c, run, s, StepMain(Spawned));
    run, s := Extend(c, run, s, StepMain(Spawned));
  }

  lemma NoSteps(c: Config)
    requires Accepted(c)
    ensures Reaches(c, [], Init(c))
  {
  }

  /** The first block is read and handed to the processor. */
  lemma FirstBlockArrives() returns (run: seq<Action>, s: State)
    ensures Reaches(ThrowingConfig(), run, s)
    ensures s.processor == PProcess(Item(0, 0, 1, 0)) && s.reader == RAcquire && s.writer == WPop
    ensures s.pool.free == [] && s.blockIndex == 1 && s.fileOffset == 1 && s.result == RunResult(0, 0)
    ensures s.first.state.Open? && s.second.state.Open? && s.first.items == [] && s.firstLock.None?
    ensures s.stageMemory == [0] && s.failing == map[] && |s.buffers| == 1
  {
    var c := ThrowingConfig();
    run, s := ThreadsStart();
    hide Reaches, Fill;
    assert s.pool.free == [0];
    run, s := Extend(c, run, s, StepReader);
    assert ReadAt(c, 0) == TwoBlocks(0);
    run, s := Extend(c, run, s, StepReader);
    assert s.reader == RPush(Item(0, 0, 1, 0));
    run, s := Extend(c, run, s, StepReader);
    run, s := Extend(c, run, s, StepProcessor);
  }

  /** The bound on the run-ahead by the number of buffers fails while both queues are still open: a
      processor whose stage threw gives its lease back before it fails the queues, and the reader can
      read the next block in between. */
  lemma RunAheadExceedsBuffers() returns (run: seq<Action>, s: State)
    ensures var c := ThrowingConfig();
            && Reaches(c, run, s) && s.first.state.Open? && s.second.state.Open?
            && BlocksRead(s) - s.result.blocks == 2 > c.buffers
  {
    var c := ThrowingConfig();
    run, s := FirstBlockArrives();
    hide Reaches, Fill;
    ThrowingOutcome(ValidData(s.buffers, s.processor.item));
    run, s := Extend(c, run, s, StepProcessor);
    assert s.processor == PUnwind(0, StageFailed(1));
    run, s := Extend(c, run, s, StepProcessor);
    assert s.pool.free == [0] && s.first.state.Open?;
    run, s := Extend(c, run, s, StepReader);
    assert ReadAt(c, 1) == TwoBlocks(1);
    run, s := Extend(c, run, s, StepReader);
    assert s.reader.RPush?;
  }

  lemma ThrowingOutcome(bytes: seq<byte>)
    ensures ProcessAll(ThrowingConfig().stages, [0], bytes) == BlockOutcome([0], bytes, Some(1))
  {
    assert Run(ThrowingConfig().stages[0], 0, bytes) == Explode(0, bytes);
  }
}
