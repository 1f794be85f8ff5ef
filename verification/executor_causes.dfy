/** Where the exceptions of a run come from: each is the outcome of a read, a stage, a write or a spawn
    of that very run. */
module ExecutorCauses {
  import opened Base
  import opened BoundedQueue
  import opened Executor
  import opened ExecutorControl
  import opened ExecutorFlow
  import opened ExecutorInvariant
  import opened ExecutorLeases
  import opened ExecutorTheorems
  import opened RunSpec
  import opened Stages

  /** What the schedule alone can raise: a backend error on a read that is reached, a stage's exception
      on a block that is reached, or a file offset past 64 bits. */
  ghost predicate ScheduleRaises(c: Config, f: Failure)
    requires |c.stages| == |c.memory0|
  {
    match f
    case ReadFailed(e) => exists k: nat :: ReadRaises(c, k, e)
    case StageFailed(x) => exists k: nat :: StageRaises(c, k, x)
    case OffsetOverflow => exists k: nat :: OffsetOverflows(c, k)
    case _ => false
  }

  ghost predicate ReadRaises(c: Config, k: nat, e: int) {
    Delivered(c, k) && ReadAt(c, k) == ReadThrew(e)
  }

  ghost predicate StageRaises(c: Config, k: nat, x: int)
    requires |c.stages| == |c.memory0|
  {
    Delivered(c, k + 1) && Clean(c, k) && Processed(c, k).thrown == Some(x)
  }

  ghost predicate OffsetOverflows(c: Config, k: nat) {
    Delivered(c, k + 1) && Off(c, k + 1) > U64_MAX
  }

  /** What this action can raise: a failing `pwrite` or one that wrote nothing, or a failing spawn. */
  predicate ActionRaises(a: Action, f: Failure) {
    match f
    case WriteFailed(e) => a == StepWriter(WriteError(e)) || (e == EIO && a == StepWriter(Wrote(0)))
    case SpawnFailed(e) => a == StepMain(SpawnThrew(e))
    case _ => false
  }

  ghost predicate Caused(c: Config, run: seq<Action>, f: Failure)
    requires |c.stages| == |c.memory0|
  {
    ScheduleRaises(c, f) || exists a :: a in run && ActionRaises(a, f)
  }

  /** One step raises at most one exception, and that has its cause in the step. */
  ghost predicate RaisesForCause(c: Config, s: State, n: State, a: Action)
    requires |c.stages| == |c.memory0|
  {
    n.raised == s.raised
    || exists f :: n.raised == s.raised + [f] && (ScheduleRaises(c, f) || ActionRaises(a, f))
  }

  lemma ReadRaisesForCause(c: Config, s: State, buf: nat)
    requires Accepted(c) && Flow(c, s) && s.reader == RRead(buf) && ReaderCannotOverflowIndex(c, s)
    ensures RaisesForCause(c, s, AfterRead(c, s, buf), StepReader)
  {
    hide BuffersShaped, FirstFlow, ProcessorFlow, SecondFlow, WriterFlow, FileFlow, EndFlow, Fill, KeepsLength,
      ReadContract;
    var k := s.blockIndex;
    match ReadAt(c, k) {
      case ReadThrew(e) =>
        assert ReadRaises(c, k, e);
        assert AfterRead(c, s, buf).raised == s.raised + [ReadFailed(e)];
      case Got(n) =>
        if n > 0 && s.fileOffset + n > U64_MAX {
          assert HasData(c, k);
          assert OffsetOverflows(c, k);
          assert AfterRead(c, s, buf).raised == s.raised + [OffsetOverflow];
        }
    }
  }

  lemma ReaderRaisesForCause(c: Config, s: State)
    requires Inv(c, s) && ReaderReady(c, s)
    ensures RaisesForCause(c, s, ReaderNext(c, s), StepReader)
  {
    ReaderIndexFits(c, s);
    hide Partition, Locks, Agreement, Flow, AfterRead, ScheduleRaises, KeepsLength, ReadContract;
    match s.reader {
      case RRead(buf) => ReadRaisesForCause(c, s, buf);
      case _ =>
    }
  }

  lemma ProcessRaisesForCause(c: Config, s: State, item: Item)
    requires Accepted(c) && Flow(c, s) && s.processor == PProcess(item)
    ensures |s.stageMemory| == |c.stages| && RaisesForCause(c, s, AfterProcess(c, s, item), StepProcessor)
  {
    hide BuffersShaped, FirstFlow, SecondFlow, WriterFlow, FileFlow, EndFlow, Fill, KeepsLength, ReadContract, ProcessAll,
      MemoryAt;
    var k := s.processed;
    assert ValidData(s.buffers, item) == Raw(c, k);
    var out := Processed(c, k);
    if out.thrown.Some? {
      assert Delivered(c, k + 1) by {
        CountedBlocksDelivered(c, s);
        assert HasData(c, k);
      }
      assert StageRaises(c, k, out.thrown.value);
      assert AfterProcess(c, s, item).raised == s.raised + [StageFailed(out.thrown.value)];
    }
  }

  lemma ProcessorRaisesForCause(c: Config, s: State)
    requires Inv(c, s) && ProcessorReady(c, s)
    ensures RaisesForCause(c, s, ProcessorNext(c, s), StepProcessor)
  {
    hide Partition, Locks, Agreement, Flow, AfterProcess, ScheduleRaises, KeepsLength, ReadContract;
    match s.processor {
      case PProcess(item) => ProcessRaisesForCause(c, s, item);
      case _ =>
    }
  }

  lemma WriterRaisesForCause(c: Config, s: State, w: WriteChoice)
    requires Inv(c, s) && WriterReady(c, s, w)
    ensures RaisesForCause(c, s, WriterNext(c, s, w), StepWriter(w))
  {
    WriterCountersFit(c, s);
    hide Inv, ScheduleRaises, ValidData, AfterWrite, AfterWriterPop;
    match s.writer {
      case WPop => PopRaisesNothing(s);
      case WWrite(item, done) => WriteRaisesForCause(c, s, item, done, w);
      case _ =>
    }
  }

  lemma PopRaisesNothing(s: State)
    requires CanPop(s.second)
    ensures AfterWriterPop(s).raised == s.raised
  {
  }

  lemma WriteRaisesForCause(c: Config, s: State, item: Item, done: nat, w: WriteChoice)
    requires |c.stages| == |c.memory0|
    ensures RaisesForCause(c, s, AfterWrite(s, item, done, w), StepWriter(w))
  {
    hide ScheduleRaises, ValidData;
    var n := AfterWrite(s, item, done, w);
    if n.raised != s.raised {
      var e := if w.WriteError? then w.errno else EIO;
      assert n.raised == s.raised + [WriteFailed(e)];
      assert ActionRaises(StepWriter(w), WriteFailed(e));
    }
  }

  lemma MainRaisesForCause(c: Config, s: State, spawn: SpawnChoice)
    requires |c.stages| == |c.memory0| && MainReady(s)
    ensures RaisesForCause(c, s, MainNext(s, spawn), StepMain(spawn))
  {
    hide ScheduleRaises, Finished;
    if !s.main.Joining? && spawn.SpawnThrew? {
      assert MainNext(s, spawn).raised == s.raised + [SpawnFailed(spawn.errno)];
      assert ActionRaises(StepMain(spawn), SpawnFailed(spawn.errno));
    }
  }

  lemma FailRaisesNothing(s: State, t: Tid)
    requires FailReady(s, t)
    ensures FailNext(s, t).raised == s.raised
  {
    hide AfterRecord, AfterFailFirst, AfterFailSecond, AfterDiscardFirst, AfterDiscardSecond;
  }

  lemma StepRaisesForCause(c: Config, s: State, a: Action)
    requires Inv(c, s) && Enabled(c, s, a)
    ensures RaisesForCause(c, s, Next(c, s, a), a)
  {
    hide RaisesForCause, Partition, Locks, Agreement, Lifecycles, Flow, KeepsLength, ReadContract;
    match a {
      case StepReader => ReaderRaisesForCause(c, s);
      case StepProcessor => ProcessorRaisesForCause(c, s);
      case StepWriter(w) => WriterRaisesForCause(c, s, w);
      case StepMain(spawn) => MainRaisesForCause(c, s, spawn);
      case StepFail(t) =>
        FailRaisesNothing(s, t);
        SameRaises(c, s, FailNext(s, t), a);
    }
  }

  lemma SameRaises(c: Config, s: State, n: State, a: Action)
    requires |c.stages| == |c.memory0| && n.raised == s.raised
    ensures RaisesForCause(c, s, n, a)
  {
  }

  lemma {:induction false} RunRaisesForCause(c: Config, s: State, run: seq<Action>, f: Failure)
    requires Inv(c, s) && Legal(c, s, run) && f in Exec(c, s, run).raised
    ensures f in s.raised || Caused(c, run, f)
    decreases |run|
  {
    hide Enabled, Next, ScheduleRaises, ActionRaises, Partition, Locks, Agreement, Lifecycles, Flow,
      KeepsLength, ReadContract;
    if run != [] {
      var n := Next(c, s, run[0]);
      NextInv(c, s, run[0]);
      StepRaisesForCause(c, s, run[0]);
      RunRaisesForCause(c, n, run[1..], f);
      if f in n.raised && f !in s.raised {
        assert run[0] in run;
      } else if f !in n.raised && !ScheduleRaises(c, f) {
        var a :| a in run[1..] && ActionRaises(a, f);
        assert a in run;
      }
    }
  }

  /** Every exception of a run is the outcome of one of its operations, with that operation's own error,
      and so is the one that `run` rethrows. */
  lemma FailuresHaveCauses(c: Config, run: seq<Action>, s: State)
    requires Reaches(c, run, s)
    ensures forall f :: f in s.raised ==> Caused(c, run, f)
    ensures s.main.Threw? ==> Caused(c, run, s.main.failure)
    ensures s.firstFailure.Some? ==> Caused(c, run, s.firstFailure.value)
  {
    InitInv(c);
    ReachedInv(c, run, s);
    FailuresAgree(c, run, s);
    hide Caused, Legal, Exec, Partition, Locks, Lifecycles, Flow;
    forall f | f in s.raised ensures Caused(c, run, f) {
      RunRaisesForCause(c, Init(c), run, f);
    }
  }

  // ----- what the stages have seen -----

  ghost predicate StageThrew(raised: seq<Failure>) {
    exists f :: f in raised && f.StageFailed?
  }

  /** The stages have run over the processed blocks and over the one on which a stage threw, once each. */
  ghost predicate StagesSeen(c: Config, s: State)
    requires |c.stages| == |c.memory0|
  {
    && s.stageMemory == MemoryAt(c, s.processed + if StageThrew(s.raised) then 1 else 0)
    && (StageThrew(s.raised) ==> !Unthrown(c, s.processed) && (s.processor.PUnwind? || s.processor.PFailed?))
  }

  lemma ProcessKeepsSeen(c: Config, s: State, item: Item)
    requires Accepted(c) && Flow(c, s) && s.processor == PProcess(item) && StagesSeen(c, s)
    ensures |s.stageMemory| == |c.stages| && StagesSeen(c, AfterProcess(c, s, item))
  {
    hide BuffersShaped, FirstFlow, SecondFlow, WriterFlow, FileFlow, EndFlow, Fill, KeepsLength, ReadContract, ProcessAll;
    assert ValidData(s.buffers, item) == Raw(c, s.processed);
    assert AfterProcess(c, s, item).stageMemory == MemoryAt(c, s.processed + 1);
    var thrown := Processed(c, s.processed).thrown;
    if thrown.Some? {
      assert StageFailed(thrown.value) in AfterProcess(c, s, item).raised;
    }
  }

  /** A step in which no stage runs. */
  ghost predicate NoStageRuns(s: State, n: State) {
    && n.stageMemory == s.stageMemory && n.processed == s.processed
    && (n.raised == s.raised || exists f: Failure :: !f.StageFailed? && n.raised == s.raised + [f])
    && (s.processor.PUnwind? || s.processor.PFailed? ==> n.processor.PUnwind? || n.processor.PFailed?)
  }

  lemma NoStageKeepsSeen(c: Config, s: State, n: State)
    requires |c.stages| == |c.memory0| && StagesSeen(c, s) && NoStageRuns(s, n)
    ensures StagesSeen(c, n)
  {
    forall f | f in s.raised && f.StageFailed? ensures f in n.raised {
    }
    assert StageThrew(n.raised) <==> StageThrew(s.raised);
  }

  lemma ReaderRunsNoStage(c: Config, s: State)
    requires ReaderReady(c, s)
    ensures NoStageRuns(s, ReaderNext(c, s))
  {
    hide Fill;
    var n := ReaderNext(c, s);
    if n.raised != s.raised {
      assert n.raised == s.raised + [n.reader.failure] && !n.reader.failure.StageFailed?;
    }
  }

  lemma ProcessorRunsNoStage(c: Config, s: State)
    requires ProcessorReady(c, s) && !s.processor.PProcess?
    ensures NoStageRuns(s, ProcessorNext(c, s))
  {
    var n := ProcessorNext(c, s);
    if n.raised != s.raised {
      assert n.raised == s.raised + [WriteQueueClosed];
    }
  }

  lemma WriterRunsNoStage(c: Config, s: State, w: WriteChoice)
    requires WriterReady(c, s, w)
    ensures NoStageRuns(s, WriterNext(c, s, w))
  {
    hide NoStageRuns, AfterWriterPop, AfterWrite, AfterCount;
    if s.writer.WPop? {
      WriterPopRunsNoStage(s);
    } else if s.writer.WWrite? {
      WriteRunsNoStage(s, s.writer.item, s.writer.done, w);
    } else if s.writer.WCount? {
      CountRunsNoStage(s, s.writer.item);
    } else {
      SameStages(s, WriterNext(c, s, w));
    }
  }

  lemma SameStages(s: State, n: State)
    requires n.stageMemory == s.stageMemory && n.processed == s.processed && n.raised == s.raised
    requires n.processor == s.processor
    ensures NoStageRuns(s, n)
  {
  }

  lemma WriterPopRunsNoStage(s: State)
    requires CanPop(s.second)
    ensures NoStageRuns(s, AfterWriterPop(s))
  {
  }

  lemma WriteRunsNoStage(s: State, item: Item, done: nat, w: WriteChoice)
    ensures NoStageRuns(s, AfterWrite(s, item, done, w))
  {
    hide ValidData;
    var n := AfterWrite(s, item, done, w);
    if n.raised != s.raised {
      assert n.raised == s.raised + [n.writer.failure] && !n.writer.failure.StageFailed?;
    }
  }

  lemma CountRunsNoStage(s: State, item: Item)
    ensures NoStageRuns(s, AfterCount(s, item))
  {
    var n := AfterCount(s, item);
    if n.raised != s.raised {
      assert n.raised == s.raised + [n.writer.failure] && !n.writer.failure.StageFailed?;
    }
  }

  lemma MainRunsNoStage(c: Config, s: State, spawn: SpawnChoice)
    requires Inv(c, s) && MainReady(s)
    ensures NoStageRuns(s, MainNext(s, spawn))
  {
    hide Partition, Locks, Flow;
    var n := MainNext(s, spawn);
    if n.raised != s.raised {
      assert n.raised == s.raised + [SpawnFailed(spawn.errno)];
    }
  }

  lemma FailRunsNoStage(s: State, t: Tid)
    requires FailReady(s, t)
    ensures NoStageRuns(s, FailNext(s, t))
  {
    hide AfterRecord, AfterFailFirst, AfterFailSecond, AfterDiscardFirst, AfterDiscardSecond;
  }

  lemma StepKeepsSeen(c: Config, s: State, a: Action)
    requires Inv(c, s) && Enabled(c, s, a) && StagesSeen(c, s)
    ensures StagesSeen(c, Next(c, s, a))
  {
    hide StagesSeen, NoStageRuns, Partition, Locks, Agreement, Lifecycles, Flow, KeepsLength, ReadContract, AfterProcess;
    if a.StepProcessor? && s.processor.PProcess? {
      ProcessKeepsSeen(c, s, s.processor.item);
    } else {
      match a {
        case StepReader => ReaderRunsNoStage(c, s);
        case StepProcessor => ProcessorRunsNoStage(c, s);
        case StepWriter(w) => WriterRunsNoStage(c, s, w);
        case StepMain(spawn) => MainRunsNoStage(c, s, spawn);
        case StepFail(t) => FailRunsNoStage(s, t);
      }
      NoStageKeepsSeen(c, s, Next(c, s, a));
    }
  }

  lemma {:induction false} RunKeepsSeen(c: Config, s: State, run: seq<Action>)
    requires Inv(c, s) && Legal(c, s, run) && StagesSeen(c, s)
    ensures StagesSeen(c, Exec(c, s, run))
    decreases |run|
  {
    hide Enabled, Next, StagesSeen, Partition, Locks, Agreement, Lifecycles, Flow, KeepsLength, ReadContract;
    if run != [] {
      NextInv(c, s, run[0]);
      StepKeepsSeen(c, s, run[0]);
      RunKeepsSeen(c, Next(c, s, run[0]), run[1..]);
    }
  }

  /** In every reachable state, failed or not, the memory of the stages is the one that the serial program
      leaves after the processed blocks, and after the next one too when a stage threw on it: every stage
      sees every block once and in order, and none after an exception. */
  lemma StagesSeeEachBlockOnce(c: Config, run: seq<Action>, s: State)
    requires Reaches(c, run, s)
    ensures s.stageMemory == MemoryAt(c, s.processed + if StageThrew(s.raised) then 1 else 0)
    ensures StageThrew(s.raised) ==> !Unthrown(c, s.processed)
  {
    InitInv(c);
    RunKeepsSeen(c, Init(c), run);
  }
}
