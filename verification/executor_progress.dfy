/** No reachable state is stuck and no run goes on for ever. */
module ExecutorProgress {
  import opened Base
  import opened BoundedQueue
  import opened Executor
  import opened ExecutorControl
  import opened ExecutorFlow
  import opened ExecutorInvariant
  import opened ExecutorLeases
  import opened RunSpec
  import opened Stages

  // ----- deadlock freedom -----

  /** A thread inside `fail_all` waits at most for the thread that holds the queue's mutex, and
      that thread only needs the pool's mutex, which nobody keeps. */
  lemma FailAllAdvances(s: State, t: Tid) returns (u: Tid)
    requires Locks(s) && t in s.failing
    ensures FailReady(s, u)
  {
    u := t;
    if s.failing[t].FailFirst? && s.firstLock.Some? {
      u := s.firstLock.value;
    } else if s.failing[t].FailSecond? && s.secondLock.Some? {
      u := s.secondLock.value;
    }
  }

  lemma NoLocksWithoutFailing(s: State)
    requires Locks(s) && s.failing == map[]
    ensures s.firstLock.None? && s.secondLock.None?
  {
  }

  /** With nobody in `fail_all`, the only states without a step are those with every thread done. */
  lemma WorkersAdvance(c: Config, s: State) returns (a: Action)
    requires Inv(c, s) && s.failing == map[] && s.main.Joining? && !Finished(s)
    ensures Enabled(c, s, a)
  {
    NoLocksWithoutFailing(s);
    var w := WriteError(EIO);
    assert FailedMeansFailed(s, MainThread) && FailedMeansFailed(s, ReaderThread) by {
      assert ThreadAgrees(s, MainThread) && ThreadAgrees(s, ReaderThread);
    }
    assert FailedMeansFailed(s, ProcessorThread) && FailedMeansFailed(s, WriterThread) by {
      assert ThreadAgrees(s, ProcessorThread) && ThreadAgrees(s, WriterThread);
    }
    if WriterReady(c, s, w) {
      a := StepWriter(w);
    } else if ProcessorReady(c, s) {
      a := StepProcessor;
    } else {
      a := StepReader;
      ReaderMustAdvance(c, s, w);
    }
  }

  /** The ownership argument: when neither the writer nor the processor can step, neither of them
      and neither queue holds a buffer, so a reader waiting in `acquire` finds one free. */
  lemma ReaderMustAdvance(c: Config, s: State, w: WriteChoice)
    requires Inv(c, s) && s.failing == map[] && s.main.Joining? && !Finished(s)
    requires s.firstLock.None? && s.secondLock.None? && w.WriteError?
    requires forall t :: FailedMeansFailed(s, t)
    requires !WriterReady(c, s, w) && !ProcessorReady(c, s)
    ensures ReaderReady(c, s)
  {
    hide ReaderFlow, FirstFlow, FileFlow, Agreement, FlagsAgree, KeepsLength, ReadContract, RawItem, DoneItem, MemoryAt;
    assert FailedMeansFailed(s, MainThread) && FailedMeansFailed(s, ReaderThread);
    assert FailedMeansFailed(s, ProcessorThread) && FailedMeansFailed(s, WriterThread);
    assert Places(s, 0) == 1;
  }

  /** From every reachable state that is not final some thread can step. */
  lemma SomeActionEnabled(c: Config, s: State) returns (a: Action)
    requires Inv(c, s) && !Terminal(s)
    ensures Enabled(c, s, a)
  {
    if t :| t in s.failing {
      var u := FailAllAdvances(s, t);
      a := StepFail(u);
    } else if s.main.Joining? && !Finished(s) {
      a := WorkersAdvance(c, s);
    } else {
      a := StepMain(Spawned);
    }
  }

  // ----- termination -----

  function ReaderRank(pc: ReaderPc): nat {
    match pc
    case RUnstarted => 20
    case RAcquire => 12
    case RRead(_) => 11
    case RPush(_) => 10
    case RClose(_) => 9
    case RDrop(_) => 8
    case RUnwind(_, _) => 8
    case _ => 0
  }

  function ProcessorRank(pc: ProcessorPc): nat {
    match pc
    case PUnstarted => 20
    case PClose => 9
    case PUnwind(_, _) => 8
    case PReturned => 0
    case PFailed => 0
    case _ => 10
  }

  function WriterRank(pc: WriterPc): nat {
    match pc
    case WUnstarted => 20
    case WRelease(_) => 13
    case WUnwind(_, _) => 8
    case WReturned => 0
    case WFailed => 0
    case _ => 12
  }

  function MainRank(pc: MainPc): nat {
    match pc
    case SpawnWriter => 30
    case SpawnProcessor => 20
    case SpawnReader => 10
    case Joining => 1
    case _ => 0
  }

  function PhaseRank(failing: map<Tid, FailPhase>, t: Tid): nat {
    if t !in failing then 0
    else match failing[t]
      case Record(_) => 5
      case FailFirst(_) => 4
      case DiscardFirst(_) => 3
      case FailSecond(_) => 2
      case DiscardSecond(_) => 1
  }

  function FailRank(failing: map<Tid, FailPhase>): nat {
    PhaseRank(failing, MainThread) + PhaseRank(failing, ReaderThread)
    + PhaseRank(failing, ProcessorThread) + PhaseRank(failing, WriterThread)
  }

  /** What is left to do: input bytes, the stations ahead of each block, and the phases of
      the threads. */
  function Measure(c: Config, s: State): int {
    4 * (6 * |c.input| - s.blockIndex - s.taken - s.processed - s.forwarded - s.received - s.result.blocks)
    + (|c.input| - |s.output|) + |s.first.items| + |s.second.items|
    + ReaderRank(s.reader) + ProcessorRank(s.processor) + WriterRank(s.writer)
    + MainRank(s.main) + FailRank(s.failing)
  }

  lemma MeasureBounded(c: Config, s: State)
    requires Inv(c, s)
    ensures Measure(c, s) >= 0
  {
    CountedBlocksDelivered(c, s);
    OffsetBounds(c, s.blockIndex);
    OutputBounded(c, s);
  }

  lemma OutputBounded(c: Config, s: State)
    requires Accepted(c) && Flow(c, s)
    ensures |s.output| == Off(c, s.result.blocks) + s.partial <= |c.input|
  {
    var k := s.result.blocks;
    CountedBlocksDelivered(c, s);
    SerialOutputLength(c, k);
    OffsetBounds(c, k);
    if s.partial > 0 {
      assert HasData(c, k);
      RawLength(c, k);
      OffsetBounds(c, k + 1);
    }
  }

  lemma ReadDecreases(c: Config, s: State, buf: nat)
    requires s.reader == RRead(buf)
    ensures Measure(c, AfterRead(c, s, buf)) < Measure(c, s)
  {
    hide ProcessorRank, WriterRank, MainRank, FailRank, Fill;
  }

  lemma ReaderPushDecreases(c: Config, s: State, item: Item)
    requires s.reader == RPush(item) && CanPush(s.first)
    ensures Measure(c, AfterReaderPush(s, item)) < Measure(c, s)
  {
    hide ProcessorRank, WriterRank, MainRank, FailRank;
  }

  lemma ReaderDecreases(c: Config, s: State)
    requires ReaderReady(c, s) && ReaderThread !in s.failing
    ensures Measure(c, ReaderNext(c, s)) < Measure(c, s)
  {
    hide ProcessorRank, WriterRank, MainRank, AfterRead, AfterReaderPush;
    match s.reader {
      case RRead(buf) => ReadDecreases(c, s, buf);
      case RPush(item) => ReaderPushDecreases(c, s, item);
      case _ =>
    }
  }

  lemma ProcessorPopDecreases(c: Config, s: State)
    requires s.processor == PPop && CanPop(s.first) && ProcessorThread !in s.failing
    ensures Measure(c, AfterProcessorPop(s)) < Measure(c, s)
  {
    hide ReaderRank, WriterRank, MainRank;
  }

  lemma ProcessDecreases(c: Config, s: State, item: Item)
    requires s.processor == PProcess(item) && |s.stageMemory| == |c.stages|
    ensures Measure(c, AfterProcess(c, s, item)) < Measure(c, s)
  {
    hide ReaderRank, WriterRank, MainRank, FailRank, ProcessAll, Fill, ValidData;
  }

  lemma ProcessorPushDecreases(c: Config, s: State, item: Item)
    requires s.processor == PPush(item) && CanPush(s.second)
    ensures Measure(c, AfterProcessorPush(s, item)) < Measure(c, s)
  {
    hide ReaderRank, WriterRank, MainRank, FailRank;
  }

  lemma ProcessorDecreases(c: Config, s: State)
    requires ProcessorReady(c, s) && ProcessorThread !in s.failing
    ensures Measure(c, ProcessorNext(c, s)) < Measure(c, s)
  {
    hide ReaderRank, WriterRank, MainRank, AfterProcessorPop, AfterProcess, AfterProcessorPush;
    match s.processor {
      case PPop => ProcessorPopDecreases(c, s);
      case PProcess(item) => ProcessDecreases(c, s, item);
      case PPush(item) => ProcessorPushDecreases(c, s, item);
      case _ =>
    }
  }

  lemma WriterDecreases(c: Config, s: State, w: WriteChoice)
    requires WriterReady(c, s, w) && WriterThread !in s.failing
    requires |WriterNext(c, s, w).output| >= |s.output|
    requires s.writer.WWrite? && w.Wrote? && w.n > 0 ==> |WriterNext(c, s, w).output| > |s.output|
    ensures Measure(c, WriterNext(c, s, w)) < Measure(c, s)
  {
    hide ReaderRank, ProcessorRank, MainRank, AfterWriterPop, AfterWrite, AfterCount;
    match s.writer {
      case WPop => WriterPopDecreases(c, s);
      case WWrite(item, done) => WriteDecreases(c, s, item, done, w);
      case WCount(item) => CountDecreases(c, s, item);
      case _ =>
    }
  }

  lemma WriterPopDecreases(c: Config, s: State)
    requires s.writer == WPop && CanPop(s.second) && WriterThread !in s.failing
    ensures Measure(c, AfterWriterPop(s)) < Measure(c, s)
  {
    hide ReaderRank, ProcessorRank, MainRank;
  }

  lemma WriteDecreases(c: Config, s: State, item: Item, done: nat, w: WriteChoice)
    requires s.writer == WWrite(item, done)
    requires w.Wrote? && w.n > 0 ==> |AfterWrite(s, item, done, w).output| > |s.output|
    ensures Measure(c, AfterWrite(s, item, done, w)) < Measure(c, s)
  {
  }

  lemma CountDecreases(c: Config, s: State, item: Item)
    requires s.writer == WCount(item)
    ensures Measure(c, AfterCount(s, item)) < Measure(c, s)
  {
  }

  lemma WriterGrowsOutput(c: Config, s: State, w: WriteChoice)
    requires Accepted(c) && Flow(c, s) && WriterReady(c, s, w)
    ensures |WriterNext(c, s, w).output| >= |s.output|
    ensures s.writer.WWrite? && w.Wrote? && w.n > 0 ==> |WriterNext(c, s, w).output| > |s.output|
  {
    if s.writer.WWrite? {
      WriteGrowsOutput(c, s, s.writer.item, s.writer.done, w);
    }
  }

  lemma WriteGrowsOutput(c: Config, s: State, item: Item, done: nat, w: WriteChoice)
    requires Accepted(c) && Flow(c, s) && s.writer == WWrite(item, done)
    requires w.Wrote? ==> done + w.n <= item.len
    ensures |AfterWrite(s, item, done, w).output| == |s.output| + if w.Wrote? then w.n else 0
  {
    var n := AfterWrite(s, item, done, w);
    OutputBounded(c, s);
    WriteKeepsFlow(c, s, item, done, w);
    OutputBounded(c, n);
  }

  lemma MainDecreases(c: Config, s: State, spawn: SpawnChoice)
    requires Lifecycles(c, s) && MainReady(s) && MainThread !in s.failing
    ensures Measure(c, MainNext(s, spawn)) < Measure(c, s)
  {
  }

  lemma PhaseRankOfUpdate(failing: map<Tid, FailPhase>, t: Tid, phase: FailPhase, u: Tid)
    ensures PhaseRank(failing[t := phase], u) == PhaseRank(if u == t then map[t := phase] else failing, u)
  {
  }

  /** Only thread t's term of the sum changes. */
  lemma UpdatedPhase(failing: map<Tid, FailPhase>, t: Tid, phase: FailPhase)
    requires t in failing && PhaseRank(map[t := phase], t) < PhaseRank(failing, t)
    ensures FailRank(failing[t := phase]) < FailRank(failing)
  {
    hide PhaseRank;
    PhaseRankOfUpdate(failing, t, phase, MainThread);
    PhaseRankOfUpdate(failing, t, phase, ReaderThread);
    PhaseRankOfUpdate(failing, t, phase, ProcessorThread);
    PhaseRankOfUpdate(failing, t, phase, WriterThread);
  }

  lemma RemovedPhase(failing: map<Tid, FailPhase>, t: Tid)
    requires t in failing
    ensures FailRank(failing - {t}) < FailRank(failing)
  {
  }

  lemma PhaseDecreases(c: Config, s: State, n: State, t: Tid)
    requires MovesNothing(s, n) && t in s.failing
    requires if t in n.failing then n.failing == s.failing[t := n.failing[t]] else n.failing == s.failing - {t}
    requires PhaseRank(n.failing, t) < PhaseRank(s.failing, t)
    ensures Measure(c, n) < Measure(c, s)
  {
    hide FailRank, PhaseRank, ReaderRank, ProcessorRank, WriterRank, MainRank;
    if t in n.failing {
      PhaseRankOfUpdate(s.failing, t, n.failing[t], t);
      UpdatedPhase(s.failing, t, n.failing[t]);
    } else {
      RemovedPhase(s.failing, t);
    }
  }

  lemma DiscardDecreases(c: Config, s: State)
    ensures s.first.items != [] ==> Measure(c, DiscardFromFirst(s)) < Measure(c, s)
    ensures s.second.items != [] ==> Measure(c, DiscardFromSecond(s)) < Measure(c, s)
  {
    hide FailRank, ReaderRank, ProcessorRank, WriterRank, MainRank;
  }

  lemma FailDecreases(c: Config, s: State, t: Tid)
    requires FailReady(s, t)
    ensures Measure(c, FailNext(s, t)) < Measure(c, s)
  {
    hide Measure, MovesNothing, AfterRecord, AfterFailFirst, AfterFailSecond, AfterDiscardFirst, AfterDiscardSecond,
      DiscardFromFirst, DiscardFromSecond;
    if (s.failing[t].DiscardFirst? && s.first.items != []) || (s.failing[t].DiscardSecond? && s.second.items != []) {
      DiscardDecreases(c, s);
    } else {
      PhaseDecreases(c, s, FailNext(s, t), t);
    }
  }

  /** A worker that can step is not inside `fail_all`, and neither is a calling thread that can. */
  lemma SteppingThreadsAreNotFailing(c: Config, s: State, a: Action)
    requires Inv(c, s) && Enabled(c, s, a)
    ensures a.StepReader? ==> ReaderThread !in s.failing
    ensures a.StepProcessor? ==> ProcessorThread !in s.failing
    ensures a.StepWriter? ==> WriterThread !in s.failing
    ensures a.StepMain? ==> MainThread !in s.failing
  {
  }

  lemma NextDecreases(c: Config, s: State, a: Action)
    requires Inv(c, s) && Enabled(c, s, a)
    ensures Measure(c, Next(c, s, a)) < Measure(c, s)
  {
    SteppingThreadsAreNotFailing(c, s, a);
    match a {
      case StepReader => ReaderDecreases(c, s);
      case StepProcessor => ProcessorDecreases(c, s);
      case StepWriter(w) =>
        WriterGrowsOutput(c, s, w);
        WriterDecreases(c, s, w);
      case StepMain(spawn) => MainDecreases(c, s, spawn);
      case StepFail(t) => FailDecreases(c, s, t);
    }
  }

  /** A run from s has at most Measure(s) steps. */
  lemma {:induction false} RunIsBounded(c: Config, s: State, run: seq<Action>)
    requires Inv(c, s) && Legal(c, s, run)
    ensures |run| <= Measure(c, s) - Measure(c, Exec(c, s, run))
    decreases |run|
  {
    if run != [] {
      NextInv(c, s, run[0]);
      NextDecreases(c, s, run[0]);
      RunIsBounded(c, Next(c, s, run[0]), run[1..]);
    }
  }
}
