/** Who may hold which mutex, which exception each thread can carry, and what the program
    counters say about the lifecycles of the two queues. */
module ExecutorControl {
  import opened Base
  import opened BoundedQueue
  import opened Executor
  import opened RunSpec

  ghost predicate FirstHeld(lock: Option<Tid>, failing: map<Tid, FailPhase>) {
    forall t :: lock == Some(t) <==> t in failing && failing[t].DiscardFirst?
  }

  ghost predicate SecondHeld(lock: Option<Tid>, failing: map<Tid, FailPhase>) {
    forall t :: lock == Some(t) <==> t in failing && failing[t].DiscardSecond?
  }

  /** A queue mutex is held across steps exactly by the thread that is discarding its items. */
  ghost predicate Locks(s: State) {
    && FirstHeld(s.firstLock, s.failing) && SecondHeld(s.secondLock, s.failing)
    && (forall t :: t in s.failing ==> LeftByException(s, t))
    && (Terminal(s) ==> s.failing == map[])
  }

  ghost predicate LeftByException(s: State, t: Tid) {
    match t
    case MainThread => (s.main.Joining? || Terminal(s)) && s.reader.RUnstarted?
    case ReaderThread => s.reader.RFailed?
    case ProcessorThread => s.processor.PFailed?
    case WriterThread => s.writer.WFailed?
  }

  /** The exception a worker is unwinding with. */
  ghost function Unwinding(s: State, t: Tid): Option<Failure> {
    match t
    case MainThread => None
    case ReaderThread => if s.reader.RUnwind? then Some(s.reader.failure) else None
    case ProcessorThread => if s.processor.PUnwind? then Some(s.processor.failure) else None
    case WriterThread => if s.writer.WUnwind? then Some(s.writer.failure) else None
  }

  /** The exception a thread has caught or is unwinding with and has not recorded yet. */
  ghost function Pending(s: State, t: Tid): Option<Failure> {
    if t in s.failing && s.failing[t].Record? then Some(s.failing[t].failure) else Unwinding(s, t)
  }

  ghost predicate QueueAgrees(s: State, q: Queue<Item>) {
    q.state.Failed? ==> s.firstFailure == Some(q.state.failure)
  }

  ghost predicate PendingAgrees(s: State, t: Tid) {
    Pending(s, t).Some? ==> s.firstFailure == Pending(s, t) || Pending(s, t).value in s.raised
  }

  ghost predicate PhaseAgrees(s: State, t: Tid) {
    t in s.failing && !s.failing[t].Record? ==>
      && s.firstFailure == Some(s.failing[t].failure)
      && (s.failing[t].FailFirst? || s.first.state.Failed?)
      && (s.failing[t].DiscardSecond? ==> s.second.state.Failed?)
  }

  /** A worker that has finished after an exception leaves both queues failed. */
  ghost predicate FailedMeansFailed(s: State, t: Tid) {
    t !in s.failing && LeftByException(s, t) ==> s.first.state.Failed? && s.second.state.Failed?
  }

  ghost predicate ThreadAgrees(s: State, t: Tid) {
    PendingAgrees(s, t) && PhaseAgrees(s, t) && FailedMeansFailed(s, t)
  }

  /** A thrown exception has been recorded, or a thread is on its way to recording it. */
  ghost predicate Noticed(s: State) {
    || s.firstFailure.Some?
    || Pending(s, MainThread).Some? || Pending(s, ReaderThread).Some?
    || Pending(s, ProcessorThread).Some? || Pending(s, WriterThread).Some?
  }

  /** Every exception in flight is the recorded one or one that an operation threw; nothing
      but an operation's exception is ever recorded. */
  ghost predicate Agreement(s: State) {
    && QueueAgrees(s, s.first) && QueueAgrees(s, s.second)
    && (forall t :: ThreadAgrees(s, t))
    && (forall f :: f in s.raised ==> Primary(f))
    && (s.firstFailure.Some? ==> s.firstFailure.value in s.raised)
    && (s.raised != [] ==> Noticed(s))
    && (s.main.Returned? ==> s.firstFailure.None?)
    && (s.main.Threw? ==> s.firstFailure == Some(s.main.failure))
  }

  ghost predicate QueueShape(c: Config, q: Queue<Item>, lock: Option<Tid>) {
    && q.capacity == c.depth && |q.items| <= q.capacity
    && (q.state.Failed? && lock.None? ==> q.items == [])
    && (lock.Some? ==> q.state.Failed?)
  }

  /** Producers close, consumers see the end only after that, and consumers start first. */
  ghost predicate Lifecycles(c: Config, s: State) {
    && QueueShape(c, s.first, s.firstLock) && QueueShape(c, s.second, s.secondLock)
    && (s.first.state.Closed? ==> s.reader.RDrop? || s.reader.RReturned?)
    && (s.reader.RDrop? || s.reader.RReturned? ==> !s.first.state.Open?)
    && (s.second.state.Closed? ==> s.processor.PReturned?)
    && (s.processor.PReturned? ==> !s.second.state.Open?)
    && (s.processor.PClose? || s.processor.PReturned? ==> !s.first.state.Open?)
    && (s.writer.WReturned? ==> !s.second.state.Open?)
    && (s.main.SpawnWriter? <==> s.writer.WUnstarted? && s.main.SpawnWriter?)
    && (s.processor.PUnstarted? ==> s.reader.RUnstarted?)
    && (s.writer.WUnstarted? ==> s.processor.PUnstarted?)
    && (s.main.SpawnProcessor? ==> s.processor.PUnstarted? && !s.writer.WUnstarted?)
    && (s.main.SpawnReader? ==> s.reader.RUnstarted? && !s.processor.PUnstarted?)
    && (Terminal(s) ==> Finished(s))
  }

  /** The number facts that make the reader's and the writer's other overflow guards dead. */
  ghost predicate ReaderCannotOverflowIndex(c: Config, s: State) {
    s.reader.RRead? && Len(c, s.blockIndex) > 0 && s.fileOffset + Len(c, s.blockIndex) <= U64_MAX ==>
      s.blockIndex < U64_MAX
  }

  ghost predicate WriterCannotOverflow(s: State) {
    s.writer.WCount? ==> s.result.bytes + s.writer.item.len <= U64_MAX && s.result.blocks < U64_MAX
  }

  lemma InitControl(c: Config)
    ensures Locks(Init(c)) && Agreement(Init(c)) && Lifecycles(c, Init(c))
  {
  }

  // ----- Locks and agreement: what one step of a worker can do to them -----

  /** Thread x neither throws nor catches, or it starts unwinding with the recorded exception. */
  ghost predicate StaysQuiet(s: State, n: State, x: Tid) {
    && n.failing == s.failing && n.raised == s.raised
    && Unwinding(s, x) == None
    && (Unwinding(n, x) == None || Unwinding(n, x) == s.firstFailure)
    && (LeftByException(n, x) ==> LeftByException(s, x))
  }

  /** An operation of thread x throws. */
  ghost predicate Throws(s: State, n: State, x: Tid) {
    && n.failing == s.failing
    && |n.raised| > 0 && n.raised == s.raised + [n.raised[|n.raised| - 1]]
    && Unwinding(n, x) == Some(n.raised[|n.raised| - 1])
    && (LeftByException(n, x) ==> LeftByException(s, x))
  }

  /** Thread x catches what it was unwinding with, or what a failed queue rethrew. */
  ghost predicate Catches(s: State, n: State, x: Tid) {
    && x in n.failing && n.failing[x].Record?
    && n.failing == s.failing[x := n.failing[x]] && n.raised == s.raised
    && (Unwinding(s, x) == Some(n.failing[x].failure) || s.firstFailure == Some(n.failing[x].failure))
    && Unwinding(n, x) == None && LeftByException(n, x)
  }

  ghost predicate StateKept(a: Lifecycle, b: Lifecycle) {
    a == b || (a.Open? && b.Closed?)
  }

  /** Everything a step of worker x does that matters to locks and exceptions. */
  ghost predicate WorkerStep(s: State, n: State, x: Tid) {
    && n.firstFailure == s.firstFailure && n.main == s.main
    && n.firstLock == s.firstLock && n.secondLock == s.secondLock
    && StateKept(s.first.state, n.first.state) && StateKept(s.second.state, n.second.state)
    && (forall t :: t != x ==> Unwinding(n, t) == Unwinding(s, t))
    && (forall t :: t != x ==> LeftByException(n, t) == LeftByException(s, t))
    && (StaysQuiet(s, n, x) || Throws(s, n, x) || Catches(s, n, x))
  }

  lemma ReaderStep(c: Config, s: State)
    requires ReaderReady(c, s) && QueueAgrees(s, s.first)
    ensures WorkerStep(s, ReaderNext(c, s), ReaderThread)
  {
  }

  lemma ProcessorStep(c: Config, s: State)
    requires ProcessorReady(c, s) && QueueAgrees(s, s.first) && QueueAgrees(s, s.second)
    ensures WorkerStep(s, ProcessorNext(c, s), ProcessorThread)
  {
  }

  lemma WriterStep(c: Config, s: State, w: WriteChoice)
    requires WriterReady(c, s, w) && QueueAgrees(s, s.second)
    ensures WorkerStep(s, WriterNext(c, s, w), WriterThread)
  {
    hide AfterWriterPop, AfterWrite, AfterCount;
    match s.writer {
      case WPop => WriterPopStep(s);
      case WWrite(item, done) => WriteStep(s, item, done, w);
      case WCount(item) => CountStep(s, item);
      case _ =>
    }
  }

  lemma WriterPopStep(s: State)
    requires s.writer.WPop? && CanPop(s.second) && QueueAgrees(s, s.second)
    ensures WorkerStep(s, AfterWriterPop(s), WriterThread)
  {
  }

  lemma WriteStep(s: State, item: Item, done: nat, w: WriteChoice)
    requires s.writer == WWrite(item, done)
    ensures WorkerStep(s, AfterWrite(s, item, done, w), WriterThread)
  {
    hide ValidData;
  }

  lemma CountStep(s: State, item: Item)
    requires s.writer == WCount(item)
    ensures WorkerStep(s, AfterCount(s, item), WriterThread)
  {
  }

  lemma WorkerKeepsLocks(s: State, n: State, x: Tid)
    requires Locks(s) && WorkerStep(s, n, x) && !LeftByException(s, x) && !Terminal(s)
    ensures Locks(n)
  {
  }

  lemma WorkerKeepsAgreement(s: State, n: State, x: Tid)
    requires Locks(s) && Agreement(s) && WorkerStep(s, n, x) && !LeftByException(s, x)
    requires |n.raised| > |s.raised| ==> Primary(n.raised[|s.raised|])
    ensures Agreement(n)
  {
    forall t ensures ThreadAgrees(n, t) {
      WorkerKeepsThread(s, n, x, t);
    }
    WorkerKeepsNotice(s, n, x);
  }

  lemma WorkerKeepsThread(s: State, n: State, x: Tid, t: Tid)
    requires Locks(s) && ThreadAgrees(s, t) && WorkerStep(s, n, x) && !LeftByException(s, x)
    ensures ThreadAgrees(n, t)
  {
  }

  lemma WorkerKeepsNotice(s: State, n: State, x: Tid)
    requires s.raised != [] ==> Noticed(s)
    requires Locks(s) && WorkerStep(s, n, x) && !LeftByException(s, x)
    ensures n.raised != [] ==> Noticed(n)
  {
    assert n.raised != s.raised ==> Pending(n, x).Some?;
    assert forall t :: Pending(s, t).Some? ==> Pending(n, t).Some?;
  }

  /** The exceptions an operation of a worker throws are never the "queue closed" errors and
      never one of the counter overflows other than the file offset's. */
  lemma ReaderThrowsPrimary(c: Config, s: State)
    requires ReaderReady(c, s) && Lifecycles(c, s) && ReaderCannotOverflowIndex(c, s)
    ensures var n := ReaderNext(c, s); |n.raised| > |s.raised| ==> Primary(n.raised[|s.raised|])
  {
  }

  lemma ProcessorThrowsPrimary(c: Config, s: State)
    requires ProcessorReady(c, s) && Lifecycles(c, s)
    ensures var n := ProcessorNext(c, s); |n.raised| > |s.raised| ==> Primary(n.raised[|s.raised|])
  {
  }

  lemma WriterThrowsPrimary(c: Config, s: State, w: WriteChoice)
    requires WriterReady(c, s, w) && WriterCannotOverflow(s)
    ensures var n := WriterNext(c, s, w); |n.raised| > |s.raised| ==> Primary(n.raised[|s.raised|])
  {
  }

  lemma MainKeepsLocks(c: Config, s: State, spawn: SpawnChoice)
    requires Locks(s) && MainReady(s) && Lifecycles(c, s)
    ensures Locks(MainNext(s, spawn))
  {
  }

  lemma MainKeepsThread(c: Config, s: State, spawn: SpawnChoice, t: Tid)
    requires ThreadAgrees(s, t) && Locks(s) && Lifecycles(c, s) && MainReady(s)
    ensures ThreadAgrees(MainNext(s, spawn), t)
  {
    hide QueueShape;
  }

  lemma MainKeepsAgreement(c: Config, s: State, spawn: SpawnChoice)
    requires Agreement(s) && Locks(s) && Lifecycles(c, s) && MainReady(s)
    ensures Agreement(MainNext(s, spawn))
  {
    hide PendingAgrees, PhaseAgrees, FailedMeansFailed, QueueShape;
    var n := MainNext(s, spawn);
    forall t ensures ThreadAgrees(n, t) {
      MainKeepsThread(c, s, spawn, t);
    }
  }

  // ----- Locks and agreement: one step of fail_all -----

  lemma RecordKeepsThread(s: State, t: Tid, f: Failure, u: Tid)
    requires ThreadAgrees(s, u) && t in s.failing && s.failing[t] == Record(f) && LeftByException(s, t)
    requires s.firstFailure.Some? ==> s.firstFailure.value in s.raised
    ensures ThreadAgrees(AfterRecord(s, t, f), u)
  {
  }

  lemma RecordKeepsLocks(s: State, t: Tid, f: Failure)
    requires Locks(s) && t in s.failing && s.failing[t] == Record(f)
    ensures Locks(AfterRecord(s, t, f))
  {
    hide LeftByException;
    SameDepartures(s, AfterRecord(s, t, f));
  }

  lemma RecordKeeps(s: State, t: Tid, f: Failure)
    requires Locks(s) && Agreement(s) && t in s.failing && s.failing[t] == Record(f)
    ensures Locks(AfterRecord(s, t, f)) && Agreement(AfterRecord(s, t, f))
  {
    assert PendingAgrees(s, t) by { assert ThreadAgrees(s, t); }
    assert LeftByException(s, t);
    hide ThreadAgrees, Locks, LeftByException, FailedMeansFailed;
    RecordKeepsLocks(s, t, f);
    forall u ensures ThreadAgrees(AfterRecord(s, t, f), u) {
      RecordKeepsThread(s, t, f, u);
    }
  }

  lemma FailFirstKeepsThread(s: State, t: Tid, f: Failure, u: Tid)
    requires ThreadAgrees(s, u) && PhaseAgrees(s, t) && t in s.failing && s.failing[t] == FailFirst(f)
    ensures ThreadAgrees(AfterFailFirst(s, t, f), u)
  {
  }

  lemma FailFirstKeepsLocks(s: State, t: Tid, f: Failure)
    requires Locks(s) && t in s.failing && s.failing[t] == FailFirst(f) && s.firstLock.None?
    ensures Locks(AfterFailFirst(s, t, f))
  {
    hide LeftByException, FirstHeld, SecondHeld;
    SameDepartures(s, AfterFailFirst(s, t, f));
    PhasesHeld(s.firstLock, s.secondLock, s.failing, t, f);
  }

  /** What entering a discard, or passing over it, means for the holders of the two mutexes. */
  lemma PhasesHeld(first: Option<Tid>, second: Option<Tid>, failing: map<Tid, FailPhase>, t: Tid, f: Failure)
    requires FirstHeld(first, failing) && SecondHeld(second, failing) && t in failing && failing[t] == FailFirst(f)
    ensures FirstHeld(first, failing[t := FailSecond(f)]) && SecondHeld(second, failing[t := FailSecond(f)])
    ensures first.None? ==> FirstHeld(Some(t), failing[t := DiscardFirst(f)])
    ensures SecondHeld(second, failing[t := DiscardFirst(f)])
  {
  }

  lemma SameDepartures(s: State, n: State)
    requires n.reader == s.reader && n.processor == s.processor && n.writer == s.writer && n.main == s.main
    ensures forall u :: LeftByException(n, u) <==> LeftByException(s, u)
  {
  }

  lemma FailFirstKeeps(s: State, t: Tid, f: Failure)
    requires Locks(s) && Agreement(s) && t in s.failing && s.failing[t] == FailFirst(f) && s.firstLock.None?
    ensures Locks(AfterFailFirst(s, t, f)) && Agreement(AfterFailFirst(s, t, f))
  {
    assert PhaseAgrees(s, t) by { assert ThreadAgrees(s, t); }
    hide ThreadAgrees, PendingAgrees, FailedMeansFailed, Locks, LeftByException;
    FailFirstKeepsLocks(s, t, f);
    forall u ensures ThreadAgrees(AfterFailFirst(s, t, f), u) {
      FailFirstKeepsThread(s, t, f, u);
    }
  }

  lemma FailSecondKeeps(s: State, t: Tid, f: Failure)
    requires Locks(s) && Agreement(s) && t in s.failing && s.failing[t] == FailSecond(f) && s.secondLock.None?
    ensures Locks(AfterFailSecond(s, t, f)) && Agreement(AfterFailSecond(s, t, f))
  {
    var n := AfterFailSecond(s, t, f);
    assert ThreadAgrees(s, t);
    forall u ensures ThreadAgrees(n, u) {
      assert ThreadAgrees(s, u);
    }
  }

  lemma DiscardItemKeeps(s: State, n: State)
    requires Locks(s) && Agreement(s)
    requires n == s.(pool := n.pool, first := s.first.(items := n.first.items), second := s.second.(items := n.second.items))
    ensures Locks(n) && Agreement(n)
  {
    forall u ensures ThreadAgrees(n, u) {
      assert ThreadAgrees(s, u);
    }
  }

  lemma DiscardFirstEnds(s: State, t: Tid, f: Failure)
    requires Locks(s) && Agreement(s) && t in s.failing && s.failing[t] == DiscardFirst(f)
    ensures var n := At(s.(firstLock := None), t, FailSecond(f)); Locks(n) && Agreement(n)
  {
    var n := At(s.(firstLock := None), t, FailSecond(f));
    assert ThreadAgrees(s, t);
    forall u ensures ThreadAgrees(n, u) {
      assert ThreadAgrees(s, u);
    }
  }

  lemma DiscardSecondEnds(s: State, t: Tid, f: Failure)
    requires Locks(s) && Agreement(s) && t in s.failing && s.failing[t] == DiscardSecond(f)
    ensures var n := Leave(s.(secondLock := None), t); Locks(n) && Agreement(n)
  {
    var n := Leave(s.(secondLock := None), t);
    assert ThreadAgrees(s, t);
    forall u ensures ThreadAgrees(n, u) {
      assert ThreadAgrees(s, u);
    }
  }

  lemma FailKeepsAgreement(s: State, t: Tid)
    requires Locks(s) && Agreement(s) && FailReady(s, t)
    ensures Locks(FailNext(s, t)) && Agreement(FailNext(s, t))
  {
    hide Locks, Agreement;
    match s.failing[t] {
      case Record(f) => RecordKeeps(s, t, f);
      case FailFirst(f) => FailFirstKeeps(s, t, f);
      case FailSecond(f) => FailSecondKeeps(s, t, f);
      case DiscardFirst(f) =>
        if s.first.items == [] {
          DiscardFirstEnds(s, t, f);
        } else {
          DiscardItemKeeps(s, FailNext(s, t));
        }
      case DiscardSecond(f) =>
        if s.second.items == [] {
          DiscardSecondEnds(s, t, f);
        } else {
          DiscardItemKeeps(s, FailNext(s, t));
        }
    }
  }

  // ----- Lifecycle -----

  lemma ReaderKeepsLifecycle(c: Config, s: State)
    requires Lifecycles(c, s) && ReaderReady(c, s)
    ensures Lifecycles(c, ReaderNext(c, s))
  {
  }

  lemma ProcessorKeepsLifecycle(c: Config, s: State)
    requires Lifecycles(c, s) && ProcessorReady(c, s)
    ensures Lifecycles(c, ProcessorNext(c, s))
  {
  }

  lemma WriterPopKeepsLifecycle(c: Config, s: State)
    requires Lifecycles(c, s) && s.writer.WPop? && CanPop(s.second)
    ensures Lifecycles(c, AfterWriterPop(s))
  {
  }

  /** A writer that moves on without finishing does not touch what the others' stages say. */
  lemma WriterMoveKeepsLifecycle(c: Config, s: State, n: State)
    requires Lifecycles(c, s) && !Terminal(s)
    requires n == s.(pool := n.pool, writer := n.writer, output := n.output, result := n.result,
                     failing := n.failing, partial := n.partial, raised := n.raised)
    requires !s.writer.WUnstarted? && !n.writer.WUnstarted? && !n.writer.WReturned?
    ensures Lifecycles(c, n)
  {
  }

  lemma WriterKeepsLifecycle(c: Config, s: State, w: WriteChoice)
    requires Lifecycles(c, s) && WriterReady(c, s, w)
    ensures Lifecycles(c, WriterNext(c, s, w))
  {
    hide Lifecycles, AfterWriterPop;
    WriterRunning(c, s, w);
    if s.writer.WPop? {
      WriterPopKeepsLifecycle(c, s);
    } else {
      WriterMoveKeepsLifecycle(c, s, WriterNext(c, s, w));
    }
  }

  lemma WriterRunning(c: Config, s: State, w: WriteChoice)
    requires Lifecycles(c, s) && WriterReady(c, s, w)
    ensures !Terminal(s)
  {
  }

  lemma MainKeepsLifecycle(c: Config, s: State, spawn: SpawnChoice)
    requires Lifecycles(c, s) && MainReady(s)
    ensures Lifecycles(c, MainNext(s, spawn))
  {
  }

  lemma FailKeepsLifecycle(c: Config, s: State, t: Tid)
    requires Lifecycles(c, s) && Locks(s) && FailReady(s, t)
    ensures Lifecycles(c, FailNext(s, t))
  {
    match s.failing[t] {
      case Record(f) => assert Lifecycles(c, AfterRecord(s, t, f));
      case FailFirst(f) => FailFirstKeepsLifecycle(c, s, t);
      case DiscardFirst(f) => DiscardFirstKeepsLifecycle(c, s, t);
      case FailSecond(f) => FailSecondKeepsLifecycle(c, s, t);
      case DiscardSecond(f) => DiscardSecondKeepsLifecycle(c, s, t);
    }
  }

  lemma FailFirstKeepsLifecycle(c: Config, s: State, t: Tid)
    requires Lifecycles(c, s) && Locks(s) && FailReady(s, t) && s.failing[t].FailFirst?
    ensures Lifecycles(c, FailNext(s, t))
  {
  }

  lemma DiscardFirstKeepsLifecycle(c: Config, s: State, t: Tid)
    requires Lifecycles(c, s) && Locks(s) && FailReady(s, t) && s.failing[t].DiscardFirst?
    ensures Lifecycles(c, FailNext(s, t))
  {
  }

  lemma FailSecondKeepsLifecycle(c: Config, s: State, t: Tid)
    requires Lifecycles(c, s) && Locks(s) && FailReady(s, t) && s.failing[t].FailSecond?
    ensures Lifecycles(c, FailNext(s, t))
  {
  }

  lemma DiscardSecondKeepsLifecycle(c: Config, s: State, t: Tid)
    requires Lifecycles(c, s) && Locks(s) && FailReady(s, t) && s.failing[t].DiscardSecond?
    ensures Lifecycles(c, FailNext(s, t))
  {
    hide Lifecycles, DiscardFromSecond, AfterDiscardSecond;
    if s.second.items == [] {
      DiscardSecondEndKeepsLifecycle(c, s, t);
    } else {
      DiscardSecondItemKeepsLifecycle(c, s, t);
    }
  }

  lemma DiscardSecondItemKeepsLifecycle(c: Config, s: State, t: Tid)
    requires Lifecycles(c, s) && Locks(s) && s.second.items != [] && t in s.failing && s.failing[t].DiscardSecond?
    ensures Lifecycles(c, DiscardFromSecond(s))
  {
    assert s.secondLock == Some(t);
    hide Locks, Finished;
    NotFinished(s, t);
  }

  lemma NotFinished(s: State, t: Tid)
    requires t in s.failing
    ensures !Finished(s)
  {
  }

  lemma DiscardSecondEndKeepsLifecycle(c: Config, s: State, t: Tid)
    requires Lifecycles(c, s) && Locks(s) && s.second.items == [] && t in s.failing && s.failing[t].DiscardSecond?
    ensures Lifecycles(c, AfterDiscardSecond(s, t))
  {
    hide FirstHeld, LeftByException, Finished;
    NotFinished(s, t);
  }
}
