/** What every interleaving of a run guarantees. */
module ExecutorTheorems {
  import opened Base
  import opened Executor
  import opened ExecutorControl
  import opened ExecutorCounting
  import opened ExecutorFlow
  import opened ExecutorInvariant
  import opened ExecutorLeases
  import opened ExecutorProgress
  import opened RunSpec

  /** The state an interleaving of a run reaches. */
  ghost predicate Reaches(c: Config, run: seq<Action>, s: State) {
    Accepted(c) && Legal(c, Init(c), run) && Exec(c, Init(c), run) == s
  }

  lemma ReachedInv(c: Config, run: seq<Action>, s: State)
    requires Reaches(c, run, s)
    ensures Inv(c, s)
  {
    InitInv(c);
    RunInv(c, Init(c), run);
  }

  // ----- refinement of the serial reference -----

  lemma FinalFlow(c: Config, s: State)
    requires Inv(c, s) && s.main.Returned?
    ensures s.writer.WReturned? && s.processor.PReturned? && s.reader.RReturned?
  {
    assert ThreadAgrees(s, MainThread) && ThreadAgrees(s, ReaderThread);
    assert ThreadAgrees(s, ProcessorThread) && ThreadAgrees(s, WriterThread);
  }

  lemma ReturnedStateIsSerial(c: Config, s: State)
    requires Inv(c, s) && s.main.Returned?
    ensures EndsAt(c, s.result.blocks)
    ensures s.output == SerialOutput(c, s.result.blocks)
    ensures s.result.bytes == |s.output| == |c.input|
    ensures s.stageMemory == MemoryAt(c, s.result.blocks)
  {
    FinalFlow(c, s);
    BlocksCoverInput(c, s.result.blocks);
    SerialOutputLength(c, s.result.blocks);
    assert ReadOk(c, s.result.blocks);
  }

  /** A run that returns has done what the serial reference does under the same reads, whatever
      the interleaving, the queue depth, the number of buffers and the short writes. */
  lemma ReturnedRunIsSerial(c: Config, run: seq<Action>, s: State)
    requires Reaches(c, run, s) && s.main.Returned?
    ensures EndsAt(c, s.result.blocks)
    ensures s.output == SerialOutput(c, s.result.blocks)
    ensures s.result.bytes == |s.output| == |c.input|
    ensures s.stageMemory == MemoryAt(c, s.result.blocks)
  {
    ReachedInv(c, run, s);
    ReturnedStateIsSerial(c, s);
  }

  /** Two returned runs over the same input, reads and stages agree in everything a caller sees,
      even with different queue depths and buffer counts. */
  lemma ReturnedRunsAgree(c: Config, run: seq<Action>, s: State, d: Config, other: seq<Action>, t: State)
    requires Reaches(c, run, s) && Reaches(d, other, t) && s.main.Returned? && t.main.Returned?
    requires d == c.(buffers := d.buffers, depth := d.depth)
    ensures s.output == t.output && s.result == t.result && s.stageMemory == t.stageMemory
  {
    ReturnedRunIsSerial(c, run, s);
    ReturnedRunIsSerial(d, other, t);
    SameSchedule(c, d, s.result.blocks);
    SameSchedule(c, d, t.result.blocks);
    SameBlocks(c, d, t.result.blocks);
    EndIsUnique(c, s.result.blocks, t.result.blocks);
  }

  lemma {:induction false} SameSchedule(c: Config, d: Config, k: nat)
    requires d == c.(buffers := d.buffers, depth := d.depth) && |c.stages| == |c.memory0|
    ensures Off(c, k) == Off(d, k) && MemoryAt(c, k) == MemoryAt(d, k) && SerialOutput(c, k) == SerialOutput(d, k)
  {
    if k > 0 {
      SameSchedule(c, d, k - 1);
    }
  }

  lemma SameBlocks(c: Config, d: Config, k: nat)
    requires d == c.(buffers := d.buffers, depth := d.depth) && |c.stages| == |c.memory0|
    requires EndsAt(d, k)
    ensures EndsAt(c, k)
  {
    SameSchedule(c, d, k);
    forall j: nat | j < k ensures HasData(c, j) && Unthrown(c, j) {
      SameSchedule(c, d, j);
      assert HasData(d, j) && Unthrown(d, j);
    }
  }

  // ----- prefix safety and bounded run-ahead -----

  /** In every reachable state the output is the transform of the counted blocks and of a
      part of the next one, and the result counts complete blocks only. */
  lemma OutputIsPrefix(c: Config, run: seq<Action>, s: State)
    requires Reaches(c, run, s)
    ensures Delivered(c, s.result.blocks) && Clean(c, s.result.blocks)
    ensures s.result.bytes == Off(c, s.result.blocks)
    ensures exists p: nat :: p <= |Transformed(c, s.result.blocks)|
              && s.output == SerialOutput(c, s.result.blocks) + Transformed(c, s.result.blocks)[..p]
  {
    ReachedInv(c, run, s);
    CountedBlocksDelivered(c, s);
    var k := s.result.blocks;
    if s.partial > 0 {
      assert HasData(c, k);
      RawLength(c, k);
      assert Slice(Transformed(c, k), 0, s.partial) == Transformed(c, k)[..s.partial];
    } else {
      assert Slice(Transformed(c, k), 0, s.partial) == Transformed(c, k)[..0];
    }
  }

  /** Completed reads. */
  ghost function BlocksRead(s: State): nat {
    s.blockIndex + if s.reader.RPush? then 1 else 0
  }

  /** As long as no operation has thrown, the reader is ahead of the writer by at most the number of
      buffers. */
  lemma RunAheadIsBounded(c: Config, run: seq<Action>, s: State)
    requires Reaches(c, run, s) && s.raised == []
    ensures BlocksRead(s) - s.result.blocks <= c.buffers
  {
    ReachedInv(c, run, s);
    FailuresAgree(c, run, s);
    LeaseCount(c, s);
    assert ThreadAgrees(s, ProcessorThread) && ThreadAgrees(s, WriterThread);
  }

  // ----- leases -----

  /** In every reachable state each buffer index is in exactly one place: the free list, the hand of a
      worker, or an item of a queue; and the in-use flags are the complement of the free list. */
  lemma LeasesArePartitioned(c: Config, run: seq<Action>, s: State)
    requires Reaches(c, run, s)
    ensures forall i: nat :: Places(s, i) == if i < c.buffers then 1 else 0
    ensures |s.pool.inUse| == c.buffers
    ensures forall i: nat :: i < c.buffers ==> (s.pool.inUse[i] <==> i !in s.pool.free)
  {
    hide Flow, Locks, Agreement, Lifecycles, Places, Accepted;
    ReachedInv(c, run, s);
    forall i: nat | i < c.buffers ensures s.pool.inUse[i] <==> i !in s.pool.free {
      FreeCount(s.pool.free, i);
    }
  }

  lemma {:induction false} FreeCount(free: seq<nat>, i: nat)
    ensures InFree(free, i) > 0 <==> i in free
  {
    if free != [] {
      FreeCount(free[..|free| - 1], i);
      assert free == free[..|free| - 1] + [free[|free| - 1]];
    }
  }

  /** When `run` is about to leave, normally or by an exception, every lease is back. */
  lemma LeasesComeBack(c: Config, run: seq<Action>, s: State)
    requires Reaches(c, run, s) && Terminal(s)
    ensures |s.pool.free| == |s.pool.inUse| == c.buffers && s.first.items == [] && s.second.items == []
    ensures forall i: nat :: i < c.buffers ==> i in s.pool.free && !s.pool.inUse[i]
  {
    ReachedInv(c, run, s);
    NoLocksWithoutFailing(s);
    FinalQueuesAreEmpty(c, s);
    LeaseCount(c, s);
    forall i: nat | i < c.buffers ensures i in s.pool.free && !s.pool.inUse[i] {
      assert Places(s, i) == 1;
      FreeCount(s.pool.free, i);
    }
  }

  lemma FinalQueuesAreEmpty(c: Config, s: State)
    requires Inv(c, s) && Terminal(s) && s.firstLock.None? && s.secondLock.None?
    ensures s.first.items == [] && s.second.items == []
  {
    assert ThreadAgrees(s, MainThread) && ThreadAgrees(s, ReaderThread);
    assert ThreadAgrees(s, ProcessorThread) && ThreadAgrees(s, WriterThread);
  }

  // ----- failures -----

  /** `run` rethrows exactly when some operation or spawn threw; what it rethrows is one of those
      exceptions, and a failed queue holds exactly it. */
  lemma FailuresAgree(c: Config, run: seq<Action>, s: State)
    requires Reaches(c, run, s)
    ensures Terminal(s) ==> (s.main.Returned? <==> s.raised == [])
    ensures s.main.Threw? ==> s.main.failure in s.raised && Primary(s.main.failure)
    ensures s.main.Threw? ==> s.firstFailure == Some(s.main.failure)
    ensures s.first.state.Failed? ==> s.firstFailure == Some(s.first.state.failure)
    ensures s.second.state.Failed? ==> s.firstFailure == Some(s.second.state.failure)
    ensures forall f :: f in s.raised ==> Primary(f)
  {
    ReachedInv(c, run, s);
    if Terminal(s) {
      assert Pending(s, MainThread).None? && Pending(s, ReaderThread).None?;
      assert Pending(s, ProcessorThread).None? && Pending(s, WriterThread).None?;
    }
  }

  /** `first_failure` is written at most once. */
  lemma {:induction false} FirstFailureIsFinal(c: Config, s: State, run: seq<Action>)
    requires Legal(c, s, run) && s.firstFailure.Some?
    ensures Exec(c, s, run).firstFailure == s.firstFailure
    decreases |run|
  {
    if run != [] {
      NextKeepsFirstFailure(c, s, run[0]);
      FirstFailureIsFinal(c, Next(c, s, run[0]), run[1..]);
    }
  }

  lemma NextKeepsFirstFailure(c: Config, s: State, a: Action)
    requires Enabled(c, s, a) && s.firstFailure.Some?
    ensures Next(c, s, a).firstFailure == s.firstFailure
  {
    hide AfterRecord, AfterFailFirst, AfterFailSecond, AfterDiscardFirst, AfterDiscardSecond, Fill, ReaderAfterRead;
    match a {
      case StepReader => assert ReaderNext(c, s).firstFailure == s.firstFailure;
      case StepProcessor => assert ProcessorNext(c, s).firstFailure == s.firstFailure;
      case StepWriter(w) => WriterKeepsFirstFailure(c, s, w);
      case StepMain(spawn) => assert MainNext(s, spawn).firstFailure == s.firstFailure;
      case StepFail(t) => assert FailNext(s, t).firstFailure == s.firstFailure;
    }
  }

  lemma WriterKeepsFirstFailure(c: Config, s: State, w: WriteChoice)
    requires WriterReady(c, s, w)
    ensures WriterNext(c, s, w).firstFailure == s.firstFailure
  {
    hide ValidData;
  }

  // ----- progress -----

  /** No reachable state is stuck unless `run` has left. */
  lemma NoDeadlock(c: Config, run: seq<Action>, s: State)
    requires Reaches(c, run, s)
    ensures Terminal(s) <==> forall a :: !Enabled(c, s, a)
  {
    ReachedInv(c, run, s);
    if !Terminal(s) {
      var a := SomeActionEnabled(c, s);
    } else {
      forall a ensures !Enabled(c, s, a) {
        FinalStateHasNoAction(c, s, a);
      }
    }
  }

  lemma FinalStateHasNoAction(c: Config, s: State, a: Action)
    requires Inv(c, s) && Terminal(s)
    ensures !Enabled(c, s, a)
  {
  }

  /** Every interleaving is finite; its length is linear in the size of the input. */
  lemma RunsAreFinite(c: Config, run: seq<Action>, s: State)
    requires Reaches(c, run, s)
    ensures |run| <= 25 * |c.input| + 90
  {
    InitInv(c);
    RunIsBounded(c, Init(c), run);
    ReachedInv(c, run, s);
    MeasureBounded(c, s);
  }

  /** Every interleaving can be continued until `run` leaves. */
  lemma RunsComplete(c: Config, s: State) returns (rest: seq<Action>)
    requires Inv(c, s)
    ensures Legal(c, s, rest) && Terminal(Exec(c, s, rest))
    decreases Measure(c, s)
  {
    if Terminal(s) {
      rest := [];
    } else {
      var a := SomeActionEnabled(c, s);
      NextInv(c, s, a);
      NextDecreases(c, s, a);
      MeasureBounded(c, Next(c, s, a));
      MeasureBounded(c, s);
      var tail := RunsComplete(c, Next(c, s, a));
      rest := [a] + tail;
      assert rest[1..] == tail;
    }
  }

  // ----- a run without outside errors returns -----

  /** Neither a spawn nor a `pwrite` fails. */
  predicate Harmless(a: Action) {
    match a
    case StepWriter(w) => w.Wrote? && w.n > 0
    case StepMain(spawn) => spawn.Spawned?
    case _ => true
  }

  lemma {:induction false} HarmlessRunRaisesNothing(c: Config, s: State, run: seq<Action>, n: nat)
    requires Inv(c, s) && Legal(c, s, run) && EndsAt(c, n) && s.raised == []
    requires forall a :: a in run ==> Harmless(a)
    ensures Exec(c, s, run).raised == []
    decreases |run|
  {
    if run != [] {
      HarmlessStepRaisesNothing(c, s, run[0], n);
      NextInv(c, s, run[0]);
      HarmlessRunRaisesNothing(c, Next(c, s, run[0]), run[1..], n);
    }
  }

  lemma HarmlessStepRaisesNothing(c: Config, s: State, a: Action, n: nat)
    requires Inv(c, s) && Enabled(c, s, a) && EndsAt(c, n) && s.raised == [] && Harmless(a)
    ensures Next(c, s, a).raised == []
  {
    hide ReaderFlow, FirstFlow, ProcessorFlow, SecondFlow, WriterFlow, FileFlow, Partition, Agreement, Locks;
    ReaderIndexFits(c, s);
    WriterCountersFit(c, s);
    match a {
      case StepReader => ReaderRaisesNothing(c, s, n);
      case StepProcessor => ProcessorRaisesNothing(c, s, n);
      case _ =>
    }
  }

  lemma ReaderStaysBefore(c: Config, k: nat, n: nat)
    requires |c.stages| == |c.memory0| && Delivered(c, k) && EndsAt(c, n)
    ensures k <= n
  {
    assert n < k ==> HasData(c, n);
  }

  lemma ReaderRaisesNothing(c: Config, s: State, n: nat)
    requires Accepted(c) && ReaderFlow(c, s.buffers, s.reader, s.blockIndex, s.fileOffset)
    requires Lifecycles(c, s) && ReaderCannotOverflowIndex(c, s)
    requires ReaderReady(c, s) && EndsAt(c, n) && s.raised == []
    ensures ReaderNext(c, s).raised == []
  {
    var k := s.blockIndex;
    ReaderStaysBefore(c, k, n);
    if k < n {
      assert HasData(c, k);
      OffsetMonotone(c, k + 1, n);
    }
  }

  lemma ProcessorRaisesNothing(c: Config, s: State, n: nat)
    requires Accepted(c) && Flow(c, s) && Lifecycles(c, s) && ProcessorReady(c, s) && EndsAt(c, n) && s.raised == []
    ensures ProcessorNext(c, s).raised == []
  {
    if s.processor.PProcess? {
      ReaderStaysBefore(c, s.blockIndex, n);
      assert Unthrown(c, s.processed);
    }
  }

  /** When the serial reference succeeds and neither a spawn nor a write fails, every completed
      interleaving returns. Together with `ReturnedRunIsSerial`: it returns the serial result. */
  lemma SerialSuccessMeansReturn(c: Config, run: seq<Action>, s: State, n: nat)
    requires Reaches(c, run, s) && Terminal(s) && EndsAt(c, n)
    requires forall a :: a in run ==> Harmless(a)
    ensures s.main.Returned? && s.result == RunResult(n, |c.input|) && s.output == SerialOutput(c, n)
  {
    InitInv(c);
    HarmlessRunRaisesNothing(c, Init(c), run, n);
    FailuresAgree(c, run, s);
    ReturnedRunIsSerial(c, run, s);
    EndIsUnique(c, s.result.blocks, n);
  }

  lemma SomeHarmlessAction(c: Config, s: State) returns (a: Action)
    requires Inv(c, s) && !Terminal(s)
    ensures Enabled(c, s, a) && Harmless(a)
  {
    hide Partition, Locks, Agreement, Lifecycles;
    a := SomeActionEnabled(c, s);
    if a.StepWriter? {
      a := StepWriter(Wrote(1));
    } else if a.StepMain? {
      a := StepMain(Spawned);
    }
  }

  /** Every reachable state has a continuation in which no spawn and no write fails. */
  lemma HarmlessCompletion(c: Config, s: State) returns (rest: seq<Action>)
    requires Inv(c, s)
    ensures Legal(c, s, rest) && Terminal(Exec(c, s, rest)) && forall a :: a in rest ==> Harmless(a)
    decreases Measure(c, s)
  {
    hide Inv, Enabled, Next, Measure, Harmless, Terminal;
    if Terminal(s) {
      rest := [];
    } else {
      var a := SomeHarmlessAction(c, s);
      NextInv(c, s, a);
      NextDecreases(c, s, a);
      MeasureBounded(c, Next(c, s, a));
      MeasureBounded(c, s);
      var tail := HarmlessCompletion(c, Next(c, s, a));
      rest := [a] + tail;
      assert rest[1..] == tail;
    }
  }

  /** Returning runs exist: wherever the serial program succeeds there is an interleaving that returns,
      and so has its result. */
  lemma ReturningRunExists(c: Config, n: nat) returns (run: seq<Action>, s: State)
    requires Accepted(c) && EndsAt(c, n)
    ensures Reaches(c, run, s) && s.main.Returned?
    ensures s.result == RunResult(n, |c.input|) && s.output == SerialOutput(c, n)
  {
    InitInv(c);
    hide Accepted, Inv, Legal, Exec;
    run := HarmlessCompletion(c, Init(c));
    s := Exec(c, Init(c), run);
    SerialSuccessMeansReturn(c, run, s, n);
  }
}
