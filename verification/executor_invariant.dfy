/** The invariant of a run, kept by every action from the initial state on. */
module ExecutorInvariant {
  import opened Executor
  import opened ExecutorControl
  import opened ExecutorFlow
  import opened ExecutorLeases
  import opened LeaseSpec
  import opened RunSpec

  ghost predicate Inv(c: Config, s: State) {
    && Accepted(c)
    && Partition(c, s) && Locks(s) && Agreement(s) && Lifecycles(c, s) && Flow(c, s)
  }

  lemma InitInv(c: Config)
    requires Accepted(c)
    ensures Inv(c, Init(c))
  {
    InitPartition(c);
    InitControl(c);
    InitFlow(c);
  }

  lemma PartitionFromPlaces(c: Config, s: State, n: State)
    requires Partition(c, s) && |n.buffers| == |s.buffers|
    requires forall i: nat :: Places(n, i) == Places(s, i)
    requires n.pool == s.pool || (|s.pool.free| > 0 && n.pool == AfterTake(s.pool))
      || exists b :: n.pool == AfterGive(s.pool, b)
    ensures Partition(c, n)
  {
    forall i: nat ensures InFree(s.pool.free, i) <= 1 {
      assert Places(s, i) <= 1;
    }
    if |s.pool.free| > 0 && n.pool == AfterTake(s.pool) {
      TakeKeepsFlags(c.buffers, s.pool);
    } else if n.pool != s.pool {
      var b :| n.pool == AfterGive(s.pool, b);
      GiveKeepsFlags(c.buffers, s.pool, b);
    }
  }

  lemma ReaderKeepsInv(c: Config, s: State)
    requires Inv(c, s) && ReaderReady(c, s)
    ensures Inv(c, ReaderNext(c, s))
  {
    var n := ReaderNext(c, s);
    forall i: nat ensures Places(n, i) == Places(s, i) {
      ReaderKeepsPlaces(c, s, i);
    }
    ReaderPool(c, s);
    PartitionFromPlaces(c, s, n);
    ReaderIndexFits(c, s);
    ReaderStep(c, s);
    ReaderThrowsPrimary(c, s);
    WorkerKeepsLocks(s, n, ReaderThread);
    WorkerKeepsAgreement(s, n, ReaderThread);
    ReaderKeepsLifecycle(c, s);
    ReaderKeepsFlow(c, s);
  }

  lemma ReaderPool(c: Config, s: State)
    requires ReaderReady(c, s)
    ensures var n := ReaderNext(c, s);
            && |n.buffers| == |s.buffers|
            && (n.pool == s.pool || (|s.pool.free| > 0 && n.pool == AfterTake(s.pool))
                || exists b :: n.pool == AfterGive(s.pool, b))
  {
  }

  lemma ProcessorKeepsInv(c: Config, s: State)
    requires Inv(c, s) && ProcessorReady(c, s)
    ensures Inv(c, ProcessorNext(c, s))
  {
    var n := ProcessorNext(c, s);
    forall i: nat ensures Places(n, i) == Places(s, i) {
      ProcessorKeepsPlaces(c, s, i);
    }
    ProcessorPool(c, s);
    PartitionFromPlaces(c, s, n);
    ProcessorStep(c, s);
    ProcessorThrowsPrimary(c, s);
    WorkerKeepsLocks(s, n, ProcessorThread);
    WorkerKeepsAgreement(s, n, ProcessorThread);
    ProcessorKeepsLifecycle(c, s);
    ProcessorKeepsFlow(c, s);
  }

  lemma ProcessorPool(c: Config, s: State)
    requires ProcessorReady(c, s)
    ensures var n := ProcessorNext(c, s);
            && |n.buffers| == |s.buffers|
            && (n.pool == s.pool || exists b :: n.pool == AfterGive(s.pool, b))
  {
  }

  lemma WriterKeepsInv(c: Config, s: State, w: WriteChoice)
    requires Inv(c, s) && WriterReady(c, s, w)
    ensures Inv(c, WriterNext(c, s, w))
  {
    var n := WriterNext(c, s, w);
    forall i: nat ensures Places(n, i) == Places(s, i) {
      WriterKeepsPlaces(c, s, w, i);
    }
    WriterPool(c, s, w);
    PartitionFromPlaces(c, s, n);
    WriterCountersFit(c, s);
    WriterStep(c, s, w);
    WriterThrowsPrimary(c, s, w);
    WorkerKeepsLocks(s, n, WriterThread);
    WorkerKeepsAgreement(s, n, WriterThread);
    WriterKeepsLifecycle(c, s, w);
    WriterKeepsFlow(c, s, w);
  }

  lemma WriterPool(c: Config, s: State, w: WriteChoice)
    requires WriterReady(c, s, w)
    ensures var n := WriterNext(c, s, w);
            && n.buffers == s.buffers
            && (n.pool == s.pool || exists b :: n.pool == AfterGive(s.pool, b))
  {
  }

  lemma MainKeepsInv(c: Config, s: State, spawn: SpawnChoice)
    requires Inv(c, s) && MainReady(s)
    ensures Inv(c, MainNext(s, spawn))
  {
    var n := MainNext(s, spawn);
    MainKeepsPlaces(c, s, spawn);
    PartitionFromPlaces(c, s, n);
    MainKeepsLocks(c, s, spawn);
    MainKeepsAgreement(c, s, spawn);
    MainKeepsLifecycle(c, s, spawn);
    MainKeepsFlow(c, s, spawn);
  }

  lemma MainKeepsPlaces(c: Config, s: State, spawn: SpawnChoice)
    requires Lifecycles(c, s) && MainReady(s)
    ensures var n := MainNext(s, spawn);
            n.pool == s.pool && n.buffers == s.buffers && forall i: nat :: Places(n, i) == Places(s, i)
  {
  }

  lemma FailKeepsInv(c: Config, s: State, t: Tid)
    requires Inv(c, s) && FailReady(s, t)
    ensures Inv(c, FailNext(s, t))
  {
    var n := FailNext(s, t);
    forall i: nat ensures Places(n, i) == Places(s, i) {
      FailKeepsPlaces(s, t, i);
    }
    FailPool(s, t);
    PartitionFromPlaces(c, s, n);
    FailKeepsAgreement(s, t);
    FailKeepsLifecycle(c, s, t);
    FailKeepsFlow(c, s, t);
  }

  lemma FailPool(s: State, t: Tid)
    requires FailReady(s, t)
    ensures var n := FailNext(s, t);
            && n.buffers == s.buffers
            && (n.pool == s.pool || exists b :: n.pool == AfterGive(s.pool, b))
  {
  }

  lemma NextInv(c: Config, s: State, a: Action)
    requires Inv(c, s) && Enabled(c, s, a)
    ensures Inv(c, Next(c, s, a))
  {
    match a {
      case StepReader => ReaderKeepsInv(c, s);
      case StepProcessor => ProcessorKeepsInv(c, s);
      case StepWriter(w) => WriterKeepsInv(c, s, w);
      case StepMain(spawn) => MainKeepsInv(c, s, spawn);
      case StepFail(t) => FailKeepsInv(c, s, t);
    }
  }

  /** Every state of every interleaving satisfies the invariant. */
  lemma {:induction false} RunInv(c: Config, s: State, run: seq<Action>)
    requires Inv(c, s) && Legal(c, s, run)
    ensures Inv(c, Exec(c, s, run))
    decreases |run|
  {
    if run != [] {
      NextInv(c, s, run[0]);
      RunInv(c, Next(c, s, run[0]), run[1..]);
    }
  }
}
