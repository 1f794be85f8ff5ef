/** Publication does happen: when nothing outside fails, `run_file` and `publish` return, and an
    exception of theirs is the one of the call that failed. */
module PublicationReturns {
  import opened Base
  import opened FileSystem
  import opened Publication
  import opened PublicationTheorems
  import C = ExecutorCauses
  import E = Executor
  import I = ExecutorInvariant
  import P = ExecutorProgress
  import R = RunSpec
  import T = ExecutorTheorems

  // ----- every run ends -----

  /** How many of the steps that run once are still to come. */
  function PcRank(pc: Pc): nat {
    match pc
    case OpenInput => 10
    case CheckSame => 9
    case OpenDirectory => 8
    case CreateTemp => 7
    case KeepName => 6
    case Body => 5
    case SyncData => 4
    case Rename => 3
    case SyncDirectory => 2
    case Unwind(_) => 1
    case Threw(_) => 0
    case Returned => 0
  }

  /** What the body still has to do. */
  function BodyMeasure(job: Job, work: Work): int {
    match work
    case Running(s) => if job.PipelineJob? then P.Measure(job.c, s) else 0
    case Writing(n) => if job.JsonJob? then |job.text| - n else 0
  }

  function Measure(job: Job, p: State): int {
    PcRank(p.pc) + BodyMeasure(job, p.work)
  }

  lemma MeasureBounded(job: Job, fs0: Fs, p: State)
    requires Inv(job, fs0, p)
    ensures Measure(job, p) >= 0
  {
    hide P.Measure, I.Inv, Directories, TempHolds, OldFilesKept, IsTarget, Content;
    if job.PipelineJob? {
      P.MeasureBounded(job.c, p.work.s);
    }
  }

  lemma ExecuteDecreases(job: Job, fs0: Fs, p: State, x: E.Action)
    requires Inv(job, fs0, p) && Enabled(job, p, Execute(x))
    ensures Measure(job, Next(job, p, Execute(x))) < Measure(job, p)
  {
    hide P.Measure, I.Inv, E.Enabled, E.Next, Directories, TempHolds, OldFilesKept, IsTarget, Content, Store, PcRank;
    P.NextDecreases(job.c, p.work.s, x);
  }

  lemma StepDecreases(job: Job, fs0: Fs, p: State, a: Action)
    requires Inv(job, fs0, p) && Enabled(job, p, a)
    ensures Measure(job, Next(job, p, a)) < Measure(job, p)
  {
    hide Inv, Enabled, Next, Measure;
    if a.Execute? {
      ExecuteDecreases(job, fs0, p, a.a);
    } else {
      OtherStepDecreases(job, p, a);
    }
  }

  lemma OtherStepDecreases(job: Job, p: State, a: Action)
    requires Enabled(job, p, a) && !a.Execute?
    ensures Measure(job, Next(job, p, a)) < Measure(job, p)
  {
    hide P.Measure, E.Terminal, Store, SyncFile, UnlinkFile, RenameFile, CreateFile, SyncDir, AfterAppend, AfterSucceed;
    if a.Append? {
      AppendDecreases(job, p, a.n);
    } else if a.Succeed? {
      SuccessDecreases(job, p);
    }
  }

  lemma AppendDecreases(job: Job, p: State, n: nat)
    requires Enabled(job, p, Append(n))
    ensures Measure(job, AfterAppend(job, p, n)) < Measure(job, p)
  {
    hide Store;
  }

  lemma SuccessDecreases(job: Job, p: State)
    requires Enabled(job, p, Succeed)
    ensures Measure(job, AfterSucceed(job, p)) < Measure(job, p)
  {
    hide E.Terminal, Store, SyncFile, UnlinkFile, RenameFile, CreateFile, SyncDir, BodyMeasure;
  }

  lemma {:induction false} RunIsBounded(job: Job, fs0: Fs, p: State, run: seq<Action>)
    requires Inv(job, fs0, p) && Legal(job, p, run)
    ensures |run| + Measure(job, Exec(job, p, run)) <= Measure(job, p)
    decreases |run|
  {
    hide Inv, Enabled, Next, Measure;
    if run != [] {
      StepDecreases(job, fs0, p, run[0]);
      PublicationTheorems.NextInv(job, fs0, p, run[0]);
      RunIsBounded(job, fs0, Next(job, p, run[0]), run[1..]);
    }
  }

  /** Every run of `run_file` and of `publish` is finite, whatever fails on the way. */
  lemma PublishingIsFinite(job: Job, fs0: Fs, run: seq<Action>, p: State)
    requires Reaches(job, fs0, run, p)
    ensures |run| <= if job.PipelineJob? then 25 * |job.c.input| + 100 else |job.text| + 10
  {
    InitInv(job, fs0);
    RunIsBounded(job, fs0, Init(job, fs0), run);
    ReachedInv(job, fs0, run, p);
    MeasureBounded(job, fs0, p);
  }

  // ----- runs in which nothing outside fails -----

  /** No system call, no spawn and no allocation fails, and no write writes nothing. */
  predicate Benign(a: Action) {
    match a
    case Fail(_) => false
    case Execute(x) => T.Harmless(x)
    case Append(n) => n > 0
    case _ => true
  }

  /** There is something to publish: for a pipeline, the published name does not refer to the input, and
      the serial program comes to a clean end. */
  ghost predicate CanPublish(job: Job, fs0: Fs) {
    && StartsFrom(job, fs0)
    && (job.PipelineJob? ==>
          && !(job.name in Current(fs0) && Current(fs0)[job.name] == job.input)
          && exists n: nat :: R.EndsAt(job.c, n))
  }

  predicate Calm(p: State) {
    !p.pc.Unwind? && !p.pc.Threw? && (p.work.Running? ==> p.work.s.raised == [])
  }

  lemma ThrownWasRaised(c: R.Config, s: E.State)
    requires I.Inv(c, s) && s.main.Threw?
    ensures s.raised != []
  {
  }

  lemma ExecuteKeepsCalm(job: Job, fs0: Fs, p: State, x: E.Action)
    requires Inv(job, fs0, p) && CanPublish(job, fs0) && Calm(p) && Enabled(job, p, Execute(x)) && T.Harmless(x)
    ensures Calm(Next(job, p, Execute(x)))
  {
    hide I.Inv, E.Enabled, E.Next, T.Harmless, R.EndsAt, Directories, TempHolds, OldFilesKept, IsTarget, Content, Store;
    var n: nat :| R.EndsAt(job.c, n);
    T.HarmlessStepRaisesNothing(job.c, p.work.s, x, n);
  }

  lemma BodyEndKeepsCalm(job: Job, fs0: Fs, p: State)
    requires Inv(job, fs0, p) && Calm(p) && Enabled(job, p, Succeed) && p.pc.Body?
    ensures Calm(Next(job, p, Succeed))
  {
    hide I.Inv, Directories, TempHolds, OldFilesKept, IsTarget, Content;
    if p.work.Running? && p.work.s.main.Threw? {
      ThrownWasRaised(job.c, p.work.s);
    }
  }

  lemma OtherStepKeepsCalm(job: Job, fs0: Fs, p: State, a: Action)
    requires Inv(job, fs0, p) && CanPublish(job, fs0) && Calm(p) && Enabled(job, p, a) && Benign(a)
    requires !a.Execute? && !p.pc.Body?
    ensures Calm(Next(job, p, a))
  {
    hide BodyOk, Directories, TempHolds, OldFilesKept, IsTarget, Content, BodyBegins, BodyComplete;
  }

  lemma StepKeepsCalm(job: Job, fs0: Fs, p: State, a: Action)
    requires Inv(job, fs0, p) && CanPublish(job, fs0) && Calm(p) && Enabled(job, p, a) && Benign(a)
    ensures Calm(Next(job, p, a))
  {
    hide Inv, CanPublish, E.Enabled, E.Next, T.Harmless, Store;
    if a.Execute? {
      ExecuteKeepsCalm(job, fs0, p, a.a);
    } else if a.Succeed? && p.pc.Body? {
      BodyEndKeepsCalm(job, fs0, p);
    } else if !p.pc.Body? {
      OtherStepKeepsCalm(job, fs0, p, a);
    }
  }

  // ----- a name and an inode that are new -----

  lemma NewName(taken: set<string>) returns (name: string)
    ensures name !in taken
  {
    var bound := LongerThanAll(taken);
    name := seq(bound, _ => 't');
  }

  lemma LongerThanAll(taken: set<string>) returns (bound: nat)
    ensures forall s :: s in taken ==> |s| < bound
    decreases |taken|
  {
    if taken == {} {
      bound := 0;
    } else {
      var s :| s in taken;
      var rest := LongerThanAll(taken - {s});
      bound := if |s| < rest then rest else |s| + 1;
    }
  }

  lemma NewInode(taken: set<nat>) returns (inode: nat)
    ensures forall i :: i in taken ==> i < inode
    decreases |taken|
  {
    if taken == {} {
      inode := 0;
    } else {
      var i :| i in taken;
      var rest := NewInode(taken - {i});
      inode := if i < rest then rest else i + 1;
      forall j | j in taken ensures j < inode {
        assert j == i || j in taken - {i};
      }
    }
  }

  lemma CanCreate(job: Job, p: State) returns (a: Action)
    requires WellFormed(p.fs) && p.pc.CreateTemp?
    ensures a.Create? && Enabled(job, p, a)
  {
    var temp := NewName(Current(p.fs).Keys + {job.name});
    var inode := NewInode(p.fs.inodes.Keys);
    a := Create(temp, inode);
  }

  // ----- progress -----

  lemma BodyCanGoOn(job: Job, fs0: Fs, p: State) returns (a: Action)
    requires Inv(job, fs0, p) && p.pc.Body?
    ensures Enabled(job, p, a) && Benign(a)
  {
    hide I.Inv, E.Enabled, E.Terminal, T.Harmless, Directories, TempHolds, OldFilesKept, IsTarget, Content;
    if BodyDone(job, p.work) {
      a := Succeed;
    } else if job.PipelineJob? {
      var x := T.SomeHarmlessAction(job.c, p.work.s);
      a := Execute(x);
    } else {
      a := Append(1);
    }
  }

  /** A publication that has not failed can go on until it has returned. */
  lemma SomeBenignAction(job: Job, fs0: Fs, p: State) returns (a: Action)
    requires Inv(job, fs0, p) && !p.pc.Threw? && !p.pc.Returned?
    ensures Enabled(job, p, a) && Benign(a)
  {
    if p.pc.Body? {
      a := BodyCanGoOn(job, fs0, p);
    } else if p.pc.CreateTemp? {
      a := CanCreate(job, p);
    } else {
      hide BodyOk, TempHolds, OldFilesKept, IsTarget, Content, BodyBegins, BodyComplete;
      a := Succeed;
      assert p.pc.Rename? ==> p.temp in With(fs0, p.temp, p.inode);
    }
  }

  lemma {:induction false} RunKeepsCalm(job: Job, fs0: Fs, p: State, run: seq<Action>)
    requires Inv(job, fs0, p) && CanPublish(job, fs0) && Calm(p) && Legal(job, p, run)
    requires forall a :: a in run ==> Benign(a)
    ensures Calm(Exec(job, p, run))
    decreases |run|
  {
    hide Inv, CanPublish, Calm, Enabled, Next, Benign;
    if run != [] {
      assert run[0] in run;
      StepKeepsCalm(job, fs0, p, run[0]);
      PublicationTheorems.NextInv(job, fs0, p, run[0]);
      RunKeepsCalm(job, fs0, Next(job, p, run[0]), run[1..]);
    }
  }

  /** When there is something to publish and nothing outside fails, a publication that cannot go on has
      returned, with what `ReturnIsDurable` says of a return. */
  lemma BenignRunReturns(job: Job, fs0: Fs, run: seq<Action>, p: State)
    requires Reaches(job, fs0, run, p) && CanPublish(job, fs0)
    requires forall a :: a in run ==> Benign(a)
    requires forall a :: Benign(a) ==> !Enabled(job, p, a)
    ensures p.pc.Returned?
  {
    hide Inv, CanPublish, Enabled, Benign, Legal, Exec;
    StartIsCalm(job, fs0);
    ReachedInv(job, fs0, run, p);
    RunKeepsCalm(job, fs0, Init(job, fs0), run);
    if !p.pc.Returned? {
      var a := SomeBenignAction(job, fs0, p);
    }
  }

  lemma StartIsCalm(job: Job, fs0: Fs)
    requires StartsFrom(job, fs0)
    ensures Inv(job, fs0, Init(job, fs0)) && Calm(Init(job, fs0))
  {
    InitInv(job, fs0);
    hide Inv, StartsFrom;
  }

  lemma BenignCompletion(job: Job, fs0: Fs, p: State) returns (rest: seq<Action>)
    requires Inv(job, fs0, p) && CanPublish(job, fs0) && Calm(p)
    ensures Legal(job, p, rest) && Exec(job, p, rest).pc.Returned? && forall a :: a in rest ==> Benign(a)
    decreases Measure(job, p)
  {
    hide Inv, CanPublish, Enabled, Next, Benign, Measure;
    if p.pc.Returned? {
      rest := [];
    } else {
      var a := SomeBenignAction(job, fs0, p);
      StepKeepsCalm(job, fs0, p, a);
      PublicationTheorems.NextInv(job, fs0, p, a);
      StepDecreases(job, fs0, p, a);
      MeasureBounded(job, fs0, p);
      MeasureBounded(job, fs0, Next(job, p, a));
      var tail := BenignCompletion(job, fs0, Next(job, p, a));
      rest := [a] + tail;
      assert rest[1..] == tail;
    }
  }

  /** A run that returns exists exactly when there is something to publish. */
  lemma PublishingRunExists(job: Job, fs0: Fs)
    ensures (exists run, p :: Reaches(job, fs0, run, p) && p.pc.Returned?) <==> CanPublish(job, fs0)
  {
    hide Reaches, CanPublish;
    forall run, p | Reaches(job, fs0, run, p) && p.pc.Returned? ensures CanPublish(job, fs0) {
      ReturnedCouldPublish(job, fs0, run, p);
    }
    if CanPublish(job, fs0) {
      var run := ReturningRun(job, fs0);
    }
  }

  lemma ReturningRun(job: Job, fs0: Fs) returns (run: seq<Action>)
    requires CanPublish(job, fs0)
    ensures exists p :: Reaches(job, fs0, run, p) && p.pc.Returned? && forall a :: a in run ==> Benign(a)
  {
    hide Inv, Calm, Legal, Exec, Benign;
    StartIsCalm(job, fs0);
    run := BenignCompletion(job, fs0, Init(job, fs0));
    assert Reaches(job, fs0, run, Exec(job, Init(job, fs0), run));
  }

  lemma ReturnedCouldPublish(job: Job, fs0: Fs, run: seq<Action>, p: State)
    requires Reaches(job, fs0, run, p) && p.pc.Returned?
    ensures CanPublish(job, fs0)
  {
    hide Legal, Exec, Inv, R.EndsAt, IsTarget;
    if job.PipelineJob? {
      InputIsPreserved(job, fs0, run, p);
      ReturnIsDurable(job, fs0, run, p);
    }
  }

  // ----- where an exception comes from -----

  /** The steps that the executor took in this run. */
  function Executed(run: seq<Action>): seq<E.Action>
    decreases |run|
  {
    if run == [] then [] else (if run[0].Execute? then [run[0].a] else []) + Executed(run[1..])
  }

  lemma StepOnBody(job: Job, p: State, a: Action)
    requires Enabled(job, p, a) && p.work.Running?
    ensures a.Execute? ==>
      && job.PipelineJob? && E.Enabled(job.c, p.work.s, a.a)
      && Next(job, p, a).work == Running(E.Next(job.c, p.work.s, a.a))
    ensures !a.Execute? ==> Next(job, p, a).work == p.work
  {
    hide E.Enabled, E.Next, E.Terminal, Store, SyncFile, UnlinkFile, RenameFile, CreateFile, SyncDir;
  }

  lemma {:induction false} BodyIsARun(job: Job, p: State, run: seq<Action>)
    requires job.PipelineJob? && p.work.Running? && Legal(job, p, run)
    ensures Exec(job, p, run).work.Running? && E.Legal(job.c, p.work.s, Executed(run))
    ensures Exec(job, p, run).work.s == E.Exec(job.c, p.work.s, Executed(run))
    decreases |run|
  {
    hide Enabled, Next, E.Enabled, E.Next;
    if run != [] {
      StepOnBody(job, p, run[0]);
      BodyIsARun(job, Next(job, p, run[0]), run[1..]);
      if run[0].Execute? {
        assert Executed(run)[1..] == Executed(run[1..]);
      } else {
        assert Executed(run) == Executed(run[1..]);
      }
    }
  }

  /** The body of a pipeline's publication is a run of the executor. */
  lemma BodyRuns(job: Job, fs0: Fs, run: seq<Action>, p: State)
    requires Reaches(job, fs0, run, p) && job.PipelineJob?
    ensures p.work.Running? && T.Reaches(job.c, Executed(run), p.work.s)
  {
    BodyIsARun(job, Init(job, fs0), run);
  }

  predicate HasError(p: State) {
    p.pc.Unwind? || p.pc.Threw?
  }

  /** This step, from this state, throws this error: the call of that point failed with that errno, the
      paths name one file, or the body came to an exception. */
  ghost predicate Throws(job: Job, fs0: Fs, q: State, a: Action, error: PubError)
    requires StartsFrom(job, fs0)
  {
    match error
    case OpenInputFailed(e) => q.pc.OpenInput? && a == Fail(e)
    case StatFailed(e) => q.pc.CheckSame? && a == Fail(e)
    case SameFile => job.PipelineJob? && job.name in Current(fs0) && Current(fs0)[job.name] == job.input
    case OpenDirectoryFailed(e) => q.pc.OpenDirectory? && a == Fail(e)
    case CreateFailed(e) => q.pc.CreateTemp? && a == Fail(e)
    case OutOfMemory => q.pc.KeepName? && a.Fail?
    case SyncFailed(e) => q.pc.SyncData? && a == Fail(e)
    case RenameFailed(e) => q.pc.Rename? && a == Fail(e)
    case DirectorySyncFailed(e) => q.pc.SyncDirectory? && a == Fail(e)
    case BodyFailed(f) =>
      && q.pc.Body?
      && if job.PipelineJob? then q.work.Running? && q.work.s.main == E.Threw(f)
         else f.WriteFailed? && (a == Fail(f.errno) || (f.errno == EIO && a == Append(0)))
  }

  /** Some step of the run throws this error. */
  ghost predicate ThrownIn(job: Job, fs0: Fs, p: State, run: seq<Action>, error: PubError)
    requires StartsFrom(job, fs0) && Legal(job, p, run)
    decreases |run|
  {
    run != []
    && (Throws(job, fs0, p, run[0], error) || ThrownIn(job, fs0, Next(job, p, run[0]), run[1..], error))
  }

  lemma StepThrows(job: Job, fs0: Fs, p: State, a: Action)
    requires Inv(job, fs0, p) && Enabled(job, p, a) && !HasError(p) && HasError(Next(job, p, a))
    ensures var n := Next(job, p, a); Throws(job, fs0, p, a, n.pc.error) && n.work == p.work
  {
    hide I.Inv, E.Enabled, E.Next, E.Terminal, Directories, TempHolds, OldFilesKept, IsTarget, Content, Store, SyncFile,
      RenameFile, CreateFile, SyncDir, BodyBegins, BodyComplete, InputIsElsewhere;
  }

  lemma {:induction false} ErrorStays(job: Job, p: State, run: seq<Action>)
    requires Legal(job, p, run) && HasError(p)
    ensures var t := Exec(job, p, run); HasError(t) && t.pc.error == p.pc.error && t.work == p.work
    decreases |run|
  {
    if run != [] {
      ErrorStepStays(job, p, run[0]);
      hide Enabled, Next, HasError;
      ErrorStays(job, Next(job, p, run[0]), run[1..]);
    }
  }

  lemma ErrorStepStays(job: Job, p: State, a: Action)
    requires Enabled(job, p, a) && HasError(p)
    ensures var n := Next(job, p, a); HasError(n) && n.pc.error == p.pc.error && n.work == p.work
  {
    hide E.Enabled, E.Next, E.Terminal;
  }

  lemma {:induction false} RunThrows(job: Job, fs0: Fs, p: State, run: seq<Action>)
    requires Inv(job, fs0, p) && Legal(job, p, run) && !HasError(p) && HasError(Exec(job, p, run))
    ensures ThrownIn(job, fs0, p, run, Exec(job, p, run).pc.error)
    decreases |run|
  {
    if run != [] {
      var n := Next(job, p, run[0]);
      hide Inv, Enabled, Next, Throws, HasError, StartsFrom;
      PublicationTheorems.NextInv(job, fs0, p, run[0]);
      if HasError(n) {
        StepThrows(job, fs0, p, run[0]);
        ErrorStays(job, n, run[1..]);
      } else {
        RunThrows(job, fs0, n, run[1..]);
      }
    }
  }

  /** The exception of a body that is a run of the executor is the one that this run rethrows. */
  predicate BodyAgrees(job: Job, p: State) {
    job.PipelineJob? && HasError(p) && p.pc.error.BodyFailed? ==>
      p.work.Running? && p.work.s.main == E.Threw(p.pc.error.failure)
  }

  lemma StepKeepsBodyAgrees(job: Job, fs0: Fs, p: State, a: Action)
    requires Inv(job, fs0, p) && Enabled(job, p, a) && BodyAgrees(job, p)
    ensures BodyAgrees(job, Next(job, p, a))
  {
    assert StartsFrom(job, fs0);
    hide Inv, Enabled, Next, BodyAgrees, HasError, StartsFrom;
    if HasError(p) {
      ErrorStepStays(job, p, a);
      SameErrorAgrees(job, p, Next(job, p, a));
    } else if HasError(Next(job, p, a)) {
      StepThrows(job, fs0, p, a);
      ThrownAgrees(job, fs0, p, a, Next(job, p, a));
    } else {
      NoErrorAgrees(job, Next(job, p, a));
    }
  }

  lemma SameErrorAgrees(job: Job, p: State, n: State)
    requires HasError(p) && HasError(n) && n.pc.error == p.pc.error && n.work == p.work && BodyAgrees(job, p)
    ensures BodyAgrees(job, n)
  {
  }

  lemma ThrownAgrees(job: Job, fs0: Fs, p: State, a: Action, n: State)
    requires StartsFrom(job, fs0) && HasError(n) && Throws(job, fs0, p, a, n.pc.error) && n.work == p.work
    ensures BodyAgrees(job, n)
  {
  }

  lemma NoErrorAgrees(job: Job, n: State)
    requires !HasError(n)
    ensures BodyAgrees(job, n)
  {
  }

  lemma {:induction false} RunKeepsBodyAgrees(job: Job, fs0: Fs, p: State, run: seq<Action>)
    requires Inv(job, fs0, p) && Legal(job, p, run) && BodyAgrees(job, p)
    ensures BodyAgrees(job, Exec(job, p, run))
    decreases |run|
  {
    hide Inv, Enabled, Next, BodyAgrees;
    if run != [] {
      StepKeepsBodyAgrees(job, fs0, p, run[0]);
      PublicationTheorems.NextInv(job, fs0, p, run[0]);
      RunKeepsBodyAgrees(job, fs0, Next(job, p, run[0]), run[1..]);
    }
  }

  /** Every exception that `run_file` or `publish` throws, or is unwinding with, was thrown by a step of its
      run: with the errno of the system call that failed there, because the published name is the input's,
      or as the exception of the executor's run, which in its turn has its cause in that run. */
  lemma ErrorsHaveCauses(job: Job, fs0: Fs, run: seq<Action>, p: State)
    requires Reaches(job, fs0, run, p) && HasError(p)
    ensures ThrownIn(job, fs0, Init(job, fs0), run, p.pc.error)
    ensures job.PipelineJob? && p.pc.error.BodyFailed? ==>
      |job.c.stages| == |job.c.memory0| && C.Caused(job.c, Executed(run), p.pc.error.failure)
  {
    InitInv(job, fs0);
    hide Inv, Legal, Exec, C.Caused, ThrownIn;
    RunThrows(job, fs0, Init(job, fs0), run);
    RunKeepsBodyAgrees(job, fs0, Init(job, fs0), run);
    if job.PipelineJob? {
      BodyRuns(job, fs0, run, p);
      C.FailuresHaveCauses(job.c, Executed(run), p.work.s);
    }
  }
}
