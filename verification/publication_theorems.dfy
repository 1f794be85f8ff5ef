/** What a reader of the published name can find, at any moment and after a crash at any moment. */
module PublicationTheorems {
  import opened Base
  import opened FileSystem
  import opened Publication
  import E = Executor
  import I = ExecutorInvariant
  import R = RunSpec
  import T = ExecutorTheorems

  // ----- the invariant -----

  /** Files that existed before are what they were. */
  predicate OldFilesKept(old0: map<nat, Inode>, now: map<nat, Inode>) {
    forall i :: i in old0 ==> i in now && now[i] == old0[i]
  }

  /** Nothing has been created yet, or creation failed. */
  predicate Untouched(p: State) {
    match p.pc
    case OpenInput => true
    case CheckSame => true
    case OpenDirectory => true
    case CreateTemp => true
    case Threw(e) =>
      e.OpenInputFailed? || e.StatFailed? || e.SameFile? || e.OpenDirectoryFailed? || e.CreateFailed?
    case _ => false
  }

  predicate IsPublished(p: State) {
    p.pc.SyncDirectory? || p.pc.Returned? || (p.pc.Threw? && p.pc.error.DirectorySyncFailed?)
  }

  /** The directory at the start with one entry changed. */
  function With(fs0: Fs, name: string, inode: nat): Dir
    requires WellFormed(fs0)
  {
    Current(fs0)[name := inode]
  }

  /** The history of the directory since the start: nothing, then the temporary name, then either
      the new file under its final name or the old directory again. */
  predicate Directories(job: Job, fs0: Fs, p: State)
    requires WellFormed(fs0)
  {
    if Untouched(p) then p.fs.dirs == fs0.dirs
    else if IsPublished(p) then p.fs.dirs == fs0.dirs + [With(fs0, p.temp, p.inode), With(fs0, job.name, p.inode)]
    else p.fs.dirs == fs0.dirs + [With(fs0, p.temp, p.inode)]
         || (p.pc.Threw? && p.fs.dirs == fs0.dirs + [With(fs0, p.temp, p.inode), Current(fs0)])
  }

  predicate TempIsNew(job: Job, fs0: Fs, p: State)
    requires WellFormed(fs0)
  {
    p.temp != job.name && p.temp !in Current(fs0) && p.inode !in fs0.inodes && p.inode in p.fs.inodes
  }

  /** The temporary file holds what the body has produced; from the sync on it is the complete file,
      and from the rename on it is on disk. */
  ghost predicate TempHolds(job: Job, p: State)
    requires p.inode in p.fs.inodes
  {
    && (p.pc.KeepName? || p.pc.Body? ==> p.fs.inodes[p.inode].data == Content(job, p.work))
    && (p.pc.SyncData? || p.pc.Rename? || IsPublished(p) ==> IsTarget(job, p.fs.inodes[p.inode].data))
    && (p.pc.Rename? || IsPublished(p) ==> p.fs.inodes[p.inode].synced)
  }

  ghost predicate BodyOk(job: Job, work: Work) {
    match job
    case PipelineJob(c, _, _) => work.Running? && I.Inv(c, work.s)
    case JsonJob(text, _) => work.Writing? && work.written <= |text|
  }

  predicate BodyBegins(job: Job, p: State) {
    Untouched(p) || p.pc.KeepName? ==> Content(job, p.work) == []
  }

  /** Once the two paths have been compared, the input is not what the published name refers to. */
  predicate InputIsElsewhere(job: Job, fs0: Fs, p: State)
    requires WellFormed(fs0)
  {
    job.PipelineJob? && (p.pc.OpenDirectory? || p.pc.CreateTemp? || !Untouched(p)) ==>
      !(job.name in Current(fs0) && Current(fs0)[job.name] == job.input)
  }

  predicate BodyComplete(job: Job, p: State) {
    p.pc.SyncData? || p.pc.Rename? || IsPublished(p) ==>
      BodyDone(job, p.work) && (p.work.Running? ==> p.work.s.main.Returned?)
  }

  /** The errors that unwind past the temporary file. */
  predicate UnwindsLate(p: State) {
    p.pc.Unwind? ==>
      p.pc.error.OutOfMemory? || p.pc.error.BodyFailed? || p.pc.error.SyncFailed? || p.pc.error.RenameFailed?
  }

  predicate OnDisk(fs0: Fs, p: State) {
    p.fs.base == if p.pc.Returned? then |p.fs.dirs| - 1 else fs0.base
  }

  ghost predicate Inv(job: Job, fs0: Fs, p: State) {
    && StartsFrom(job, fs0) && WellFormed(p.fs)
    && OldFilesKept(fs0.inodes, p.fs.inodes) && Directories(job, fs0, p) && OnDisk(fs0, p)
    && (if Untouched(p) then p.fs == fs0 else TempIsNew(job, fs0, p) && TempHolds(job, p))
    && BodyOk(job, p.work) && BodyBegins(job, p) && BodyComplete(job, p)
    && InputIsElsewhere(job, fs0, p)
    && (p.pc.OpenInput? || p.pc.CheckSame? ==> job.PipelineJob?) && UnwindsLate(p)
  }

  lemma InitInv(job: Job, fs: Fs)
    requires StartsFrom(job, fs)
    ensures Inv(job, fs, Init(job, fs))
  {
    if job.PipelineJob? {
      I.InitInv(job.c);
    }
  }

  // ----- the steps -----

  lemma EarlyFailKeepsInv(job: Job, fs0: Fs, p: State, errno: int)
    requires Inv(job, fs0, p) && Enabled(job, p, Fail(errno)) && Untouched(p)
    ensures Inv(job, fs0, AfterFail(p, errno))
  {
    hide BodyOk, Content, IsTarget, OldFilesKept, TempHolds, BodyDone;
  }

  lemma LateFailKeepsInv(job: Job, fs0: Fs, p: State, errno: int)
    requires Inv(job, fs0, p) && Enabled(job, p, Fail(errno)) && !Untouched(p)
    ensures Inv(job, fs0, AfterFail(p, errno))
  {
    hide BodyOk, Content, IsTarget, OldFilesKept, BodyDone, With, R.Accepted;
  }

  lemma FailKeepsInv(job: Job, fs0: Fs, p: State, errno: int)
    requires Inv(job, fs0, p) && Enabled(job, p, Fail(errno))
    ensures Inv(job, fs0, AfterFail(p, errno))
  {
    hide Inv, Enabled, AfterFail;
    if Untouched(p) {
      EarlyFailKeepsInv(job, fs0, p, errno);
    } else {
      LateFailKeepsInv(job, fs0, p, errno);
    }
  }

  lemma CreateKeepsInv(job: Job, fs0: Fs, p: State, temp: string, inode: nat)
    requires Inv(job, fs0, p) && Enabled(job, p, Create(temp, inode))
    ensures Inv(job, fs0, Next(job, p, Create(temp, inode)))
  {
    hide BodyOk, Content, IsTarget;
  }

  lemma StoreKeeps(job: Job, fs0: Fs, p: State, data: seq<byte>)
    requires WellFormed(fs0) && WellFormed(p.fs) && TempIsNew(job, fs0, p) && OldFilesKept(fs0.inodes, p.fs.inodes)
    ensures var fs := Store(p.fs, p.inode, data);
            && OldFilesKept(fs0.inodes, fs.inodes) && fs.dirs == p.fs.dirs && fs.base == p.fs.base
            && p.inode in fs.inodes && fs.inodes[p.inode].data == data
  {
  }

  lemma ExecuteKeepsInv(job: Job, fs0: Fs, p: State, a: E.Action)
    requires Inv(job, fs0, p) && Enabled(job, p, Execute(a))
    ensures Inv(job, fs0, AfterExecute(job, p, a))
  {
    hide I.Inv, E.Enabled, E.Next, IsTarget, OldFilesKept, Store;
    I.NextInv(job.c, p.work.s, a);
    StoreKeeps(job, fs0, p, E.Next(job.c, p.work.s, a).output);
  }

  lemma AppendKeepsInv(job: Job, fs0: Fs, p: State, n: nat)
    requires Inv(job, fs0, p) && Enabled(job, p, Append(n))
    ensures Inv(job, fs0, AfterAppend(job, p, n))
  {
    hide IsTarget, OldFilesKept, Store;
    StoreKeeps(job, fs0, p, job.text[..p.work.written + n]);
  }

  /** A body that is done has produced the complete file. */
  lemma DoneBodyIsTarget(job: Job, work: Work)
    requires BodyOk(job, work) && BodyDone(job, work) && (work.Running? ==> work.s.main.Returned?)
    requires job.PipelineJob? ==> R.Accepted(job.c)
    ensures IsTarget(job, Content(job, work))
  {
    if job.PipelineJob? {
      T.ReturnedStateIsSerial(job.c, work.s);
    } else {
      assert job.text[..|job.text|] == job.text;
    }
  }

  lemma BodyEndKeepsInv(job: Job, fs0: Fs, p: State)
    requires Inv(job, fs0, p) && p.pc.Body? && Enabled(job, p, Succeed)
    ensures Inv(job, fs0, AfterBody(job, p))
  {
    hide OldFilesKept, Content, IsTarget, I.Inv;
    if AfterBody(job, p).pc.SyncData? {
      DoneBodyIsTarget(job, p.work);
    }
  }

  lemma SyncKeepsInv(job: Job, fs0: Fs, p: State)
    requires Inv(job, fs0, p) && p.pc.SyncData?
    ensures Inv(job, fs0, AfterSucceed(job, p))
  {
    hide BodyOk, Content, IsTarget;
  }

  lemma RenameKeepsInv(job: Job, fs0: Fs, p: State)
    requires Inv(job, fs0, p) && p.pc.Rename? && Enabled(job, p, Succeed)
    ensures Inv(job, fs0, AfterRename(job, p))
  {
    hide BodyOk, Content, IsTarget, OldFilesKept;
    assert Current(p.fs) == With(fs0, p.temp, p.inode);
    assert (Current(p.fs) - {p.temp})[job.name := p.inode] == With(fs0, job.name, p.inode);
    assert fs0.dirs + [With(fs0, p.temp, p.inode)] + [With(fs0, job.name, p.inode)]
        == fs0.dirs + [With(fs0, p.temp, p.inode), With(fs0, job.name, p.inode)];
  }

  lemma UnlinkKeepsInv(job: Job, fs0: Fs, p: State)
    requires Inv(job, fs0, p) && p.pc.Unwind?
    ensures Inv(job, fs0, AfterSucceed(job, p))
    ensures Current(AfterSucceed(job, p).fs) == Current(fs0)
  {
    hide BodyOk, Content, IsTarget, OldFilesKept;
    assert Current(p.fs) == With(fs0, p.temp, p.inode);
    assert Current(p.fs) - {p.temp} == Current(fs0);
    assert fs0.dirs + [With(fs0, p.temp, p.inode)] + [Current(fs0)] == fs0.dirs + [With(fs0, p.temp, p.inode), Current(fs0)];
  }

  lemma OtherSuccessKeepsInv(job: Job, fs0: Fs, p: State)
    requires Inv(job, fs0, p) && Enabled(job, p, Succeed)
    requires p.pc.OpenInput? || p.pc.CheckSame? || p.pc.OpenDirectory? || p.pc.KeepName? || p.pc.SyncDirectory?
    ensures Inv(job, fs0, AfterSucceed(job, p))
  {
    hide BodyOk, Content, IsTarget, OldFilesKept;
  }

  lemma NextInv(job: Job, fs0: Fs, p: State, a: Action)
    requires Inv(job, fs0, p) && Enabled(job, p, a)
    ensures Inv(job, fs0, Next(job, p, a))
  {
    hide Inv;
    match a {
      case Fail(errno) => FailKeepsInv(job, fs0, p, errno);
      case Create(temp, inode) => CreateKeepsInv(job, fs0, p, temp, inode);
      case Execute(x) => ExecuteKeepsInv(job, fs0, p, x);
      case Append(n) => AppendKeepsInv(job, fs0, p, n);
      case Succeed =>
        match p.pc {
          case Body => BodyEndKeepsInv(job, fs0, p);
          case SyncData => SyncKeepsInv(job, fs0, p);
          case Rename => RenameKeepsInv(job, fs0, p);
          case Unwind(_) => UnlinkKeepsInv(job, fs0, p);
          case _ => OtherSuccessKeepsInv(job, fs0, p);
        }
    }
  }

  lemma {:induction false} RunInv(job: Job, fs0: Fs, p: State, run: seq<Action>)
    requires Inv(job, fs0, p) && Legal(job, p, run)
    ensures Inv(job, fs0, Exec(job, p, run))
    decreases |run|
  {
    hide Inv, Enabled, Next;
    if run != [] {
      NextInv(job, fs0, p, run[0]);
      RunInv(job, fs0, Next(job, p, run[0]), run[1..]);
    }
  }

  // ----- the theorems -----

  ghost predicate Reaches(job: Job, fs0: Fs, run: seq<Action>, p: State) {
    StartsFrom(job, fs0) && Legal(job, Init(job, fs0), run) && Exec(job, Init(job, fs0), run) == p
  }

  lemma ReachedInv(job: Job, fs0: Fs, run: seq<Action>, p: State)
    requires Reaches(job, fs0, run, p)
    ensures Inv(job, fs0, p)
  {
    hide Inv;
    InitInv(job, fs0);
    RunInv(job, fs0, Init(job, fs0), run);
  }

  /** At every moment the published name shows either what it showed at the start or the complete new
      file, to a reader and after a crash; nothing in between. */
  lemma OldOrComplete(job: Job, fs0: Fs, run: seq<Action>, p: State)
    requires Reaches(job, fs0, run, p)
    ensures WellFormed(p.fs)
    ensures Visible(p.fs, job.name) == Visible(fs0, job.name)
         || (Visible(p.fs, job.name).Some? && IsTarget(job, Visible(p.fs, job.name).value))
    ensures forall garbage, r :: CanRecover(p.fs, job.name, garbage, r) ==>
              CanRecover(fs0, job.name, garbage, r) || (r.Some? && IsTarget(job, r.value))
  {
    ReachedInv(job, fs0, run, p);
    VisibleNow(job, fs0, p);
    forall garbage, r | CanRecover(p.fs, job.name, garbage, r)
      ensures CanRecover(fs0, job.name, garbage, r) || (r.Some? && IsTarget(job, r.value))
    {
      var k: nat :| p.fs.base <= k < |p.fs.dirs| && Recovered(p.fs, k, job.name, garbage) == r;
      RecoveredFrom(job, fs0, p, k, garbage);
    }
  }

  lemma VisibleNow(job: Job, fs0: Fs, p: State)
    requires Inv(job, fs0, p)
    ensures if IsPublished(p) then Visible(p.fs, job.name) == Some(p.fs.inodes[p.inode].data)
            else Visible(p.fs, job.name) == Visible(fs0, job.name)
  {
    hide BodyOk, Content, IsTarget;
  }

  lemma RecoveredFrom(job: Job, fs0: Fs, p: State, k: nat, garbage: seq<byte>)
    requires Inv(job, fs0, p) && p.fs.base <= k < |p.fs.dirs|
    ensures var r := Recovered(p.fs, k, job.name, garbage);
            CanRecover(fs0, job.name, garbage, r) || (r.Some? && IsTarget(job, r.value))
    ensures p.pc.Returned? ==> Recovered(p.fs, k, job.name, garbage) == Some(p.fs.inodes[p.inode].data)
  {
    hide BodyOk, Content, IsTarget;
    var last := |fs0.dirs| - 1;
    if k <= last {
      assert p.fs.dirs[k] == fs0.dirs[k];
      assert !p.pc.Returned? ==> Recovered(fs0, k, job.name, garbage) == Recovered(p.fs, k, job.name, garbage);
    } else if k == last + 1 || !IsPublished(p) {
      assert !p.pc.Returned? ==> Recovered(fs0, last, job.name, garbage) == Recovered(p.fs, k, job.name, garbage);
    } else {
      assert p.fs.dirs[k] == With(fs0, job.name, p.inode);
    }
  }

  /** A normal return means that the complete new file is on disk under its name, that no temporary
      name is left, and, for the pipeline, that the result counts the whole input. */
  lemma ReturnIsDurable(job: Job, fs0: Fs, run: seq<Action>, p: State)
    requires Reaches(job, fs0, run, p) && p.pc.Returned?
    ensures WellFormed(p.fs) && Current(p.fs) == Current(fs0)[job.name := p.inode] && p.inode in p.fs.inodes
    ensures IsTarget(job, p.fs.inodes[p.inode].data)
    ensures forall garbage, r :: CanRecover(p.fs, job.name, garbage, r) ==> r == Some(p.fs.inodes[p.inode].data)
    ensures job.PipelineJob? ==>
      p.work.Running? && R.EndsAt(job.c, p.work.s.result.blocks) && p.work.s.result.bytes == |job.c.input|
  {
    hide BodyOk, Content, IsTarget, OldFilesKept;
    ReachedInv(job, fs0, run, p);
    if job.PipelineJob? {
      ReturnedCounts(job, fs0, p);
    }
    forall garbage, r | CanRecover(p.fs, job.name, garbage, r) ensures r == Some(p.fs.inodes[p.inode].data) {
      var k: nat :| p.fs.base <= k < |p.fs.dirs| && Recovered(p.fs, k, job.name, garbage) == r;
      RecoveredFrom(job, fs0, p, k, garbage);
    }
  }

  lemma ReturnedCounts(job: Job, fs0: Fs, p: State)
    requires Inv(job, fs0, p) && p.pc.Returned? && job.PipelineJob?
    ensures p.work.Running? && R.EndsAt(job.c, p.work.s.result.blocks) && p.work.s.result.bytes == |job.c.input|
  {
    hide Content, IsTarget, OldFilesKept, Directories, TempHolds;
    T.ReturnedStateIsSerial(job.c, p.work.s);
  }

  /** An exception before the rename leaves the directory as it was, with the temporary name beside
      it exactly when that file was created and its unlink, the last call of the run, failed. Only a
      failed sync of the directory comes too late: the new file is already in place then. */
  lemma ThrowKeepsOld(job: Job, fs0: Fs, run: seq<Action>, p: State)
    requires Reaches(job, fs0, run, p) && p.pc.Threw?
    ensures WellFormed(p.fs) && run != []
    ensures Untouched(p) ==> p.fs == fs0
    ensures !Untouched(p) && !p.pc.error.DirectorySyncFailed? ==>
      && (run[|run| - 1] == Succeed <==> Current(p.fs) == Current(fs0))
      && (run[|run| - 1] != Succeed <==> p.temp in Current(p.fs))
      && (p.temp in Current(p.fs) ==> p.temp != job.name && Current(p.fs) == Current(fs0)[p.temp := p.inode])
    ensures !p.pc.error.DirectorySyncFailed? ==> Visible(p.fs, job.name) == Visible(fs0, job.name)
    ensures p.pc.error.DirectorySyncFailed? ==>
      && Current(p.fs) == Current(fs0)[job.name := p.inode]
      && Visible(p.fs, job.name).Some? && IsTarget(job, Visible(p.fs, job.name).value)
  {
    hide Inv, IsTarget, IsPublished, Untouched;
    ReachedInv(job, fs0, run, p);
    VisibleNow(job, fs0, p);
    ThrownDirectory(job, fs0, p);
    var front, q := LastStep(job, fs0, run, p);
    if !Untouched(p) && !p.pc.error.DirectorySyncFailed? {
      LastStepThrows(job, fs0, front, q, run[|run| - 1]);
    }
  }

  lemma ThrownDirectory(job: Job, fs0: Fs, p: State)
    requires Inv(job, fs0, p) && p.pc.Threw?
    ensures WellFormed(p.fs)
    ensures Untouched(p) ==> p.fs == fs0 && !p.pc.error.DirectorySyncFailed?
    ensures !Untouched(p) ==> p.temp !in Current(fs0) && p.temp != job.name
    ensures IsPublished(p) <==> p.pc.error.DirectorySyncFailed?
    ensures IsPublished(p) ==>
      && Current(p.fs) == Current(fs0)[job.name := p.inode]
      && p.inode in p.fs.inodes && IsTarget(job, p.fs.inodes[p.inode].data)
  {
    hide BodyOk, Content, IsTarget, OldFilesKept;
  }

  /** The state before the last step of a run. */
  lemma LastStep(job: Job, fs0: Fs, run: seq<Action>, p: State) returns (front: seq<Action>, q: State)
    requires Reaches(job, fs0, run, p) && p.pc.Threw?
    ensures run != [] && front == run[..|run| - 1] && Reaches(job, fs0, front, q)
    ensures Enabled(job, q, run[|run| - 1]) && p == Next(job, q, run[|run| - 1])
  {
    hide StartsFrom, Enabled, Next;
    front := run[..|run| - 1];
    q := SplitRun(job, Init(job, fs0), run);
  }

  lemma {:induction false} SplitRun(job: Job, p: State, run: seq<Action>) returns (q: State)
    requires Legal(job, p, run) && run != []
    ensures Legal(job, p, run[..|run| - 1]) && q == Exec(job, p, run[..|run| - 1])
    ensures Enabled(job, q, run[|run| - 1]) && Exec(job, p, run) == Next(job, q, run[|run| - 1])
    decreases |run|
  {
    hide Enabled, Next;
    if |run| == 1 {
      q := p;
      assert run[1..] == [] && run[..0] == [];
      assert Exec(job, Next(job, p, run[0]), run[1..]) == Next(job, p, run[0]);
    } else {
      q := SplitRun(job, Next(job, p, run[0]), run[1..]);
      assert run[..|run| - 1][0] == run[0] && run[..|run| - 1][1..] == run[1..][..|run[1..]| - 1];
    }
  }

  /** An exception leaves after the temporary file was made only through the destructor's unlink, or
      from the sync of the directory. */
  lemma LastStepUnlinks(job: Job, q: State, a: Action)
    requires Enabled(job, q, a)
    requires var p := Next(job, q, a); p.pc.Threw? && !Untouched(p) && !p.pc.error.DirectorySyncFailed?
    ensures q.pc.Unwind? && (a.Succeed? || a.Fail?)
    ensures Next(job, q, a) ==
      if a.Succeed? then State(UnlinkFile(q.fs, q.temp), Threw(q.pc.error), q.temp, q.inode, q.work, q.committed)
      else q.(pc := Threw(q.pc.error))
  {
    hide BodyDone, E.Enabled, E.Next, UnlinkFile;
  }

  lemma LastStepThrows(job: Job, fs0: Fs, front: seq<Action>, q: State, a: Action)
    requires Reaches(job, fs0, front, q) && Enabled(job, q, a)
    requires var p := Next(job, q, a); p.pc.Threw? && !Untouched(p) && !p.pc.error.DirectorySyncFailed?
    ensures WellFormed(q.fs) && WellFormed(Next(job, q, a).fs)
    ensures var p := Next(job, q, a);
            && p.temp == q.temp && p.inode == q.inode && (a.Succeed? || a.Fail?)
            && Current(p.fs) == if a.Succeed? then Current(fs0) else Current(fs0)[q.temp := q.inode]
  {
    hide Inv, Enabled, Next, Legal, Exec, StartsFrom;
    ReachedInv(job, fs0, front, q);
    LastStepUnlinks(job, q, a);
    UnlinkKeepsInv(job, fs0, q);
    UnwindingDirectory(job, fs0, q);
  }

  lemma UnwindingDirectory(job: Job, fs0: Fs, q: State)
    requires Inv(job, fs0, q) && q.pc.Unwind?
    ensures WellFormed(q.fs) && Current(q.fs) == Current(fs0)[q.temp := q.inode]
  {
    hide BodyOk, Content, IsTarget, OldFilesKept;
  }

  /** The destructor removes the temporary name exactly when its unlink succeeds. */
  lemma UnwindRemovesTemp(job: Job, fs0: Fs, run: seq<Action>, p: State, errno: int)
    requires Reaches(job, fs0, run, p) && p.pc.Unwind?
    ensures Enabled(job, p, Succeed) && Enabled(job, p, Fail(errno))
    ensures Current(Next(job, p, Succeed).fs) == Current(fs0)
    ensures p.temp in Current(Next(job, p, Fail(errno)).fs) && p.temp !in Current(fs0)
  {
    hide BodyOk, Content, IsTarget, OldFilesKept;
    ReachedInv(job, fs0, run, p);
    UnlinkKeepsInv(job, fs0, p);
  }

  /** No file that existed before is written, the input least of all; and nothing is created when the
      published name refers to the input. */
  lemma InputIsPreserved(job: Job, fs0: Fs, run: seq<Action>, p: State)
    requires Reaches(job, fs0, run, p) && job.PipelineJob?
    ensures job.input in p.fs.inodes && p.fs.inodes[job.input].data == job.c.input
    ensures forall i :: i in fs0.inodes ==> i in p.fs.inodes && p.fs.inodes[i] == fs0.inodes[i]
    ensures job.name in Current(fs0) && Current(fs0)[job.name] == job.input ==> p.fs == fs0 && !p.pc.Returned?
  {
    ReachedInv(job, fs0, run, p);
    hide BodyOk, Content, IsTarget;
  }

  // ----- a run that leaves its temporary file behind -----

  /** An empty text, to be published in an empty directory. */
  function EmptyJob(): Job {
    JsonJob([], "out")
  }

  function EmptyDirectory(): Fs {
    Fs(map[], [map[]], 0)
  }

  lemma {:induction false} AddStep(job: Job, p: State, run: seq<Action>, a: Action)
    requires Legal(job, p, run) && Enabled(job, Exec(job, p, run), a)
    ensures Legal(job, p, run + [a]) && Exec(job, p, run + [a]) == Next(job, Exec(job, p, run), a)
    decreases |run|
  {
    hide Enabled, Next;
    if run == [] {
      assert [] + [a] == [a] && [a][1..] == [];
      assert Legal(job, Next(job, p, a), []);
    } else {
      AddStep(job, Next(job, p, run[0]), run[1..], a);
      assert (run + [a])[0] == run[0] && (run + [a])[1..] == run[1..] + [a];
    }
  }

  lemma Extend(job: Job, fs0: Fs, run: seq<Action>, p: State, a: Action) returns (longer: seq<Action>, n: State)
    requires Reaches(job, fs0, run, p) && Enabled(job, p, a)
    ensures Reaches(job, fs0, longer, n) && n == Next(job, p, a)
  {
    hide Enabled, Next, StartsFrom;
    AddStep(job, Init(job, fs0), run, a);
    longer, n := run + [a], Next(job, p, a);
  }

  lemma NoSteps(job: Job, fs0: Fs)
    requires StartsFrom(job, fs0)
    ensures Reaches(job, fs0, [], Init(job, fs0))
  {
  }

  /** The temporary file is there and complete. */
  lemma TempIsReady() returns (run: seq<Action>, p: State)
    ensures Reaches(EmptyJob(), EmptyDirectory(), run, p) && WellFormed(p.fs)
    ensures p.pc.SyncData? && p.temp == "tmp" && "tmp" in Current(p.fs) && p.inode in p.fs.inodes
  {
    var job, fs0 := EmptyJob(), EmptyDirectory();
    run, p := [], Init(job, fs0);
    NoSteps(job, fs0);
    hide Reaches;
    run, p := Extend(job, fs0, run, p, Succeed);
    run, p := Extend(job, fs0, run, p, Create("tmp", 0));
    run, p := Extend(job, fs0, run, p, Succeed);
    run, p := Extend(job, fs0, run, p, Succeed);
  }

  /** The sync of the temporary file fails, and so does the unlink in the destructor: the exception
      leaves, and the temporary name stays in the directory. */
  lemma TempCanStay() returns (run: seq<Action>, p: State)
    ensures Reaches(EmptyJob(), EmptyDirectory(), run, p) && WellFormed(p.fs)
    ensures p.pc == Threw(SyncFailed(EIO)) && "tmp" in Current(p.fs) && "tmp" !in Current(EmptyDirectory())
  {
    var job, fs0 := EmptyJob(), EmptyDirectory();
    run, p := TempIsReady();
    hide Reaches;
    run, p := Extend(job, fs0, run, p, Fail(EIO));
    run, p := Extend(job, fs0, run, p, Fail(EIO));
  }
}
