/** Publication of a file through a temporary: `run_file` with `AtomicOutputFile`, whose temporary is
    written by a run of the executor, and `AtomicJsonFile::publish`, whose temporary is written by a
    loop over one text. Every step may fail where its system call may, and the machine may crash after
    any step. */
module Publication {
  import opened Base
  import opened FileSystem
  import E = Executor
  import R = RunSpec

  /** What is published, under which name. `input` is the inode that the pipeline reads. */
  datatype Job =
    | PipelineJob(c: R.Config, input: nat, name: string)
    | JsonJob(text: seq<byte>, name: string)

  /** How far the body of the temporary file has got. */
  datatype Work = Running(s: E.State) | Writing(written: nat)

  datatype PubError =
    | OpenInputFailed(errno: int) | StatFailed(errno: int) | SameFile
    | OpenDirectoryFailed(errno: int) | CreateFailed(errno: int) | OutOfMemory
    | BodyFailed(failure: Failure)
    | SyncFailed(errno: int) | RenameFailed(errno: int) | DirectorySyncFailed(errno: int)

  datatype Pc =
    | OpenInput | CheckSame | OpenDirectory | CreateTemp | KeepName
    | Body | SyncData | Rename | SyncDirectory
    | Unwind(error: PubError) | Threw(error: PubError) | Returned

  datatype State = State(fs: Fs, pc: Pc, temp: string, inode: nat, work: Work, committed: bool)

  /** A system call succeeds or fails; `Create` succeeds with a name and an inode that are new;
      `Execute` is a step of the executor; `Append` is one successful `write` of the text. */
  datatype Action =
    | Succeed
    | Fail(errno: int)
    | Create(temp: string, inode: nat)
    | Execute(a: E.Action)
    | Append(n: nat)

  ghost predicate StartsFrom(job: Job, fs: Fs) {
    && WellFormed(fs)
    && (job.PipelineJob? ==>
          R.Accepted(job.c) && job.input in fs.inodes && fs.inodes[job.input].data == job.c.input)
  }

  function Init(job: Job, fs: Fs): State {
    State(fs, if job.PipelineJob? then OpenInput else OpenDirectory, "", 0,
          if job.PipelineJob? then Running(E.Init(job.c)) else Writing(0), false)
  }

  /** The bytes that the body has put into the temporary file so far. */
  function Content(job: Job, work: Work): seq<byte> {
    match work
    case Running(s) => s.output
    case Writing(n) => if job.JsonJob? && n <= |job.text| then job.text[..n] else []
  }

  /** The complete file: the output of the serial reference, or the text. */
  ghost predicate IsTarget(job: Job, bytes: seq<byte>) {
    match job
    case PipelineJob(c, _, _) =>
      |c.stages| == |c.memory0| && exists n: nat :: R.EndsAt(c, n) && bytes == R.SerialOutput(c, n)
    case JsonJob(text, _) => bytes == text
  }

  function AfterCheckSame(job: Job, p: State): State
    requires WellFormed(p.fs) && job.PipelineJob?
  {
    if job.name in Current(p.fs) && Current(p.fs)[job.name] == job.input then p.(pc := Threw(SameFile))
    else p.(pc := OpenDirectory)
  }

  function AfterExecute(job: Job, p: State, a: E.Action): State
    requires WellFormed(p.fs) && p.inode in p.fs.inodes
    requires job.PipelineJob? && p.work.Running? && E.Enabled(job.c, p.work.s, a)
  {
    var next := E.Next(job.c, p.work.s, a);
    p.(work := Running(next), fs := Store(p.fs, p.inode, next.output))
  }

  /** The body is over: `run` has returned or thrown, or the loop over the text has ended. */
  predicate BodyDone(job: Job, work: Work) {
    match work
    case Running(s) => E.Terminal(s)
    case Writing(n) => job.JsonJob? && n == |job.text|
  }

  function AfterBody(job: Job, p: State): State {
    if p.work.Running? && p.work.s.main.Threw? then p.(pc := Unwind(BodyFailed(p.work.s.main.failure)))
    else p.(pc := SyncData)
  }

  function AfterAppend(job: Job, p: State, n: nat): State
    requires WellFormed(p.fs) && p.inode in p.fs.inodes
    requires job.JsonJob? && p.work.Writing? && p.work.written + n <= |job.text|
  {
    if n == 0 then p.(pc := Unwind(BodyFailed(WriteFailed(EIO))))
    else
      p.(work := Writing(p.work.written + n), fs := Store(p.fs, p.inode, job.text[..p.work.written + n]))
  }

  function AfterRename(job: Job, p: State): State
    requires WellFormed(p.fs) && p.temp in Current(p.fs)
  {
    p.(fs := RenameFile(p.fs, p.temp, job.name), committed := true, pc := SyncDirectory)
  }

  /** Where an exception leaves from: after the temporary file exists and before the rename, the
      destructor comes first. */
  function AfterFail(p: State, errno: int): State {
    match p.pc
    case OpenInput => p.(pc := Threw(OpenInputFailed(errno)))
    case CheckSame => p.(pc := Threw(StatFailed(errno)))
    case OpenDirectory => p.(pc := Threw(OpenDirectoryFailed(errno)))
    case CreateTemp => p.(pc := Threw(CreateFailed(errno)))
    case KeepName => p.(pc := Unwind(OutOfMemory))
    case Body => p.(pc := Unwind(BodyFailed(WriteFailed(errno))))
    case SyncData => p.(pc := Unwind(SyncFailed(errno)))
    case Rename => p.(pc := Unwind(RenameFailed(errno)))
    case SyncDirectory => p.(pc := Threw(DirectorySyncFailed(errno)))
    case Unwind(e) => p.(pc := Threw(e))
    case _ => p
  }

  function AfterSucceed(job: Job, p: State): State
    requires WellFormed(p.fs) && (p.pc.CheckSame? ==> job.PipelineJob?)
    requires p.pc.SyncData? ==> p.inode in p.fs.inodes
    requires p.pc.Rename? ==> p.temp in Current(p.fs)
  {
    match p.pc
    case OpenInput => p.(pc := CheckSame)
    case CheckSame => AfterCheckSame(job, p)
    case OpenDirectory => p.(pc := CreateTemp)
    case KeepName => p.(pc := Body)
    case Body => AfterBody(job, p)
    case SyncData => p.(fs := SyncFile(p.fs, p.inode), pc := Rename)
    case Rename => AfterRename(job, p)
    case SyncDirectory => p.(fs := SyncDir(p.fs), pc := Returned)
    case Unwind(e) => p.(fs := UnlinkFile(p.fs, p.temp), pc := Threw(e))
    case _ => p
  }

  predicate Enabled(job: Job, p: State, a: Action) {
    WellFormed(p.fs) &&
    match a
    case Succeed =>
      && !p.pc.CreateTemp? && !p.pc.Returned? && !p.pc.Threw? && (p.pc.CheckSame? ==> job.PipelineJob?)
      && (p.pc.SyncData? ==> p.inode in p.fs.inodes) && (p.pc.Rename? ==> p.temp in Current(p.fs))
      && (p.pc.Body? ==> BodyDone(job, p.work))
    case Fail(_) => !p.pc.Returned? && !p.pc.Threw? && (p.pc.Body? ==> job.JsonJob?)
    case Create(temp, inode) =>
      p.pc.CreateTemp? && temp != job.name && temp !in Current(p.fs) && inode !in p.fs.inodes
    case Execute(x) =>
      && p.pc.Body? && job.PipelineJob? && p.work.Running? && p.inode in p.fs.inodes
      && E.Enabled(job.c, p.work.s, x)
    case Append(n) =>
      && p.pc.Body? && job.JsonJob? && p.work.Writing? && p.inode in p.fs.inodes
      && p.work.written < |job.text| && p.work.written + n <= |job.text|
  }

  function Next(job: Job, p: State, a: Action): State
    requires Enabled(job, p, a)
  {
    match a
    case Succeed => AfterSucceed(job, p)
    case Fail(errno) => AfterFail(p, errno)
    case Create(temp, inode) => p.(fs := CreateFile(p.fs, temp, inode), temp := temp, inode := inode, pc := KeepName)
    case Execute(x) => AfterExecute(job, p, x)
    case Append(n) => AfterAppend(job, p, n)
  }

  predicate Legal(job: Job, p: State, run: seq<Action>)
    decreases |run|
  {
    run == [] || (Enabled(job, p, run[0]) && Legal(job, Next(job, p, run[0]), run[1..]))
  }

  function Exec(job: Job, p: State, run: seq<Action>): State
    requires Legal(job, p, run)
    decreases |run|
  {
    if run == [] then p else Exec(job, Next(job, p, run[0]), run[1..])
  }
}
