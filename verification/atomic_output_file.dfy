/** `AtomicOutputFile` as an object: `commit` and the destructor over the file system, each system call
    being one step of the publication's transition system. */
module AtomicOutputFiles {
  import opened FileSystem
  import opened Publication

  datatype CommitOutcome = Committed | AlreadyCommitted | CommitThrew(error: PubError)

  /** The three steps of a commit whose first `done` system calls succeed. */
  function Committing(job: Job, p: State, done: nat): State
    requires WellFormed(p.fs) && p.pc.SyncData? && p.inode in p.fs.inodes && p.temp in Current(p.fs)
  {
    var synced := AfterSucceed(job, p);
    if done == 0 then p
    else if done == 1 then synced
    else if done == 2 then AfterSucceed(job, synced)
    else AfterSucceed(job, AfterSucceed(job, synced))
  }

  class AtomicOutputFile {
    var fs: Fs
    const finalName: string
    const temporaryName: string
    const inode: nat
    var committed: bool

    /** The object and the file system are those of state `p` of the publication of `job`. */
    predicate Shows(job: Job, p: State)
      reads this
    {
      fs == p.fs && finalName == job.name && temporaryName == p.temp && inode == p.inode && committed == p.committed
    }

    /** The temporary file has been created. */
    constructor (job: Job, p: State)
      requires p.pc.KeepName?
      ensures Shows(job, p)
    {
      fs, finalName, temporaryName, inode, committed := p.fs, job.name, p.temp, p.inode, p.committed;
    }

    /** The arguments are what the system calls report: 0 for success, an errno otherwise. The first
        call that fails ends the commit, and what it leaves is what that many steps leave. */
    method Commit(job: Job, ghost p: State, syncError: int, renameError: int, directoryError: int)
      returns (r: CommitOutcome)
      requires Shows(job, p) && WellFormed(p.fs) && inode in fs.inodes && temporaryName in Current(fs)
      requires p.pc.SyncData?
      modifies this
      ensures r.AlreadyCommitted? <==> p.committed
      ensures r.AlreadyCommitted? ==> Shows(job, p)
      ensures r == CommitThrew(SyncFailed(syncError)) ==> Shows(job, AfterFail(Committing(job, p, 0), syncError))
      ensures r == CommitThrew(RenameFailed(renameError)) ==> Shows(job, AfterFail(Committing(job, p, 1), renameError))
      ensures r == CommitThrew(DirectorySyncFailed(directoryError)) ==>
        Shows(job, AfterFail(Committing(job, p, 2), directoryError))
      ensures r.Committed? ==> Shows(job, Committing(job, p, 3)) && Committing(job, p, 3).pc.Returned?
      ensures p.committed || r ==
        if syncError != 0 then CommitThrew(SyncFailed(syncError))
        else if renameError != 0 then CommitThrew(RenameFailed(renameError))
        else if directoryError != 0 then CommitThrew(DirectorySyncFailed(directoryError))
        else Committed
    {
      if committed {
        return AlreadyCommitted;
      }
      if syncError != 0 {
        return CommitThrew(SyncFailed(syncError));
      }
      fs := SyncFile(fs, inode);
      if renameError != 0 {
        return CommitThrew(RenameFailed(renameError));
      }
      fs := RenameFile(fs, temporaryName, finalName);
      committed := true;
      if directoryError != 0 {
        return CommitThrew(DirectorySyncFailed(directoryError));
      }
      fs := SyncDir(fs);
      return Committed;
    }

    /** The destructor: an output that was never renamed into place takes its temporary name away,
        and ignores an unlink that fails. */
    method Destroy(job: Job, ghost p: State, unlinkError: int)
      requires Shows(job, p) && WellFormed(p.fs) && temporaryName != ""
      requires p.committed <==> !p.pc.Unwind?
      modifies this
      ensures p.committed ==> Shows(job, p)
      ensures !p.committed ==> Shows(job, if unlinkError == 0 then AfterSucceed(job, p) else AfterFail(p, unlinkError))
    {
      if !committed && temporaryName != "" {
        if unlinkError == 0 {
          fs := UnlinkFile(fs, temporaryName);
        }
      }
    }
  }
}
