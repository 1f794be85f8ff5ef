/** A directory and its files, with what a crash can leave of them. */
module FileSystem {
  import opened Base

  /** Bytes that have not been synced since they were written may come back as anything. */
  datatype Inode = Inode(data: seq<byte>, synced: bool)

  type Dir = map<string, nat>

  /** Every change of the directory since it was last synced may or may not have reached the disk:
      `dirs` lists the directory after each change and `base` is the last one known to be there. */
  datatype Fs = Fs(inodes: map<nat, Inode>, dirs: seq<Dir>, base: nat)

  predicate WellFormed(fs: Fs) {
    && fs.base < |fs.dirs|
    && forall k, name :: 0 <= k < |fs.dirs| && name in fs.dirs[k] ==> fs.dirs[k][name] in fs.inodes
  }

  function Current(fs: Fs): Dir
    requires WellFormed(fs)
  {
    fs.dirs[|fs.dirs| - 1]
  }

  /** What a reader finds under a name, the machine being up. */
  function Visible(fs: Fs, name: string): Option<seq<byte>>
    requires WellFormed(fs)
  {
    if name in Current(fs) then Some(fs.inodes[Current(fs)[name]].data) else None
  }

  /** What may be found under a name after a crash: the name as of some directory that the disk may
      hold, and behind it the synced bytes or garbage. */
  function Recovered(fs: Fs, k: nat, name: string, garbage: seq<byte>): Option<seq<byte>>
    requires WellFormed(fs) && k < |fs.dirs|
  {
    if name !in fs.dirs[k] then None
    else
      var inode := fs.inodes[fs.dirs[k][name]];
      Some(if inode.synced then inode.data else garbage)
  }

  ghost predicate CanRecover(fs: Fs, name: string, garbage: seq<byte>, r: Option<seq<byte>>)
    requires WellFormed(fs)
  {
    exists k: nat :: fs.base <= k < |fs.dirs| && Recovered(fs, k, name, garbage) == r
  }

  // ----- system calls that succeed -----

  function CreateFile(fs: Fs, name: string, inode: nat): (r: Fs)
    requires WellFormed(fs) && inode !in fs.inodes
    ensures WellFormed(r)
  {
    Fs(fs.inodes[inode := Inode([], false)], fs.dirs + [Current(fs)[name := inode]], fs.base)
  }

  function Store(fs: Fs, inode: nat, data: seq<byte>): (r: Fs)
    requires WellFormed(fs) && inode in fs.inodes
    ensures WellFormed(r)
  {
    if fs.inodes[inode].data == data then fs else fs.(inodes := fs.inodes[inode := Inode(data, false)])
  }

  function SyncFile(fs: Fs, inode: nat): (r: Fs)
    requires WellFormed(fs) && inode in fs.inodes
    ensures WellFormed(r)
  {
    fs.(inodes := fs.inodes[inode := fs.inodes[inode].(synced := true)])
  }

  /** One atomic change of the directory: the new name takes over whatever it named before. */
  function RenameFile(fs: Fs, from: string, to: string): (r: Fs)
    requires WellFormed(fs) && from in Current(fs)
    ensures WellFormed(r)
  {
    fs.(dirs := fs.dirs + [(Current(fs) - {from})[to := Current(fs)[from]]])
  }

  function UnlinkFile(fs: Fs, name: string): (r: Fs)
    requires WellFormed(fs)
    ensures WellFormed(r)
  {
    fs.(dirs := fs.dirs + [Current(fs) - {name}])
  }

  function SyncDir(fs: Fs): (r: Fs)
    requires WellFormed(fs)
    ensures WellFormed(r)
  {
    fs.(base := |fs.dirs| - 1)
  }
}
