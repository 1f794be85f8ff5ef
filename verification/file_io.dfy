/** `read_at_with`, `write_all_at_with` and `fsync_fd_with` over an arbitrary script of system-call
    outcomes, on a file whose bytes the successful calls change. */
module FileIo {
  import opened Base
  import opened FileSpec

  /** A failing call sets errno to a positive number. */
  type Errno = e: int | e > 0 witness EIO

  const EINVAL: int := 22

  /** What one system call returns: a byte count, EINTR, or another error. */
  datatype Outcome = Transferred(n: nat) | Interrupted | Failed(errno: Errno)

  datatype WriteAtResult = WriteAtResult(written: nat, errno: int)

  datatype ReadAtResult = ReadAtResult(read: nat, errno: int)

  const OFF_MAX: nat := 0x7FFF_FFFF_FFFF_FFFF

  /** A script interrupts only finitely often: not at all from call `bound` on. */
  ghost predicate EventuallyQuiet(script: nat -> Outcome, bound: nat) {
    forall k: nat :: k >= bound ==> !Call(script, k).Interrupted?
  }

  function Call(script: nat -> Outcome, k: nat): Outcome {
    script(k)
  }

  /** What a call leaves in the file: the bytes it transferred, or no change. */
  function Landed(file: seq<byte>, offset: nat, buffer: seq<byte>, start: nat, r: Outcome): seq<byte> {
    if r.Transferred? && start + r.n <= |buffer| then Overlay(file, offset, buffer[start..start + r.n]) else file
  }

  class ScriptedFile {
    var contents: seq<byte>
    const script: nat -> Outcome
    var calls: nat

    constructor (bytes: seq<byte>, outcomes: nat -> Outcome)
      ensures contents == bytes && script == outcomes && calls == 0
    {
      contents, script, calls := bytes, outcomes, 0;
    }

    /** `pwrite` of `count` bytes from `start` on: what the script says, as far as a kernel can obey
        it. A kernel never writes more than requested and never past the largest file offset. */
    method Pwrite(buffer: seq<byte>, start: nat, count: nat, offset: nat) returns (r: Outcome)
      requires start + count <= |buffer|
      modifies this
      ensures calls == old(calls) + 1
      ensures r == PwriteOutcome(Call(script, old(calls)), count, offset)
      ensures contents == Landed(old(contents), offset, buffer, start, r)
    {
      r := PwriteOutcome(Call(script, calls), count, offset);
      calls := calls + 1;
      if r.Transferred? {
        contents := Overlay(contents, offset, buffer[start..start + r.n]);
      }
    }

    /** `pread`: the bytes at `offset`, at most as many as asked for and as there are. */
    method Pread(count: nat, offset: nat) returns (r: Outcome, data: seq<byte>)
      modifies this`calls
      ensures calls == old(calls) + 1
      ensures r == PreadOutcome(Call(script, old(calls)), count, |contents|, offset)
      ensures r.Transferred? ==> data == Slice(contents, offset, r.n)
      ensures !r.Transferred? ==> data == []
    {
      r := PreadOutcome(Call(script, calls), count, |contents|, offset);
      calls := calls + 1;
      data := if r.Transferred? then Slice(contents, offset, r.n) else [];
    }

    method Fsync() returns (r: Outcome)
      modifies this`calls
      ensures calls == old(calls) + 1 && r == Call(script, old(calls))
    {
      r := Call(script, calls);
      calls := calls + 1;
    }
  }

  function Smaller(a: nat, b: nat): nat {
    if a <= b then a else b
  }

  function PwriteOutcome(said: Outcome, count: nat, offset: nat): (r: Outcome)
    ensures r.Transferred? ==> r.n <= count && (r.n > 0 ==> offset + r.n <= OFF_MAX)
    ensures r.Interrupted? <==> said.Interrupted?
  {
    match said
    case Transferred(n) =>
      if offset > OFF_MAX then Failed(EINVAL)
      else Transferred(Smaller(n, Smaller(count, OFF_MAX - offset)))
    case _ => said
  }

  function PreadOutcome(said: Outcome, count: nat, size: nat, offset: nat): (r: Outcome)
    ensures r.Transferred? ==> r.n <= count && (r.n > 0 ==> offset + r.n <= size)
    ensures r.Interrupted? <==> said.Interrupted?
  {
    match said
    case Transferred(n) =>
      if offset >= size || count == 0 then Transferred(0)
      else if 0 < n && n <= count && offset + n <= size then said
      else Transferred(if count <= size - offset then count else size - offset)
    case _ => said
  }

  /** The inner loop: one `pwrite`, repeated while it is interrupted. */
  method PwriteRetrying(file: ScriptedFile, buffer: seq<byte>, start: nat, count: nat, offset: nat, ghost bound: nat)
    returns (r: Outcome)
    requires EventuallyQuiet(file.script, bound) && start + count <= |buffer|
    modifies file
    ensures !r.Interrupted? && file.calls > old(file.calls)
    ensures r == PwriteOutcome(Call(file.script, file.calls - 1), count, offset)
    ensures forall k: nat :: old(file.calls) <= k < file.calls - 1 ==> Call(file.script, k).Interrupted?
    ensures file.contents == Landed(old(file.contents), offset, buffer, start, r)
  {
    hide Overlay;
    r := file.Pwrite(buffer, start, count, offset);
    while r.Interrupted?
      invariant file.calls > old(file.calls)
      invariant r == PwriteOutcome(Call(file.script, file.calls - 1), count, offset)
      invariant forall k: nat :: old(file.calls) <= k < file.calls - 1 ==> Call(file.script, k).Interrupted?
      invariant file.contents == Landed(old(file.contents), offset, buffer, start, r)
      decreases bound - file.calls, r.Interrupted?
    {
      assert Call(file.script, file.calls - 1).Interrupted?;
      r := file.Pwrite(buffer, start, count, offset);
    }
  }

  /** The outcome that ends a write early, and the error it is reported as. */
  predicate Stops(last: Outcome, errno: int) {
    (last.Failed? && last.errno == errno) || (last == Transferred(0) && errno == EIO)
  }

  /** A script of writes that are at most interrupted: none fails, and none writes nothing. */
  ghost predicate Generous(script: nat -> Outcome) {
    forall k: nat :: Call(script, k).Interrupted? || (Call(script, k).Transferred? && Call(script, k).n > 0)
  }

  /** Such a script stops no write that stays below the largest file offset. */
  lemma GenerousStopsNothing(script: nat -> Outcome, k: nat, count: nat, offset: nat, errno: int)
    requires Generous(script) && count > 0 && offset + count <= OFF_MAX
    ensures !Stops(PwriteOutcome(Call(script, k), count, offset), errno)
  {
    assert Call(script, k).Interrupted? || (Call(script, k).Transferred? && Call(script, k).n > 0);
  }

  /** A further chunk extends the prefix of the buffer that is in the file. */
  lemma NextChunk(file: seq<byte>, offset: nat, buffer: seq<byte>, written: nat, r: Outcome)
    requires r.Transferred? && written + r.n <= |buffer|
    ensures Landed(Landed(file, offset, buffer, 0, Transferred(written)), offset + written, buffer, written, r)
         == Landed(file, offset, buffer, 0, Transferred(written + r.n))
  {
    hide Overlay;
    OverlayAdjacent(file, offset, buffer[..written], buffer[written..written + r.n]);
    assert buffer[0..written] == buffer[..written];
    assert buffer[..written] + buffer[written..written + r.n] == buffer[0..written + r.n];
  }

  lemma NothingLanded(file: seq<byte>, offset: nat, buffer: seq<byte>)
    ensures Landed(file, offset, buffer, 0, Transferred(0)) == file
  {
    assert buffer[0..0] == [];
  }

  /** The retry loop of every positional write in the pipeline. Success means the whole window was
      written; an error with count k means that exactly the first k bytes landed; in both cases
      nothing outside the window changed. The error is the failing call's own, or EIO for a call
      that wrote nothing. */
  method WriteAllAt(file: ScriptedFile, buffer: seq<byte>, offset: nat, ghost bound: nat)
    returns (r: WriteAtResult)
    requires EventuallyQuiet(file.script, bound) && offset <= U64_MAX
    modifies file
    ensures r.written <= |buffer| && (r.errno == 0 <==> r.written == |buffer|)
    ensures r.written > 0 ==> offset + r.written <= OFF_MAX
    ensures file.contents == Overlay(old(file.contents), offset, buffer[..r.written])
    ensures r.errno != 0 ==>
              && file.calls > old(file.calls)
              && Stops(PwriteOutcome(Call(file.script, file.calls - 1), |buffer| - r.written, offset + r.written), r.errno)
    ensures file.calls >= old(file.calls) && (buffer == [] ==> file.calls == old(file.calls))
  {
    r := WriteLoop(file, buffer, offset, bound);
    assert buffer[0..r.written] == buffer[..r.written];
  }

  method WriteLoop(file: ScriptedFile, buffer: seq<byte>, offset: nat, ghost bound: nat)
    returns (r: WriteAtResult)
    requires EventuallyQuiet(file.script, bound) && offset <= U64_MAX
    modifies file
    ensures r.written <= |buffer| && (r.errno == 0 <==> r.written == |buffer|)
    ensures r.written > 0 ==> offset + r.written <= OFF_MAX
    ensures file.contents == Landed(old(file.contents), offset, buffer, 0, Transferred(r.written))
    ensures r.errno != 0 ==>
              && file.calls > old(file.calls)
              && Stops(PwriteOutcome(Call(file.script, file.calls - 1), |buffer| - r.written, offset + r.written), r.errno)
    ensures file.calls >= old(file.calls) && (buffer == [] ==> file.calls == old(file.calls))
  {
    hide Landed, PwriteOutcome, Call, EventuallyQuiet;
    var written := 0;
    NothingLanded(file.contents, offset, buffer);
    while written < |buffer|
      invariant written <= |buffer|
      invariant written > 0 ==> offset + written <= OFF_MAX
      invariant buffer == [] ==> file.calls == old(file.calls)
      invariant file.calls >= old(file.calls)
      invariant file.contents == Landed(old(file.contents), offset, buffer, 0, Transferred(written))
    {
      var current := (offset + written) % (U64_MAX + 1);
      var result := PwriteRetrying(file, buffer, written, |buffer| - written, current, bound);
      if result.Failed? {
        NotTransferred(old(file.contents), offset, buffer, written, result);
        return WriteAtResult(written, result.errno);
      }
      NextChunk(old(file.contents), offset, buffer, written, result);
      if result.n == 0 {
        return WriteAtResult(written, EIO);
      }
      written := written + result.n;
    }
    return WriteAtResult(written, 0);
  }

  lemma NotTransferred(file: seq<byte>, offset: nat, buffer: seq<byte>, written: nat, r: Outcome)
    requires !r.Transferred?
    ensures Landed(Landed(file, offset, buffer, 0, Transferred(written)), offset + written, buffer, written, r)
         == Landed(file, offset, buffer, 0, Transferred(written))
  {
  }

  /** One `pread`, repeated while it is interrupted; short reads are passed on. */
  method ReadAt(file: ScriptedFile, count: nat, offset: nat, ghost bound: nat)
    returns (r: ReadAtResult, data: seq<byte>)
    requires EventuallyQuiet(file.script, bound)
    modifies file`calls
    ensures |data| == r.read <= count && r.errno >= 0 && (r.errno != 0 ==> r.read == 0)
    ensures r.errno == 0 && r.read > 0 ==>
              offset + r.read <= |file.contents| && data == Slice(file.contents, offset, r.read)
    ensures r.errno == 0 && count > 0 ==> (r.read == 0 <==> offset >= |file.contents|)
    ensures file.calls > old(file.calls)
    ensures r.errno != 0 ==> Call(file.script, file.calls - 1) == Outcome.Failed(r.errno)
    ensures forall k: nat :: old(file.calls) <= k < file.calls - 1 ==> Call(file.script, k).Interrupted?
  {
    var result, bytes := file.Pread(count, offset);
    while result.Interrupted?
      invariant file.calls > old(file.calls)
      invariant result == PreadOutcome(Call(file.script, file.calls - 1), count, |file.contents|, offset)
      invariant bytes == if result.Transferred? then Slice(file.contents, offset, result.n) else []
      invariant forall k: nat :: old(file.calls) <= k < file.calls - 1 ==> Call(file.script, k).Interrupted?
      decreases bound - file.calls, result.Interrupted?
    {
      assert Call(file.script, file.calls - 1).Interrupted?;
      result, bytes := file.Pread(count, offset);
    }
    match result {
      case Failed(e) => return ReadAtResult(0, e), [];
      case Transferred(n) =>
        return ReadAtResult(n, 0), bytes;
    }
  }

  /** `fsync`, repeated while it is interrupted, reports the first other outcome. */
  method FsyncFd(file: ScriptedFile, ghost bound: nat) returns (errno: int)
    requires EventuallyQuiet(file.script, bound)
    modifies file`calls
    ensures file.calls > old(file.calls)
    ensures errno == match Call(file.script, file.calls - 1) case Failed(e) => e case _ => 0
    ensures !Call(file.script, file.calls - 1).Interrupted?
    ensures forall k: nat :: old(file.calls) <= k < file.calls - 1 ==> Call(file.script, k).Interrupted?
  {
    var result := file.Fsync();
    while result.Interrupted?
      invariant file.calls > old(file.calls) && result == Call(file.script, file.calls - 1)
      invariant forall k: nat :: old(file.calls) <= k < file.calls - 1 ==> Call(file.script, k).Interrupted?
      decreases bound - file.calls, result.Interrupted?
    {
      assert Call(file.script, file.calls - 1).Interrupted?;
      result := file.Fsync();
    }
    errno := if result.Failed? then result.errno else 0;
  }
}
