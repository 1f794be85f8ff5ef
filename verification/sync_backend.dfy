/** The two places that call `read_at` on a caller's buffer: the synchronous backend, and a worker of
    the thread pool between the sections that its mutex protects. */
module SyncBackends {
  import opened Base
  import opened ThreadPool
  import F = FileIo

  /** `read_at` into an array: the bytes read in front, the rest untouched. */
  method ReadIntoBuffer(file: F.ScriptedFile, buffer: array<byte>, offset: nat, ghost bound: nat)
    returns (r: F.ReadAtResult)
    requires F.EventuallyQuiet(file.script, bound)
    modifies buffer, file`calls
    ensures Readable(file.contents, Asked(buffer.Length, offset, 0), r)
    ensures buffer[..] == ReadInto(old(buffer[..]), file.contents, offset, r)
  {
    var data;
    r, data := F.ReadAt(file, buffer.Length, offset, bound);
    forall i | 0 <= i < |data| {
      buffer[i] := data[i];
    }
    assert buffer[..] == data + old(buffer[..])[|data|..];
  }

  /** `SyncBackend::read_at`: the caller gets exactly the report of the read that was performed. */
  method ReadAt(file: F.ScriptedFile, buffer: array<byte>, offset: nat, ghost bound: nat)
    returns (result: Result<nat, int>, ghost r: F.ReadAtResult)
    requires F.EventuallyQuiet(file.script, bound)
    modifies buffer, file`calls
    ensures Readable(file.contents, Asked(buffer.Length, offset, 0), r)
    ensures Report(result, buffer[..])
         == SyncReport(file.contents, old(buffer[..]), Asked(buffer.Length, offset, 0), r)
  {
    var read := ReadIntoBuffer(file, buffer, offset, bound);
    r := read;
    if read.errno != 0 {
      return Err(read.errno), r;
    }
    return Ok(read.read), r;
  }

  /** A worker's read: the same bytes in the buffer, and the outcome as the integer it stores. */
  method WorkerReadAt(file: F.ScriptedFile, buffer: array<byte>, offset: nat, ghost bound: nat)
    returns (value: int, ghost r: F.ReadAtResult)
    requires F.EventuallyQuiet(file.script, bound)
    modifies buffer, file`calls
    ensures Readable(file.contents, Asked(buffer.Length, offset, 0), r) && value == Encode(r)
    ensures buffer[..] == ReadInto(old(buffer[..]), file.contents, offset, r)
  {
    var read := ReadIntoBuffer(file, buffer, offset, bound);
    r := read;
    value := if read.errno != 0 then -read.errno else WrapInt(read.read);
  }
}
