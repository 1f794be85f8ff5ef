/** Vocabulary shared by every module: optional values, bytes, machine limits and the
    exceptions that can cross a thread boundary. */
module Base {

  datatype Option<+T> = None | Some(value: T)

  datatype Result<+T, +E> = Ok(value: T) | Err(error: E)

  type byte = b: int | 0 <= b < 256

  const U64_MAX: nat := 0xFFFF_FFFF_FFFF_FFFF
  const I64_MAX: int := 0x7FFF_FFFF_FFFF_FFFF
  const I64_MIN: int := -0x8000_0000_0000_0000
  const INT_MAX: nat := 0x7FFF_FFFF

  const EIO: int := 5
  const EAGAIN: int := 11
  const ECANCELED: int := 125

  /** The `n` bytes from `offset` on, where there are that many. */
  function Slice(bytes: seq<byte>, offset: nat, n: nat): (r: seq<byte>)
    ensures offset + n <= |bytes| ==> |r| == n
  {
    if offset + n <= |bytes| then bytes[offset..offset + n] else []
  }

  /** What an `exception_ptr` of a pipeline run can hold. */
  datatype Failure =
    | ReadFailed(errno: int)
    | StageFailed(code: int)
    | WriteFailed(errno: int)
    | SpawnFailed(errno: int)
    | OffsetOverflow
    | BlockIndexOverflow
    | ByteCountOverflow
    | BlockCountOverflow
    | ReadQueueClosed
    | WriteQueueClosed

  /** The exceptions that start a failure. The others are guards in the worker loops that the
      executor proofs show to be dead code. */
  predicate Primary(f: Failure) {
    f.ReadFailed? || f.StageFailed? || f.WriteFailed? || f.SpawnFailed? || f.OffsetOverflow?
  }
}
