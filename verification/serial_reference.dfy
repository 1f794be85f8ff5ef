/** The sequential program the concurrent executor must refine: one buffer, one loop that reads,
    processes and writes a block at a time. */
module SerialReference {
  import opened Base
  import opened Executor
  import opened ExecutorTheorems
  import opened FileSpec
  import opened RunSpec
  import opened Stages
  import F = FileIo
  import P = Pipelines

  /** Why the reference stopped early on block k, and what it had written by then. A write error is the
      one that the last call of the script came to, on the rest of the block. */
  ghost predicate StoppedBy(c: Config, k: nat, f: Failure, written: seq<byte>, script: nat -> F.Outcome, calls: nat)
    requires |c.stages| == |c.memory0|
  {
    match f
    case ReadFailed(e) => ReadAt(c, k) == ReadThrew(e) && written == SerialOutput(c, k)
    case StageFailed(code) =>
      HasData(c, k) && Processed(c, k).thrown == Some(code) && written == SerialOutput(c, k)
    case WriteFailed(e) =>
      HasData(c, k) && Unthrown(c, k) && exists n: nat :: WriteStopped(c, k, n, e, written, script, calls)
    case _ => false
  }

  /** The last call wrote nothing of block k from byte n on, and reported this error. */
  predicate WriteStopped(c: Config, k: nat, n: nat, errno: int, written: seq<byte>, script: nat -> F.Outcome, calls: nat)
    requires |c.stages| == |c.memory0|
  {
    && errno != 0 && calls > 0 && n < |Transformed(c, k)| && written == SerialOutput(c, k) + Transformed(c, k)[..n]
    && F.Stops(F.PwriteOutcome(F.Call(script, calls - 1), |Transformed(c, k)| - n, Off(c, k) + n), errno)
  }

  /** Reads block k into the reused buffer. */
  method FillBlock(c: Config, k: nat, block: array<byte>)
    requires Accepted(c) && ReadAt(c, k).Got? && block.Length == c.blockSize
    modifies block
    ensures Len(c, k) <= block.Length && block[..Len(c, k)] == Raw(c, k)
  {
    assert ReadOk(c, k);
    var data := Raw(c, k);
    forall j | 0 <= j < |data| {
      block[j] := data[j];
    }
  }

  /** One round of the loop up to the counters: block k is processed and written whole, or the
      reference stops there. A block that was written lies below the largest file offset. */
  method RunBlock(c: Config, k: nat, n: nat, pipeline: P.Pipeline, block: array<byte>, out: F.ScriptedFile,
      ghost bound: nat)
    returns (stopped: Option<Failure>)
    requires Accepted(c) && ReadAt(c, k) == Got(n) && n > 0 && Delivered(c, k) && Off(c, k) <= F.OFF_MAX
    requires block.Length == c.blockSize && F.EventuallyQuiet(out.script, bound)
    requires pipeline.stages == c.stages && pipeline.memory == MemoryAt(c, k)
    requires out.contents == SerialOutput(c, k)
    modifies block, out, pipeline`memory
    ensures stopped.Some? ==> StoppedBy(c, k, stopped.value, out.contents, out.script, out.calls)
    ensures stopped.Some? && stopped.value.WriteFailed? ==> out.calls > old(out.calls)
    ensures out.calls >= old(out.calls)
    ensures stopped.None? ==>
      Unthrown(c, k) && pipeline.memory == MemoryAt(c, k + 1) && out.contents == SerialOutput(c, k + 1)
      && Off(c, k + 1) <= F.OFF_MAX
  {
    hide KeepsLength, Overlay, ProcessAll, SerialOutput, F.EventuallyQuiet, F.PwriteOutcome, F.Stops;
    FillBlock(c, k, block);
    var thrown := pipeline.Process(block, n);
    if thrown.Some? {
      return Some(StageFailed(thrown.value));
    }
    RawLength(c, k);
    SerialOutputLength(c, k);
    var written := F.WriteAllAt(out, block[..n], Off(c, k), bound);
    OverlayAtEnd(SerialOutput(c, k), Transformed(c, k)[..written.written]);
    if written.errno != 0 {
      assert block[..n] == Transformed(c, k);
      assert WriteStopped(c, k, written.written, written.errno, out.contents, out.script, out.calls);
      return Some(WriteFailed(written.errno));
    }
    assert block[..n][..n] == block[..n];
    SerialOutputStep(c, k);
    return None;
  }

  lemma SerialOutputStep(c: Config, k: nat)
    requires |c.stages| == |c.memory0|
    ensures SerialOutput(c, k + 1) == SerialOutput(c, k) + Transformed(c, k)
  {
  }

  /** The reference either reaches a clean end of the schedule, with the output, the counters and the
      stage memory that the specification gives, or stops at the first block whose read, stage or write
      fails. Its three overflow checks never fire. */
  method RunSerial(c: Config, pipeline: P.Pipeline, out: F.ScriptedFile, ghost bound: nat)
    returns (r: Result<RunResult, Failure>, ghost k: nat)
    requires Accepted(c) && F.EventuallyQuiet(out.script, bound) && out.contents == []
    requires pipeline.stages == c.stages && pipeline.memory == c.memory0
    modifies out, pipeline`memory
    ensures Delivered(c, k) && Clean(c, k)
    ensures r.Ok? ==> EndsAt(c, k) && r.value == RunResult(k, |c.input|)
    ensures r.Ok? ==> out.contents == SerialOutput(c, k) && pipeline.memory == MemoryAt(c, k)
    ensures r.Err? ==> StoppedBy(c, k, r.error, out.contents, out.script, out.calls)
    ensures r.Err? && r.error.WriteFailed? ==> out.calls > old(out.calls)
    ensures (exists n: nat :: EndsAt(c, n)) && |c.input| <= F.OFF_MAX && F.Generous(out.script) ==> r.Ok?
  {
    hide KeepsLength, ProcessAll, F.EventuallyQuiet, F.Generous, StoppedBy;
    var block := new byte[c.blockSize];
    var blocks, bytes, fileOffset := 0, 0, 0;
    k := 0;
    while true
      invariant k == blocks && bytes == fileOffset == Off(c, k) <= F.OFF_MAX
      invariant fresh(block) && block.Length == c.blockSize
      invariant Delivered(c, k) && Clean(c, k)
      invariant pipeline.stages == c.stages && pipeline.memory == MemoryAt(c, k)
      invariant out.contents == SerialOutput(c, k) && out.calls >= old(out.calls)
      decreases |c.input| - fileOffset
    {
      OffsetBounds(c, k);
      assert ReadOk(c, k);
      match ReadAt(c, blocks) {
        case ReadThrew(e) =>
          ReadStops(c, k, out.contents, out.script, out.calls);
          StopNeedsCause(c, k, ReadFailed(e), out.contents, out.script, out.calls);
          return Err(ReadFailed(e)), k;
        case Got(n) =>
          if n == 0 {
            return Ok(RunResult(blocks, bytes)), k;
          }
          var stopped := RunBlock(c, blocks, n, pipeline, block, out, bound);
          if stopped.Some? {
            StopNeedsCause(c, k, stopped.value, out.contents, out.script, out.calls);
            return Err(stopped.value), k;
          }
          if bytes + n > U64_MAX {
            return Err(ByteCountOverflow), k;
          }
          bytes := bytes + n;
          if blocks == U64_MAX {
            return Err(BlockCountOverflow), k;
          }
          blocks := blocks + 1;
          if fileOffset + n > U64_MAX {
            return Err(OffsetOverflow), k;
          }
          fileOffset := fileOffset + n;
          k := k + 1;
      }
    }
  }

  /** Where a clean end exists, only a write can stop the reference, and no generous script does. */
  lemma StopNeedsCause(c: Config, k: nat, f: Failure, written: seq<byte>, script: nat -> F.Outcome, calls: nat)
    requires Accepted(c) && Delivered(c, k) && StoppedBy(c, k, f, written, script, calls)
    ensures (exists n: nat :: EndsAt(c, n)) ==> f.WriteFailed?
    ensures f.WriteFailed? && F.Generous(script) ==> |c.input| > F.OFF_MAX
  {
    if end: nat :| EndsAt(c, end) {
      assert end < k ==> HasData(c, end);
      assert k < end ==> HasData(c, k) && Unthrown(c, k);
    }
    if f.WriteFailed? && F.Generous(script) {
      var n: nat :| WriteStopped(c, k, n, f.errno, written, script, calls);
      GenerousStopNeedsLongFile(c, k, n, f.errno, written, script, calls);
    }
  }

  lemma GenerousStopNeedsLongFile(c: Config, k: nat, n: nat, errno: int, written: seq<byte>,
      script: nat -> F.Outcome, calls: nat)
    requires Accepted(c) && Delivered(c, k) && HasData(c, k) && F.Generous(script)
    requires WriteStopped(c, k, n, errno, written, script, calls)
    ensures |c.input| > F.OFF_MAX
  {
    hide F.Generous;
    BlockFits(c, k);
    if |c.input| <= F.OFF_MAX {
      F.GenerousStopsNothing(script, calls - 1, |Transformed(c, k)| - n, Off(c, k) + n, errno);
    }
  }

  lemma ReadStops(c: Config, k: nat, written: seq<byte>, script: nat -> F.Outcome, calls: nat)
    requires |c.stages| == |c.memory0| && ReadAt(c, k).ReadThrew? && written == SerialOutput(c, k)
    ensures StoppedBy(c, k, ReadFailed(ReadAt(c, k).errno), written, script, calls)
  {
  }

  lemma BlockFits(c: Config, k: nat)
    requires Accepted(c) && Delivered(c, k) && HasData(c, k)
    ensures Off(c, k) + |Transformed(c, k)| <= |c.input|
  {
    RawLength(c, k);
    OffsetBounds(c, k + 1);
  }

  /** The executor and the reference, run on the same input, reads and stages: when both succeed
      they agree in the output file, the counters and the memory of every stage. */
  method ReferenceAgrees(c: Config, pipeline: P.Pipeline, out: F.ScriptedFile, ghost bound: nat,
      ghost run: seq<Action>, ghost s: State)
    returns (r: Result<RunResult, Failure>)
    requires Reaches(c, run, s) && s.main.Returned?
    requires F.EventuallyQuiet(out.script, bound) && out.contents == []
    requires pipeline.stages == c.stages && pipeline.memory == c.memory0
    modifies out, pipeline`memory
    ensures r.Ok? ==> r.value == s.result && out.contents == s.output && pipeline.memory == s.stageMemory
    ensures r.Err? ==> r.error.WriteFailed? && out.calls > old(out.calls)
    ensures |c.input| <= F.OFF_MAX && F.Generous(out.script) ==> r.Ok?
  {
    ghost var k;
    r, k := RunSerial(c, pipeline, out, bound);
    ReturnedRunIsSerial(c, run, s);
    if r.Ok? {
      EndIsUnique(c, k, s.result.blocks);
    } else {
      StopNeedsCause(c, k, r.error, out.contents, out.script, out.calls);
    }
  }
}
