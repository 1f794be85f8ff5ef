/** A run of the executor with the built-in stages: what the caller finds in the file and in the
    checksum stage, stated on the whole input and not on its blocks. */
module BuiltinRuns {
  import opened Base
  import opened BuiltinStages
  import opened Executor
  import opened ExecutorTheorems
  import opened RunSpec
  import opened Stages

  function IncrementStage(): Stage {
    (memory, bytes) => StageOutcome(memory, Incremented(bytes), None)
  }

  function ChecksumAsStage(): Stage {
    (memory, bytes) => StageOutcome(Checksum(bytes), bytes, None)
  }

  ghost predicate IncrementsThenSums(c: Config) {
    c.stages == [IncrementStage(), ChecksumAsStage()] && |c.memory0| == 2
  }

  lemma BothStages(memory: seq<int>, bytes: seq<byte>)
    requires |memory| == 2
    ensures ProcessAll([IncrementStage(), ChecksumAsStage()], memory, bytes)
         == BlockOutcome([memory[0], Checksum(Incremented(bytes))], Incremented(bytes), None)
  {
    hide Checksum;
    var stages := [IncrementStage(), ChecksumAsStage()];
    var out := Incremented(bytes);
    assert Run(stages[0], memory[0], bytes) == StageOutcome(memory[0], out, None);
    assert stages[1..] == [ChecksumAsStage()] && memory[1..] == [memory[1]];
    assert Run(stages[1..][0], memory[1], out) == StageOutcome(Checksum(out), out, None);
    assert stages[1..][1..] == [] && memory[1..][1..] == [];
    assert ProcessAll([], [], out) == BlockOutcome([], out, None);
    assert ProcessAll(stages[1..], memory[1..], out) == BlockOutcome([Checksum(out)], out, None);
  }

  lemma IncrementedJoins(s: seq<byte>, t: seq<byte>)
    ensures Incremented(s + t) == Incremented(s) + Incremented(t)
  {
  }

  lemma {:induction false} OutputIsIncrementedPrefix(c: Config, k: nat)
    requires IncrementsThenSums(c)
    ensures SerialOutput(c, k) == Incremented(Concat(c, k))
    ensures k > 0 ==> MemoryAt(c, k)[1] == Checksum(Incremented(Raw(c, k - 1)))
  {
    hide Checksum, ProcessAll;
    if k > 0 {
      OutputIsIncrementedPrefix(c, k - 1);
      BothStages(MemoryAt(c, k - 1), Raw(c, k - 1));
      IncrementedJoins(Concat(c, k - 1), Raw(c, k - 1));
    }
  }

  /** The file holds the whole input incremented byte by byte, however the reads cut it, and the
      checksum stage holds the checksum of the last block. */
  lemma IncrementedFile(c: Config, run: seq<Action>, s: State)
    requires Reaches(c, run, s) && s.main.Returned? && IncrementsThenSums(c)
    ensures s.output == Incremented(c.input)
    ensures |s.stageMemory| == 2
    ensures s.result.blocks > 0 ==> s.stageMemory[1] == Checksum(Incremented(Raw(c, s.result.blocks - 1)))
  {
    hide Checksum, ProcessAll;
    ReturnedRunIsSerial(c, run, s);
    OutputIsIncrementedPrefix(c, s.result.blocks);
    BlocksCoverInput(c, s.result.blocks);
  }
}
