/** User stages and the pipeline that runs them in order over one block. */
module Stages {
  import opened Base

  /** What one call of `Stage::process` leaves behind: the stage's memory, read as one number,
      the block it overwrote, and the exception it threw if it threw one. */
  datatype StageOutcome = StageOutcome(memory: int, bytes: seq<byte>, thrown: Option<int>)

  type Stage = (int, seq<byte>) -> StageOutcome

  function Run(stage: Stage, memory: int, bytes: seq<byte>): StageOutcome {
    stage(memory, bytes)
  }

  /** A stage may keep state and may throw, but it cannot change the length of its span. */
  ghost predicate KeepsLength(stage: Stage) {
    forall m, b: seq<byte> :: |Run(stage, m, b).bytes| == |b|
  }

  datatype BlockOutcome = BlockOutcome(memory: seq<int>, bytes: seq<byte>, thrown: Option<int>)

  /** The stages in order over one block; the first exception stops the rest. */
  function ProcessAll(stages: seq<Stage>, memory: seq<int>, bytes: seq<byte>): (r: BlockOutcome)
    requires |stages| == |memory|
    ensures |r.memory| == |stages|
  {
    if stages == [] then BlockOutcome([], bytes, None)
    else
      var first := Run(stages[0], memory[0], bytes);
      if first.thrown.Some? then
        BlockOutcome([first.memory] + memory[1..], first.bytes, first.thrown)
      else
        var rest := ProcessAll(stages[1..], memory[1..], first.bytes);
        BlockOutcome([first.memory] + rest.memory, rest.bytes, rest.thrown)
  }

  lemma {:induction false} ProcessAllKeepsLength(stages: seq<Stage>, memory: seq<int>, bytes: seq<byte>)
    requires |stages| == |memory|
    requires forall i :: 0 <= i < |stages| ==> KeepsLength(stages[i])
    ensures |ProcessAll(stages, memory, bytes).bytes| == |bytes|
  {
    if stages != [] {
      var first := Run(stages[0], memory[0], bytes);
      assert KeepsLength(stages[0]);
      if first.thrown.None? {
        ProcessAllKeepsLength(stages[1..], memory[1..], first.bytes);
      }
    }
  }
}
