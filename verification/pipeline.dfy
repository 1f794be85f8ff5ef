/** The `Pipeline` object: its list of stages, and one call of `process` over a block in place. */
module Pipelines {
  import opened Base
  import opened Stages

  datatype AddOutcome = Added | NullStage | MetricFailed

  class Pipeline {
    var stages: seq<Stage>
    /** The memory of each stage object, which the stages own. */
    var memory: seq<int>

    ghost predicate Valid()
      reads this
    {
      |stages| == |memory| && forall i :: 0 <= i < |stages| ==> KeepsLength(stages[i])
    }

    constructor ()
      ensures Valid() && stages == []
    {
      stages, memory := [], [];
    }

    /** Appends a stage. A null stage is refused, and a stage whose latency histogram cannot be
        registered is taken out again: either way the pipeline is what it was. */
    method AddStage(stage: Option<Stage>, initial: int, registered: bool) returns (r: AddOutcome)
      requires Valid() && (stage.Some? ==> KeepsLength(stage.value))
      modifies this
      ensures Valid()
      ensures r == if stage.None? then NullStage else if registered then Added else MetricFailed
      ensures r.Added? ==> stages == old(stages) + [stage.value] && memory == old(memory) + [initial]
      ensures !r.Added? ==> stages == old(stages) && memory == old(memory)
    {
      if stage.None? {
        return NullStage;
      }
      stages, memory := stages + [stage.value], memory + [initial];
      if !registered {
        stages, memory := stages[..|stages| - 1], memory[..|memory| - 1];
        return MetricFailed;
      }
      return Added;
    }

    /** One stage over the first `count` bytes, in place. */
    method RunStage(i: nat, block: array<byte>, count: nat) returns (thrown: Option<int>)
      requires Valid() && i < |stages| && count <= block.Length
      modifies this`memory, block
      ensures Valid()
      ensures var out := Run(stages[i], old(memory[i]), old(block[..count]));
              memory == old(memory)[i := out.memory] && block[..count] == out.bytes && thrown == out.thrown
      ensures block[count..] == old(block[count..])
    {
      assert KeepsLength(stages[i]);
      var out := Run(stages[i], memory[i], block[..count]);
      memory := memory[i := out.memory];
      forall j | 0 <= j < count {
        block[j] := out.bytes[j];
      }
      return out.thrown;
    }

    /** Runs the stages in order over the first `count` bytes. The rest of the buffer, and the
        stages after one that throws, are not touched. */
    method Process(block: array<byte>, count: nat) returns (thrown: Option<int>)
      requires Valid() && count <= block.Length
      modifies this`memory, block
      ensures Valid()
      ensures var r := ProcessAll(stages, old(memory), old(block[..count]));
              memory == r.memory && block[..count] == r.bytes && thrown == r.thrown
      ensures block[count..] == old(block[count..])
    {
      hide KeepsLength;
      ghost var whole := ProcessAll(stages, memory, block[..count]);
      var i := 0;
      while i < |stages|
        invariant i <= |stages| && Valid()
        invariant whole == Resumed(memory[..i], ProcessAll(stages[i..], memory[i..], block[..count]))
        invariant block[count..] == old(block[count..])
      {
        NextStage(stages, memory, i, block[..count]);
        thrown := RunStage(i, block, count);
        if thrown.Some? {
          return thrown;
        }
        i := i + 1;
      }
      return None;
    }
  }

  /** The outcome of the remaining stages, with the memory of those that have run. */
  function Resumed(done: seq<int>, rest: BlockOutcome): BlockOutcome {
    rest.(memory := done + rest.memory)
  }

  /** Taking one stage off the front of what remains. */
  lemma NextStage(stages: seq<Stage>, memory: seq<int>, i: nat, bytes: seq<byte>)
    requires |stages| == |memory| && i < |stages|
    ensures var out := Run(stages[i], memory[i], bytes); var m := memory[i := out.memory];
            Resumed(memory[..i], ProcessAll(stages[i..], memory[i..], bytes))
            == if out.thrown.Some? then BlockOutcome(m, out.bytes, out.thrown)
               else Resumed(m[..i + 1], ProcessAll(stages[i + 1..], m[i + 1..], out.bytes))
  {
    var m := memory[i := Run(stages[i], memory[i], bytes).memory];
    assert stages[i..][1..] == stages[i + 1..] && memory[i..][1..] == memory[i + 1..] == m[i + 1..];
    assert m == memory[..i] + [m[i]] + memory[i + 1..];
    assert m[..i + 1] == memory[..i] + [m[i]];
  }
}
