/** What a run over one input must compute: the block boundaries a schedule of short reads cuts,
    the stage memory before each block, and the output of running the stages block by block. */
module RunSpec {
  import opened Base
  import opened Stages

  /** The outcome of one completed backend read. */
  datatype ReadResult = Got(n: nat) | ReadThrew(errno: int)

  /** A validated configuration together with everything outside the program that a run meets:
      the input bytes, the outcome of the k-th read, the stages and their initial memory. */
  datatype Config = Config(
    blockSize: nat, buffers: nat, depth: nat,
    input: seq<byte>, readScript: nat -> ReadResult,
    stages: seq<Stage>, memory0: seq<int>)

  function ReadAt(c: Config, k: nat): ReadResult {
    c.readScript(k)
  }

  function Len(c: Config, k: nat): nat {
    match ReadAt(c, k)
    case Got(n) => n
    case ReadThrew(_) => 0
  }

  /** Where block k starts when the first k reads returned the scheduled lengths. */
  function Off(c: Config, k: nat): nat {
    if k == 0 then 0 else Off(c, k - 1) + Len(c, k - 1)
  }

  /** The backend contract for one read: at most the requested length, and zero bytes exactly
      at end of file. */
  ghost predicate ReadOk(c: Config, k: nat) {
    ReadAt(c, k).Got? ==>
      && Len(c, k) <= c.blockSize
      && Off(c, k) + Len(c, k) <= |c.input|
      && (Len(c, k) == 0 <==> Off(c, k) == |c.input|)
  }

  ghost predicate ReadContract(c: Config) {
    forall k: nat :: ReadOk(c, k)
  }

  ghost predicate Accepted(c: Config) {
    && c.blockSize > 0 && c.buffers > 0 && c.depth > 0
    && |c.stages| == |c.memory0| && |c.stages| > 0
    && (forall i :: 0 <= i < |c.stages| ==> KeepsLength(c.stages[i]))
    && ReadContract(c)
  }

  function Raw(c: Config, k: nat): seq<byte> {
    Slice(c.input, Off(c, k), Len(c, k))
  }

  /** The memory of the stages after the first k blocks. */
  function MemoryAt(c: Config, k: nat): (r: seq<int>)
    requires |c.stages| == |c.memory0|
    ensures |r| == |c.stages|
  {
    if k == 0 then c.memory0 else ProcessAll(c.stages, MemoryAt(c, k - 1), Raw(c, k - 1)).memory
  }

  function Processed(c: Config, k: nat): BlockOutcome
    requires |c.stages| == |c.memory0|
  {
    ProcessAll(c.stages, MemoryAt(c, k), Raw(c, k))
  }

  function Transformed(c: Config, k: nat): seq<byte>
    requires |c.stages| == |c.memory0|
  {
    Processed(c, k).bytes
  }

  /** The transformed blocks 0..k laid end to end. */
  function SerialOutput(c: Config, k: nat): seq<byte>
    requires |c.stages| == |c.memory0|
  {
    if k == 0 then [] else SerialOutput(c, k - 1) + Transformed(c, k - 1)
  }

  predicate HasData(c: Config, k: nat) {
    ReadAt(c, k).Got? && Len(c, k) > 0
  }

  /** The first k reads all returned data. */
  ghost predicate Delivered(c: Config, k: nat) {
    forall j: nat :: j < k ==> HasData(c, j)
  }

  predicate Unthrown(c: Config, k: nat)
    requires |c.stages| == |c.memory0|
  {
    Processed(c, k).thrown.None?
  }

  /** No stage threw on the first k blocks. */
  ghost predicate Clean(c: Config, k: nat)
    requires |c.stages| == |c.memory0|
  {
    forall j: nat :: j < k ==> Unthrown(c, j)
  }

  /** Block n is where a run that meets no error ends. */
  ghost predicate EndsAt(c: Config, n: nat)
    requires |c.stages| == |c.memory0|
  {
    Delivered(c, n) && Clean(c, n) && ReadAt(c, n) == Got(0) && Off(c, n) <= U64_MAX
  }

  lemma EndIsUnique(c: Config, m: nat, n: nat)
    requires |c.stages| == |c.memory0|
    requires EndsAt(c, m) && EndsAt(c, n)
    ensures m == n
  {
    assert m < n ==> HasData(c, m);
    assert n < m ==> HasData(c, n);
  }

  lemma {:induction false} OffsetBounds(c: Config, k: nat)
    requires ReadContract(c)
    ensures Off(c, k) <= |c.input|
    ensures Delivered(c, k) ==> k <= Off(c, k)
  {
    if k > 0 {
      OffsetBounds(c, k - 1);
      assert ReadOk(c, k - 1);
      assert Delivered(c, k) ==> HasData(c, k - 1);
    }
  }

  lemma {:induction false} OffsetMonotone(c: Config, j: nat, k: nat)
    requires j <= k
    ensures Off(c, j) <= Off(c, k)
    decreases k
  {
    if j < k {
      OffsetMonotone(c, j, k - 1);
    }
  }

  lemma RawLength(c: Config, k: nat)
    requires Accepted(c) && ReadAt(c, k).Got?
    ensures |Raw(c, k)| == Len(c, k) == |Transformed(c, k)| <= c.blockSize
  {
    assert ReadOk(c, k);
    ProcessAllKeepsLength(c.stages, MemoryAt(c, k), Raw(c, k));
  }

  lemma {:induction false} SerialOutputLength(c: Config, k: nat)
    requires Accepted(c) && Delivered(c, k)
    ensures |SerialOutput(c, k)| == Off(c, k)
  {
    hide ReadContract, KeepsLength, MemoryAt, ProcessAll;
    if k > 0 {
      assert HasData(c, k - 1);
      SerialOutputLength(c, k - 1);
      RawLength(c, k - 1);
    }
  }

  /** At end of input the block boundaries cover the input exactly once. */
  lemma {:induction false} BlocksCoverInput(c: Config, k: nat)
    requires Accepted(c) && Delivered(c, k)
    ensures Off(c, k) <= |c.input|
    ensures Concat(c, k) == c.input[..Off(c, k)]
    ensures ReadAt(c, k) == Got(0) ==> Concat(c, k) == c.input
  {
    hide ReadContract, KeepsLength;
    OffsetBounds(c, k);
    if k > 0 {
      BlocksCoverInput(c, k - 1);
      assert HasData(c, k - 1);
      ReadIsOk(c, k - 1);
    }
    ReadIsOk(c, k);
  }

  lemma ReadIsOk(c: Config, k: nat)
    requires ReadContract(c)
    ensures ReadOk(c, k)
  {
  }

  ghost function Concat(c: Config, k: nat): seq<byte> {
    if k == 0 then [] else Concat(c, k - 1) + Raw(c, k - 1)
  }
}
