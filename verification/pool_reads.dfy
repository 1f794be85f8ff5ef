/** The executor over the thread pool: reads that `complete_read` performs on the pool meet the contract
    that the executor's results rest on, and leave in the leased buffer what its model says. */
module PoolReads {
  import opened Base
  import opened RunSpec
  import E = Executor
  import F = FileIo
  import P = ThreadPool
  import I = ThreadPoolInvariant
  import T = ThreadPoolTheorems

  /** One `complete_read` on a pool with nothing in flight, from its submission in state `s` to a
      state in which its coroutine has been resumed. */
  datatype PoolCall = PoolCall(c: P.Config, s: P.State, asked: P.Asked, run: seq<P.Action>)

  ghost predicate CallOk(call: PoolCall) {
    && I.Inv(call.c, call.s) && call.s.inflight == 0 && call.s.caller.Idle? && !call.s.stopping
    && call.asked.length <= INT_MAX && P.CanSubmit(call.s, call.asked)
    && P.Legal(call.c, P.AfterSubmit(call.c, call.s, call.asked), call.run)
    && (forall a :: a in call.run ==> !a.Submit?)
    && |Final(call).resumeLog| > |call.s.resumeLog|
  }

  function Final(call: PoolCall): P.State
    requires P.Legal(call.c, P.AfterSubmit(call.c, call.s, call.asked), call.run)
  {
    P.Exec(call.c, P.AfterSubmit(call.c, call.s, call.asked), call.run)
  }

  function AsReadResult(r: Result<nat, int>): ReadResult {
    match r
    case Ok(n) => Got(n)
    case Err(e) => ReadThrew(e)
  }

  /** The call reads block k of the run, and what its coroutine is resumed with is the run's k-th read. */
  ghost predicate Serves(call: PoolCall, rc: Config, k: nat) {
    && CallOk(call) && call.c.input == rc.input
    && call.asked.length == rc.blockSize && call.asked.offset == Off(rc, k)
    && call.s.nextId in Final(call).delivered
    && ReadAt(rc, k) == AsReadResult(P.Await(Final(call).delivered[call.s.nextId]))
  }

  ghost predicate Served(rc: Config, k: nat) {
    exists call :: Serves(call, rc, k)
  }

  /** Any outcome that a read for block k can have, reported as the synchronous backend does, meets the
      executor's read contract. */
  lemma ReadableMeetsContract(rc: Config, k: nat, asked: P.Asked, r: F.ReadAtResult)
    requires P.Readable(rc.input, asked, r) && asked.length == rc.blockSize > 0 && asked.offset == Off(rc, k)
    requires Off(rc, k) <= |rc.input| && ReadAt(rc, k) == AsReadResult(P.SyncRead(r))
    ensures ReadOk(rc, k) && Len(rc, k) == r.read
  {
  }

  /** A read that the pool performed for block k meets the executor's read contract, and the leased
      buffer then holds what the executor's model puts there. */
  lemma ServedReadMeetsContract(rc: Config, k: nat, call: PoolCall, buffers: seq<seq<byte>>, buf: nat)
    requires Serves(call, rc, k) && rc.blockSize > 0 && Off(rc, k) <= |rc.input|
    ensures ReadOk(rc, k)
    ensures call.s.nextId in Final(call).buffers.received && call.asked.dest in call.s.buffers.memory
    ensures buf < |buffers| && buffers[buf] == call.s.buffers.memory[call.asked.dest] ==>
      E.Fill(buffers, buf, Slice(rc.input, Off(rc, k), Len(rc, k)))[buf] == Final(call).buffers.received[call.s.nextId]
  {
    hide I.Inv, P.Legal, P.Exec, P.Encode;
    T.CompleteReadIsSynchronous(call.c, call.s, call.asked, call.run);
    ReadableMeetsContract(rc, k, call.asked, Final(call).readBy[call.s.nextId].result);
  }

  /** A run all of whose reads the pool performs satisfies the read contract. */
  lemma PoolMeetsReadContract(rc: Config)
    requires rc.blockSize > 0 && forall k: nat :: Served(rc, k)
    ensures ReadContract(rc)
  {
    forall k: nat ensures ReadOk(rc, k) {
      ServedUpTo(rc, k);
    }
  }

  /** Every read that meets the contract can be served: there is a call on a pool that performs it. */
  lemma ReadCanBeServed(rc: Config, k: nat)
    requires 0 < rc.blockSize <= INT_MAX && ReadOk(rc, k) && Off(rc, k) <= |rc.input|
    requires ReadAt(rc, k).ReadThrew? ==> ReadAt(rc, k).errno > 0
    ensures Served(rc, k)
  {
    var memory: map<nat, seq<byte>> := map[0 := seq(rc.blockSize, _ => 0)];
    var c := P.Config(1, 1, rc.input, memory);
    var s := P.Init(c);
    var asked := P.Asked(rc.blockSize, Off(rc, k), 0);
    var r := ScheduledRead(rc, k);
    I.InitInv(c);
    FirstCanSubmit(c, asked);
    hide I.Inv, P.Legal, P.Exec, P.AfterSubmit, P.CanSubmit, P.Readable, ReadOk, AsReadResult, P.SyncRead;
    var run := T.CompleteReadCanReturn(c, s, asked, r);
    CallServes(PoolCall(c, s, asked, run), rc, k, r);
  }

  lemma CallServes(call: PoolCall, rc: Config, k: nat, r: F.ReadAtResult)
    requires CallOk(call) && call.c.input == rc.input
    requires call.asked.length == rc.blockSize && call.asked.offset == Off(rc, k)
    requires call.s.nextId in Final(call).readBy && Final(call).readBy[call.s.nextId].result == r
    requires ReadAt(rc, k) == AsReadResult(P.SyncRead(r))
    ensures Serves(call, rc, k)
  {
    T.CompleteReadIsSynchronous(call.c, call.s, call.asked, call.run);
    hide I.Inv, P.Legal, P.Exec, P.AfterSubmit, P.CanSubmit, P.Readable, P.ReadInto, P.Encode, P.Await, P.SyncRead;
  }

  /** The outcome of `read_at` behind the k-th read of a run. */
  function ScheduledRead(rc: Config, k: nat): (r: F.ReadAtResult)
    requires rc.blockSize > 0 && ReadOk(rc, k) && Off(rc, k) <= |rc.input|
    requires ReadAt(rc, k).ReadThrew? ==> ReadAt(rc, k).errno > 0
    ensures P.Readable(rc.input, P.Asked(rc.blockSize, Off(rc, k), 0), r)
    ensures AsReadResult(P.SyncRead(r)) == ReadAt(rc, k)
  {
    match ReadAt(rc, k)
    case Got(n) => F.ReadAtResult(n, 0)
    case ReadThrew(e) => F.ReadAtResult(0, e)
  }

  lemma FirstCanSubmit(c: P.Config, asked: P.Asked)
    requires asked.dest in c.memory0 && |c.memory0[asked.dest]| == asked.length
    ensures P.CanSubmit(P.Init(c), asked)
  {
  }

  lemma {:induction false} ServedUpTo(rc: Config, k: nat)
    requires rc.blockSize > 0 && forall j: nat :: Served(rc, j)
    ensures Off(rc, k) <= |rc.input| && ReadOk(rc, k)
  {
    hide Serves;
    if k > 0 {
      ServedUpTo(rc, k - 1);
    }
    assert Served(rc, k);
    var call :| Serves(call, rc, k);
    ServedReadMeetsContract(rc, k, call, [], 0);
  }
}
