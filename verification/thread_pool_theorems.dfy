/** What the thread-pool backend guarantees for every schedule of its workers. */
module ThreadPoolTheorems {
  import opened Base
  import opened Coroutines
  import opened ThreadPool
  import opened ThreadPoolInvariant
  import F = FileIo

  ghost predicate Reaches(c: Config, run: seq<Action>, s: State) {
    Accepted(c) && Legal(c, Init(c), run) && Exec(c, Init(c), run) == s
  }

  lemma ReachedInv(c: Config, run: seq<Action>, s: State)
    requires Reaches(c, run, s)
    ensures Inv(c, s)
  {
    hide Inv;
    InitInv(c);
    RunInv(c, Init(c), run);
  }

  // ----- the result of one read -----

  /** A result survives its trip through a signed 32-bit integer exactly when its byte count fits. */
  lemma CastIsFaithful(r: F.ReadAtResult)
    requires r.errno >= 0 && (r.errno != 0 ==> r.read == 0)
    ensures Await(Encode(r)) == SyncRead(r) <==> r.read <= INT_MAX
  {
    if r.errno == 0 && r.read > INT_MAX {
      assert WrapInt(r.read) <= INT_MAX;
    }
  }

  datatype ReadError = LengthError | SystemError(errno: int)

  /** What a call of `read_at` comes to: a byte count or an exception, and the caller's buffer. */
  datatype ReadOutcome = ReadOutcome(result: Result<nat, ReadError>, buffer: seq<byte>)

  function AsOutcome(report: Report): ReadOutcome {
    match report.result
    case Ok(n) => ReadOutcome(Ok(n), report.buffer)
    case Err(e) => ReadOutcome(Err(SystemError(e)), report.buffer)
  }

  /** What `read_at` on the pool comes to, for a read with outcome `r` submitted in state `s` with a
      buffer that holds `before`. */
  function PoolRead(c: Config, s: State, asked: Asked, before: seq<byte>, r: F.ReadAtResult): ReadOutcome {
    if asked.length > INT_MAX then ReadOutcome(Err(LengthError), before)
    else match SubmitError(c, s)
      case Some(e) => ReadOutcome(Err(SystemError(e)), before)
      case None => AsOutcome(Report(Await(Encode(r)), ReadInto(before, c.input, asked.offset, r)))
  }

  function SyncOutcome(c: Config, asked: Asked, before: seq<byte>, r: F.ReadAtResult): ReadOutcome {
    AsOutcome(SyncReport(c.input, before, asked, r))
  }

  /** The two backends come to the same result and the same buffer for every outcome of the read
      exactly when the request is short enough for a completion and the pool accepts it. */
  lemma BackendsAgree(c: Config, s: State, asked: Asked, before: seq<byte>)
    ensures asked.length <= INT_MAX && SubmitError(c, s).None? <==>
      forall r :: Readable(c.input, asked, r) ==> PoolRead(c, s, asked, before, r) == SyncOutcome(c, asked, before, r)
  {
    if asked.length <= INT_MAX && SubmitError(c, s).None? {
      forall r | Readable(c.input, asked, r)
        ensures PoolRead(c, s, asked, before, r) == SyncOutcome(c, asked, before, r)
      {
        CastIsFaithful(r);
      }
    } else {
      var failed := F.ReadAtResult(0, EIO);
      assert Readable(c.input, asked, failed);
      assert PoolRead(c, s, asked, before, failed) != SyncOutcome(c, asked, before, failed);
    }
  }

  // ----- safety -----

  /** The number in flight is exactly the number of accepted requests that the caller has not popped,
      and never exceeds the limit; and every accepted request is in exactly one place. */
  lemma InflightIsExact(c: Config, run: seq<Action>, s: State)
    requires Reaches(c, run, s)
    ensures s.inflight == |s.work| + |s.executing| + |s.finishing| + |s.completions| <= c.maxInflight
    ensures forall id: nat :: PlacesOf(s, id) == if id < s.nextId then 1 else 0
    ensures Distinct(s.work) && Distinct(s.executing) && Distinct(s.finishing) && Distinct(s.completions)
  {
    hide Holds, Named, Alive, ReadOnce, Carried, Own;
    ReachedInv(c, run, s);
    EachListedOnce(s);
    forall id: nat ensures PlacesOf(s, id) == if id < s.nextId then 1 else 0 {
      OnePlace(s, id);
    }
  }

  /** In how many of the containers a request is, counting the hand of the caller and the resumed ones. */
  function PlacesOf(s: State, id: nat): nat {
    (if id in s.work then 1 else 0) + (if id in s.executing then 1 else 0) + (if id in s.finishing then 1 else 0)
    + (if id in s.completions then 1 else 0) + (if id in PoppedBy(s.caller) then 1 else 0)
    + (if id in s.resumeLog then 1 else 0)
  }

  lemma OnePlace(s: State, id: nat)
    requires Placed(s, s.phase) && Named(s.phase, s.nextId)
    ensures PlacesOf(s, id) == if id < s.nextId then 1 else 0
  {
    hide Distinct, PoppedBy;
  }

  lemma EachListedOnce(s: State)
    requires Placed(s, s.phase)
    ensures Distinct(s.work) && Distinct(s.executing) && Distinct(s.finishing) && Distinct(s.completions)
  {
    hide Distinct;
  }

  /** What the coroutine of a resumed request found: its result and its buffer. */
  function PoolReport(s: State, id: nat): Report
    requires id in s.delivered && id in s.buffers.received
  {
    Report(Await(s.delivered[id]), s.buffers.received[id])
  }

  /** Every accepted request is read at most once and with its own parameters, resumed at most once
      and only after its read; and what its coroutine finds, in the result and in the buffer, is what
      the synchronous backend leaves after the same read into the same buffer. */
  lemma EachRequestIsServedOnce(c: Config, run: seq<Action>, s: State)
    requires Reaches(c, run, s)
    ensures Distinct(s.readLog) && Distinct(s.resumeLog)
    ensures forall id: nat :: id in s.resumeLog ==> id in s.readLog && id < s.nextId
    ensures forall id: nat :: id in s.readLog ==>
      id in s.readBy && id in s.asked && s.readBy[id].asked == s.asked[id]
    ensures forall id: nat :: id in s.resumeLog ==> ServedLikeSync(c, s, id)
  {
    ReachedInv(c, run, s);
    hide Readable, ReadInto, Lending, Filled, Counted, Woken;
    forall id: nat | id in s.resumeLog ensures ServedLikeSync(c, s, id) {
      assert id in s.phase && s.phase[id] == Done;
      ResumedIsServed(c, s, id);
    }
  }

  /** The request was read with an outcome that is possible for it, and its coroutine found what the
      synchronous backend would have left. */
  ghost predicate ServedLikeSync(c: Config, s: State, id: nat) {
    && id in s.delivered && id in s.readBy && id in s.asked && id in s.buffers.lent && id in s.buffers.received
    && s.readBy[id].asked == s.asked[id] && |s.buffers.lent[id]| == s.asked[id].length
    && Readable(c.input, s.asked[id], s.readBy[id].result)
    && PoolReport(s, id) == SyncReport(c.input, s.buffers.lent[id], s.asked[id], s.readBy[id].result)
  }

  lemma ResumedIsServed(c: Config, s: State, id: nat)
    requires Recorded(s) && Shared(c, s) && id in s.phase && s.phase[id] == Done
    ensures ServedLikeSync(c, s, id)
  {
    hide ReadInto, Filled, Encode, Await, SyncRead;
    ReadableIsCastable(c.input, s.readBy[id].asked, s.readBy[id].result);
  }

  lemma ReadableIsCastable(input: seq<byte>, asked: Asked, r: F.ReadAtResult)
    requires Readable(input, asked, r) && asked.length <= INT_MAX
    ensures Await(Encode(r)) == SyncRead(r)
  {
    CastIsFaithful(r);
  }

  /** A step of the backend changes no memory but the buffer of the request that it reads, and that is
      nobody else's buffer. */
  lemma OtherBuffersAreUntouched(c: Config, run: seq<Action>, s: State, a: Action, dest: nat)
    requires Reaches(c, run, s) && Enabled(c, s, a) && SystemStep(a) && dest in s.buffers.memory
    ensures var n := Next(c, s, a);
            && dest in n.buffers.memory
            && (n.buffers.memory[dest] == s.buffers.memory[dest]
                || (a.WorkerRead? && dest == s.live[s.executing[a.i]].asked.dest))
    ensures a.WorkerRead? ==> forall id: nat :: id in s.live && id != s.executing[a.i] ==>
              s.live[id].asked.dest != s.live[s.executing[a.i]].asked.dest
  {
    ReachedInv(c, run, s);
    hide Placed, Recorded, Filled, Received, Honest, Counted, Woken, Readable, Enabled, Next;
    StepMemory(c, s, a);
    if a.WorkerRead? {
      ReadHasRequest(c, s, a.i, a.r);
    }
  }

  lemma StepMemory(c: Config, s: State, a: Action)
    requires Enabled(c, s, a) && SystemStep(a)
    ensures Next(c, s, a).buffers.memory ==
      if a.WorkerRead? then FillBuffer(s.buffers, c.input, s.live[s.executing[a.i]].asked, a.r).memory
      else s.buffers.memory
  {
    hide SameHistory, SameRequests, AfterTakeWork, AfterExit, AfterSleep, AfterWorkerLoop, AfterWorkerRead,
      AfterWorkerFinish, AfterCallerLoop, AfterNotifyWork, AfterNotifyAll, AfterNotifyDone, AfterResumption, FillBuffer;
  }

  lemma ReadHasRequest(c: Config, s: State, i: nat, r: F.ReadAtResult)
    requires Enabled(c, s, WorkerRead(i, r))
    ensures i < |s.executing| && s.executing[i] in s.live
  {
  }

  /** Nobody reaches for a request after its coroutine was resumed, and every resumption finds a
      continuation that was not resumed before. */
  lemma NoUseAfterResumption(c: Config, run: seq<Action>, s: State)
    requires Reaches(c, run, s)
    ensures forall id: nat :: id in s.resumeLog ==> id !in s.live
    ensures forall i :: 0 <= i < |s.work| ==> s.work[i] in s.live
    ensures forall i :: 0 <= i < |s.executing| ==> s.executing[i] in s.live
    ensures forall i :: 0 <= i < |s.finishing| ==> s.finishing[i] in s.live && s.finishing[i] in s.local
    ensures forall i :: 0 <= i < |s.completions| ==> s.completions[i] in s.live
    ensures s.caller.Resuming? ==>
      s.caller.id in s.live && CompleteResult(s.live[s.caller.id].completion, false).Resumed?
  {
    hide Holds, Alive, ReadOnce, Own, Named;
    ReachedInv(c, run, s);
    HeldIsLive(s.work, s.phase, Queued, s.live);
    HeldIsLive(s.executing, s.phase, Executing, s.live);
    HeldIsLive(s.finishing, s.phase, Read, s.live);
    HeldIsLive(s.completions, s.phase, Completed, s.live);
    HeldIsLive(PoppedBy(s.caller), s.phase, Popped, s.live);
    FinishingHasResult(s);
    ResumedIsDead(s.resumeLog, s.phase, s.live);
    if s.caller.Resuming? {
      assert PoppedBy(s.caller)[0] == s.caller.id;
      LiveLength(s.live, s.phase, s.caller.id);
    }
  }

  lemma HeldIsLive(q: seq<nat>, phase: map<nat, Phase>, p: Phase, live: map<nat, ReadRequest>)
    requires Holds(q, phase, p) && Alive(live, phase) && p != Done
    ensures forall i :: 0 <= i < |q| ==> q[i] in live
  {
    forall i | 0 <= i < |q| ensures q[i] in live {
      HeldPhase(q, phase, p, i);
    }
  }

  lemma ResumedIsDead(q: seq<nat>, phase: map<nat, Phase>, live: map<nat, ReadRequest>)
    requires Holds(q, phase, Done) && Alive(live, phase)
    ensures forall id: nat :: id in q ==> id !in live
  {
  }

  lemma FinishingHasResult(s: State)
    requires Placed(s, s.phase)
    requires Carried(s.phase, s.readBy, s.local, s.live, s.caller, s.delivered)
    ensures forall i :: 0 <= i < |s.finishing| ==> s.finishing[i] in s.local
  {
    hide Holds;
    forall i | 0 <= i < |s.finishing| ensures s.finishing[i] in s.local {
      HeldPhase(s.finishing, s.phase, Read, i);
    }
  }

  /** Workers exit only after shutdown began and every accepted request has been read. */
  lemma ShutdownDrains(c: Config, run: seq<Action>, s: State)
    requires Reaches(c, run, s) && s.exited > 0
    ensures s.stopping && s.work == []
    ensures s.exited == c.workers ==> forall id: nat :: id < s.nextId ==> id in s.readLog
  {
    ReachedInv(c, run, s);
    if s.exited == c.workers {
      AllRead(s);
    }
  }

  lemma AllRead(s: State)
    requires Placed(s, s.phase) && Recorded(s) && s.work == [] && s.executing == []
    ensures forall id: nat :: id < s.nextId ==> id in s.readLog
  {
    hide Own, Alive, Carried, Distinct;
    forall id: nat | id < s.nextId ensures id in s.readLog {
      assert id !in s.work && id !in s.executing;
      assert id in s.phase;
    }
  }

  // ----- submission and shutdown -----

  /** The requests that are queued, with a worker or completed. */
  function Pending(s: State): nat {
    |s.work| + |s.executing| + |s.finishing| + |s.completions|
  }

  /** A pool that is stopping refuses with ECANCELED, a full one with EAGAIN, and every other accepts:
      the request is then queued under the next name. A refusal changes nothing. */
  lemma SubmissionsAreBounded(c: Config, run: seq<Action>, s: State, asked: Asked)
    requires Reaches(c, run, s) && asked.length <= INT_MAX
    ensures s.stopping ==> SubmitError(c, s) == Some(125) && AfterSubmit(c, s, asked) == s
    ensures !s.stopping && Pending(s) == c.maxInflight ==>
      SubmitError(c, s) == Some(11) && AfterSubmit(c, s, asked) == s
    ensures !s.stopping && Pending(s) < c.maxInflight ==>
      var n := AfterSubmit(c, s, asked);
      && SubmitError(c, s) == None && n.nextId == s.nextId + 1
      && n.work == s.work + [s.nextId] && s.nextId in n.asked && n.asked[s.nextId] == asked
    ensures Pending(s) <= c.maxInflight
  {
    hide Placed, Recorded, Shared, Woken, Legal, Exec;
    ReachedInv(c, run, s);
  }

  /** Once the destructor has begun, the pool stays stopping, whatever happens. */
  lemma {:induction false} StopIsFinal(c: Config, s: State, run: seq<Action>)
    requires Legal(c, s, run) && s.stopping
    ensures Exec(c, s, run).stopping
    decreases |run|
  {
    hide Enabled, Next;
    if run != [] {
      StepKeepsStopping(c, s, run[0]);
      StopIsFinal(c, Next(c, s, run[0]), run[1..]);
    }
  }

  lemma StepKeepsStopping(c: Config, s: State, a: Action)
    requires Enabled(c, s, a) && s.stopping
    ensures Next(c, s, a).stopping
  {
    hide AfterTakeWork, AfterExit, AfterSleep, AfterWorkerLoop, AfterWorkerRead, AfterWorkerFinish, AfterNotifyWork,
      AfterNotifyAll, WakeOne, AfterCallerLoop, AfterWaitOne, AfterWakeCaller, AfterNotifyDone, AfterReuse,
      SameRequests, AfterResumption;
  }

  /** The destructor's stop takes hold, and when the backend has nothing left to do after it, every worker
      has exited and every accepted request was read. */
  lemma StopEndsWorkers(c: Config, s: State, run: seq<Action>)
    requires Inv(c, s) && Enabled(c, s, Stop)
    requires Legal(c, Next(c, s, Stop), run) && forall a :: a in run ==> SystemStep(a)
    requires forall a :: SystemStep(a) ==> !Enabled(c, Exec(c, Next(c, s, Stop), run), a)
    ensures var t := Exec(c, Next(c, s, Stop), run);
            t.stopping && t.exited == c.workers && forall id: nat :: id < t.nextId ==> id in t.readLog
  {
    var n := Next(c, s, Stop);
    assert n.stopping;
    NextInv(c, s, Stop);
    hide Inv, Enabled, Next, Exec;
    StopIsFinal(c, n, run);
    WaitOneReturns(c, n, run);
    RunInv(c, n, run);
    SettledHasRead(c, Exec(c, n, run));
  }

  lemma SettledHasRead(c: Config, t: State)
    requires Inv(c, t) && Settled(c, t)
    ensures forall id: nat :: id < t.nextId ==> id in t.readLog
  {
    hide Placed, Recorded, Shared, Counted, Woken;
    AllRead(t);
  }

  // ----- progress -----

  /** A step that the backend or a caller inside `wait_one` takes on its own. */
  predicate SystemStep(a: Action) {
    a.NotifyWork? || a.WorkerLoop? || a.WorkerRead? || a.WorkerFinish? || a.NotifyDone? || a.NotifyAll?
    || a.CallerLoop? || a.Resume?
  }

  function CallerWeight(caller: Caller): nat {
    match caller
    case Looking => 2
    case Resuming(_, _) => 1
    case _ => 0
  }

  function Measure(c: Config, s: State): nat {
    6 * |s.work| + 6 * |s.executing| + 5 * |s.finishing| + s.looping + 2 * s.pendingWork + 3 * s.pendingDone
    + (if s.pendingAll then c.workers + 1 else 0) + CallerWeight(s.caller)
  }

  lemma WorkerLoopDecreases(c: Config, s: State)
    requires s.looping > 0
    ensures Measure(c, AfterWorkerLoop(s)) < Measure(c, s)
  {
    hide SameHistory, CallerWeight;
    if s.work != [] {
      assert |AfterTakeWork(s).work| == |s.work| - 1;
    }
  }

  lemma WorkerReadDecreases(c: Config, s: State, i: nat, r: F.ReadAtResult)
    requires i < |s.executing| && s.executing[i] in s.live
    ensures Measure(c, AfterWorkerRead(c, s, i, r)) < Measure(c, s)
  {
    hide SameHistory, Encode, CallerWeight;
  }

  lemma WorkerFinishDecreases(c: Config, s: State, i: nat)
    requires i < |s.finishing| && s.finishing[i] in s.live && s.finishing[i] in s.local
    ensures Measure(c, AfterWorkerFinish(s, i)) < Measure(c, s)
  {
    hide SameHistory, CallerWeight;
  }

  lemma CallerLoopDecreases(c: Config, s: State)
    requires s.caller.Looking? && Poppable(s)
    ensures Measure(c, AfterCallerLoop(s)) < Measure(c, s)
  {
    hide SameHistory;
  }

  lemma ResumeDecreases(c: Config, s: State)
    requires s.caller.Resuming? && s.caller.id in s.live
    ensures Measure(c, AfterResumption(s)) < Measure(c, s)
  {
    hide CompleteResult, AfterComplete;
  }

  lemma NotifyDecreases(c: Config, s: State)
    requires Crew(c.workers, s.looping, s.asleep, s.exited, |s.executing| + |s.finishing|)
    ensures s.pendingWork > 0 ==> Measure(c, AfterNotifyWork(s)) < Measure(c, s)
    ensures s.pendingAll ==> Measure(c, AfterNotifyAll(s)) < Measure(c, s)
    ensures s.pendingDone > 0 ==> Measure(c, AfterNotifyDone(s)) < Measure(c, s)
  {
    hide SameHistory;
  }

  lemma StepDecreases(c: Config, s: State, a: Action)
    requires Inv(c, s) && Enabled(c, s, a) && SystemStep(a)
    ensures Measure(c, Next(c, s, a)) < Measure(c, s)
  {
    hide Placed, Recorded, Woken, Measure;
    match a {
      case WorkerLoop => WorkerLoopDecreases(c, s);
      case WorkerRead(i, r) => WorkerReadDecreases(c, s, i, r);
      case WorkerFinish(i) => WorkerFinishDecreases(c, s, i);
      case CallerLoop => CallerLoopDecreases(c, s);
      case Resume => ResumeDecreases(c, s);
      case _ => NotifyDecreases(c, s);
    }
  }

  /** Nothing is left to do: all accepted requests have been read, nobody waits in `wait_one`, and
      after a shutdown every worker has exited. */
  predicate Settled(c: Config, s: State) {
    && s.caller.Idle? && s.work == [] && s.executing == [] && s.finishing == []
    && (s.stopping ==> s.exited == c.workers)
  }

  lemma Unsettled(c: Config, s: State) returns (a: Action)
    requires Inv(c, s) && !Settled(c, s)
    ensures SystemStep(a) && Enabled(c, s, a)
  {
    hide Placed, Recorded, Shared, Readable;
    if s.executing != [] {
      HeldRequestsCanMove(c, s);
      a := WorkerRead(0, F.ReadAtResult(0, EIO));
    } else if s.finishing != [] {
      HeldRequestsCanMove(c, s);
      a := WorkerFinish(0);
    } else if s.pendingAll {
      a := NotifyAll;
    } else if s.looping > 0 {
      a := WorkerLoop;
    } else if s.pendingWork > 0 {
      a := NotifyWork;
    } else if s.pendingDone > 0 {
      a := NotifyDone;
    } else if s.caller.Resuming? {
      HeldRequestsCanMove(c, s);
      a := Action.Resume;
    } else {
      HeldRequestsCanMove(c, s);
      a := CallerLoop;
    }
  }

  /** Whatever a worker or the caller holds has its request and its result. */
  lemma HeldRequestsCanMove(c: Config, s: State)
    requires Placed(s, s.phase) && Recorded(s) && Counted(c, s)
    ensures s.executing != [] ==>
      s.executing[0] in s.live && Readable(c.input, s.live[s.executing[0]].asked, F.ReadAtResult(0, EIO))
    ensures s.finishing != [] ==> s.finishing[0] in s.live && s.finishing[0] in s.local
    ensures s.caller.Resuming? ==> s.caller.id in s.live
    ensures Poppable(s)
  {
    hide Holds, Alive, ReadOnce, Own, Named;
    HeldIsLive(s.executing, s.phase, Executing, s.live);
    HeldIsLive(s.finishing, s.phase, Read, s.live);
    HeldIsLive(s.completions, s.phase, Completed, s.live);
    HeldIsLive(PoppedBy(s.caller), s.phase, Popped, s.live);
    FinishingHasResult(s);
    if s.caller.Resuming? {
      assert PoppedBy(s.caller)[0] == s.caller.id;
    }
  }

  /** How many resumptions the call of `wait_one` that is under way still owes. */
  function Owed(s: State): nat {
    if s.caller.Idle? then 0 else 1
  }

  lemma ResumptionDelivers(s: State)
    requires Alive(s.live, s.phase) && s.caller.Resuming? && s.caller.id in s.live
    ensures AfterResumption(s).resumeLog == s.resumeLog + [s.caller.id]
  {
    hide Alive, AfterDelivery;
    LiveLength(s.live, s.phase, s.caller.id);
  }

  lemma StepResumes(c: Config, s: State, a: Action)
    requires Inv(c, s) && Enabled(c, s, a) && SystemStep(a)
    ensures var n := Next(c, s, a);
            s.resumeLog <= n.resumeLog && |n.resumeLog| + Owed(n) == |s.resumeLog| + Owed(s)
  {
    hide Placed, Counted, Woken, Own, Named, ReadOnce, Carried, Alive, AfterTakeWork, AfterExit, AfterSleep,
      AfterWorkerLoop, AfterWorkerRead, AfterWorkerFinish, AfterNotifyWork, AfterNotifyAll, AfterCallerLoop,
      AfterNotifyDone, AfterResumption;
    if a.Resume? {
      ResumptionDelivers(s);
    }
  }

  /** `wait_one` returns: what the backend and a waiting caller do on their own is finite, and when
      they can do nothing more the call that was under way has resumed exactly one coroutine, every
      accepted request has been read, and a shutdown has got rid of its workers. */
  lemma {:induction false} WaitOneReturns(c: Config, s: State, run: seq<Action>)
    requires Inv(c, s) && Legal(c, s, run) && forall a :: a in run ==> SystemStep(a)
    ensures |run| <= Measure(c, s)
    ensures var t := Exec(c, s, run);
            && s.resumeLog <= t.resumeLog
            && |t.resumeLog| + Owed(t) == |s.resumeLog| + Owed(s)
            && ((forall a :: SystemStep(a) ==> !Enabled(c, t, a)) ==> Settled(c, t) && Owed(t) == 0)
    decreases |run|
  {
    hide Inv, Settled, Enabled, Next, Measure, Owed;
    if run == [] {
      QuietIsSettled(c, s);
    } else {
      assert run[0] in run;
      StepDecreases(c, s, run[0]);
      StepResumes(c, s, run[0]);
      NextInv(c, s, run[0]);
      WaitOneReturns(c, Next(c, s, run[0]), run[1..]);
    }
  }

  /** A call of `wait_one` with requests in flight waits until it has resumed exactly one coroutine;
      with none in flight it leaves everything as it is. */
  lemma WaitOneResumesOne(c: Config, s: State, run: seq<Action>)
    requires Inv(c, s) && s.caller.Idle?
    requires Legal(c, Next(c, s, WaitOne), run) && forall a :: a in run ==> SystemStep(a)
    requires forall a :: SystemStep(a) ==> !Enabled(c, Exec(c, Next(c, s, WaitOne), run), a)
    ensures var t := Exec(c, Next(c, s, WaitOne), run);
            && t.caller.Idle? && s.resumeLog <= t.resumeLog
            && |t.resumeLog| == |s.resumeLog| + if s.inflight > 0 then 1 else 0
    ensures s.inflight == 0 ==> Next(c, s, WaitOne) == s
  {
    CallWaits(c, s);
    NextInv(c, s, WaitOne);
    hide Inv, Enabled, Next, Exec, Settled;
    WaitOneReturns(c, Next(c, s, WaitOne), run);
  }

  lemma CallWaits(c: Config, s: State)
    requires s.caller.Idle?
    ensures Enabled(c, s, WaitOne)
    ensures var n := Next(c, s, WaitOne);
            n.resumeLog == s.resumeLog && Owed(n) == (if s.inflight > 0 then 1 else 0) && (s.inflight == 0 ==> n == s)
  {
  }

  lemma QuietIsSettled(c: Config, s: State)
    requires Inv(c, s)
    ensures (forall a :: SystemStep(a) ==> !Enabled(c, s, a)) ==> Settled(c, s) && Owed(s) == 0
  {
    hide Inv, Enabled;
    if !Settled(c, s) {
      var a := Unsettled(c, s);
    }
  }

  // ----- complete_read -----

  lemma SubmitHistory(c: Config, s: State, asked: Asked)
    ensures var n := AfterSubmit(c, s, asked);
            && n.resumeLog == s.resumeLog && s.nextId <= n.nextId
            && (forall id :: id in s.asked && id < s.nextId ==> id in n.asked && n.asked[id] == s.asked[id])
            && (forall id :: id in s.buffers.lent && id < s.nextId ==>
                  id in n.buffers.lent && n.buffers.lent[id] == s.buffers.lent[id])
  {
  }

  lemma StepHistory(c: Config, s: State, a: Action)
    requires Enabled(c, s, a)
    ensures var n := Next(c, s, a);
            && s.resumeLog <= n.resumeLog && s.nextId <= n.nextId && (n.nextId == s.nextId || a.Submit?)
            && (forall id :: id in s.asked && id < s.nextId ==> id in n.asked && n.asked[id] == s.asked[id])
            && (forall id :: id in s.buffers.lent && id < s.nextId ==>
                  id in n.buffers.lent && n.buffers.lent[id] == s.buffers.lent[id])
  {
    hide AfterTakeWork, AfterExit, AfterSleep, AfterWorkerLoop, AfterWorkerRead, AfterWorkerFinish, AfterNotifyWork,
      AfterNotifyAll, WakeOne, AfterCallerLoop, AfterWaitOne, AfterStop, AfterWakeCaller, AfterNotifyDone,
      AfterReuse, SameRequests, AfterResumption, AfterSubmit;
    match a {
      case Submit(asked) => SubmitHistory(c, s, asked);
      case _ =>
    }
  }

  lemma {:induction false} RunOnlyResumes(c: Config, s: State, run: seq<Action>)
    requires Legal(c, s, run) && forall a :: a in run ==> !a.Submit?
    ensures s.resumeLog <= Exec(c, s, run).resumeLog && Exec(c, s, run).nextId == s.nextId
    decreases |run|
  {
    hide Enabled, Next;
    if run != [] {
      assert run[0] in run;
      StepHistory(c, s, run[0]);
      RunOnlyResumes(c, Next(c, s, run[0]), run[1..]);
    }
  }

  lemma IdleMeansResumed(c: Config, s: State)
    requires Inv(c, s) && s.caller.Idle?
    requires s.work == [] && s.executing == [] && s.finishing == [] && s.completions == []
    ensures forall id: nat :: id < s.nextId ==> id in s.resumeLog
  {
    hide Distinct, Alive, ReadOnce, Carried, Own, Shared, Counted, Woken;
    forall id: nat | id < s.nextId ensures id in s.resumeLog {
      assert id in s.phase;
      assert id !in s.work && id !in s.executing && id !in s.finishing && id !in s.completions;
      assert id !in PoppedBy(s.caller);
    }
  }

  lemma SubmitKeepsInv(c: Config, s: State, asked: Asked)
    requires Inv(c, s) && CanSubmit(s, asked)
    ensures Inv(c, AfterSubmit(c, s, asked))
  {
    hide Inv, CanSubmit;
    NextInv(c, s, Submit(asked));
  }

  /** The coroutine's own end of the read: it suspends at `start`, and its resumption ends it. */
  function PoolTask(value: int): TaskState<nat> {
    Apply(AfterStart(TaskState(Some(Suspended), false), Suspends), TaskOp.Resume(EndOf(Await(value))))
  }

  /** The synchronous coroutine ends at `start`. */
  function SyncTask(r: F.ReadAtResult): TaskState<nat> {
    AfterStart(TaskState(Some(Suspended), false), EndOf(SyncRead(r)))
  }

  /** What the caller of `result` is to get for a read with this outcome. */
  function ResultOf(r: F.ReadAtResult): TakeOutcome<nat> {
    if r.errno == 0 then Value(r.read) else Rethrown(r.errno)
  }

  function EndOf(r: Result<nat, int>): BodyStep<nat> {
    match r
    case Ok(n) => Returns(n)
    case Err(e) => Throws(e)
  }

  /** `complete_read` on a pool with nothing in flight: whatever the workers do, the first coroutine
      to be resumed is its own, it finds its buffer as the synchronous backend leaves it after the same
      read, its `Task` then is in the very state in which the synchronous backend leaves its own, and
      `result` hands out the byte count of the read or throws its errno. */
  lemma CompleteReadIsSynchronous(c: Config, s: State, asked: Asked, run: seq<Action>)
    requires Inv(c, s) && s.inflight == 0 && s.caller.Idle? && !s.stopping && asked.length <= INT_MAX
    requires CanSubmit(s, asked)
    requires Legal(c, AfterSubmit(c, s, asked), run) && forall a :: a in run ==> !a.Submit?
    requires var t := Exec(c, AfterSubmit(c, s, asked), run); |t.resumeLog| > |s.resumeLog|
    ensures var t := Exec(c, AfterSubmit(c, s, asked), run);
            && t.resumeLog == s.resumeLog + [s.nextId]
            && ServedLikeSync(c, t, s.nextId) && t.asked[s.nextId] == asked
            && t.buffers.lent[s.nextId] == s.buffers.memory[asked.dest]
            && PoolTask(t.delivered[s.nextId]) == SyncTask(t.readBy[s.nextId].result)
            && Outcome(PoolTask(t.delivered[s.nextId])) == ResultOf(t.readBy[s.nextId].result)
  {
    hide Inv, Legal, Exec, PoolTask, SyncTask, CanSubmit, ServedLikeSync, AfterSubmit, ResultOf, Outcome;
    var n := AfterSubmit(c, s, asked);
    var t := Exec(c, n, run);
    SubmitIsAccepted(c, s, asked);
    SubmitKeepsInv(c, s, asked);
    RunInv(c, n, run);
    RunOnlyResumes(c, n, run);
    IdleMeansResumed(c, s);
    OneNewResumption(c, s.resumeLog, t, s.nextId);
    AskedIsKept(c, n, run, s.nextId);
    FinalRead(c, t, s.nextId);
  }

  lemma SubmitIsAccepted(c: Config, s: State, asked: Asked)
    requires Inv(c, s) && s.inflight == 0 && !s.stopping && asked.length <= INT_MAX && CanSubmit(s, asked)
    ensures var n := AfterSubmit(c, s, asked);
            && n.nextId == s.nextId + 1 && n.resumeLog == s.resumeLog
            && s.nextId in n.asked && n.asked[s.nextId] == asked
            && s.nextId in n.buffers.lent && n.buffers.lent[s.nextId] == s.buffers.memory[asked.dest]
    ensures s.caller.Idle? ==> s.work == [] && s.executing == [] && s.finishing == [] && s.completions == []
  {
    hide Placed, Recorded;
  }

  lemma Newcomer(was: seq<nat>, now: seq<nat>, id: nat, phase: map<nat, Phase>, i: nat)
    requires was <= now && |was| <= i < |now| && Holds(now, phase, Done) && Named(phase, id + 1)
    requires forall k: nat :: k < id ==> k in was
    ensures now[i] == id && id in phase && phase[id] == Done
  {
    assert now[i] in now;
    assert now[i] !in was by {
      forall j | 0 <= j < |was| ensures was[j] != now[i] {
        assert now[j] == was[j];
      }
    }
    assert now[i] < id + 1;
  }

  lemma OneNewResumption(c: Config, was: seq<nat>, t: State, id: nat)
    requires Inv(c, t) && was <= t.resumeLog && |t.resumeLog| > |was| && t.nextId == id + 1
    requires forall k: nat :: k < id ==> k in was
    ensures t.resumeLog == was + [id] && id in t.phase && t.phase[id] == Done
  {
    hide Holds, Named, Alive, ReadOnce, Carried, Own, Shared, Counted, Woken;
    var now := t.resumeLog;
    Newcomer(was, now, id, t.phase, |was|);
    if |now| > |was| + 1 {
      Newcomer(was, now, id, t.phase, |was| + 1);
      Repeated(now, t.phase, |was|);
    }
  }

  lemma Repeated(q: seq<nat>, phase: map<nat, Phase>, i: nat)
    requires Holds(q, phase, Done) && i + 1 < |q|
    ensures q[i] != q[i + 1]
  {
  }

  lemma {:induction false} AskedIsKept(c: Config, s: State, run: seq<Action>, id: nat)
    requires Legal(c, s, run) && id in s.asked && id in s.buffers.lent && id < s.nextId
    ensures var t := Exec(c, s, run);
            && id in t.asked && t.asked[id] == s.asked[id]
            && id in t.buffers.lent && t.buffers.lent[id] == s.buffers.lent[id]
    decreases |run|
  {
    hide Enabled, Next;
    if run != [] {
      StepHistory(c, s, run[0]);
      AskedIsKept(c, Next(c, s, run[0]), run[1..], id);
    }
  }

  lemma FinalRead(c: Config, t: State, id: nat)
    requires Inv(c, t) && id in t.phase && t.phase[id] == Done
    ensures ServedLikeSync(c, t, id) && PoolTask(t.delivered[id]) == SyncTask(t.readBy[id].result)
    ensures Outcome(PoolTask(t.delivered[id])) == ResultOf(t.readBy[id].result)
  {
    hide Placed, Counted, Woken, Recorded, Shared;
    ResumedIsServed(c, t, id);
  }

  // ----- complete_read can return -----

  /** Request `id` is the only one not yet resumed, and if it was read, then with outcome `r`. */
  ghost predicate OnlyRequest(s: State, id: nat, asked: Asked, r: F.ReadAtResult) {
    && s.nextId == id + 1 && (forall k: nat :: k < id ==> k in s.resumeLog)
    && id in s.asked && s.asked[id] == asked && (id in s.readBy ==> s.readBy[id].result == r)
  }

  lemma UnresumedIsOnly(c: Config, s: State, id: nat, asked: Asked, r: F.ReadAtResult)
    requires Inv(c, s) && OnlyRequest(s, id, asked, r) && s.executing != []
    ensures s.executing[0] == id && id in s.live && s.live[id].asked == asked
  {
    hide Shared, Counted, Woken, Carried, ReadOnce;
    HeldPhase(s.executing, s.phase, Executing, 0);
    assert s.executing[0] !in s.resumeLog;
  }

  lemma StepKeepsOnly(c: Config, s: State, a: Action, id: nat, asked: Asked, r: F.ReadAtResult)
    requires Inv(c, s) && OnlyRequest(s, id, asked, r) && Enabled(c, s, a) && SystemStep(a)
    requires a.WorkerRead? ==> a.i == 0 && a.r == r
    ensures OnlyRequest(Next(c, s, a), id, asked, r)
  {
    hide Inv, Enabled, Next;
    StepHistory(c, s, a);
    PrefixMembers(s.resumeLog, Next(c, s, a).resumeLog);
    if a.WorkerRead? {
      FirstIsRead(c, s, a);
      UnresumedIsOnly(c, s, id, asked, r);
    } else {
      StepReads(c, s, a);
    }
  }

  lemma PrefixMembers(was: seq<nat>, now: seq<nat>)
    requires was <= now
    ensures forall k :: k in was ==> k in now
  {
    forall k | k in was ensures k in now {
      var i :| 0 <= i < |was| && was[i] == k;
      assert now[i] == k;
    }
  }

  lemma FirstIsRead(c: Config, s: State, a: Action)
    requires Enabled(c, s, a) && a.WorkerRead? && a.i == 0
    ensures s.executing != [] && s.executing[0] in s.live
    ensures Next(c, s, a).readBy == s.readBy[s.executing[0] := Performed(s.live[s.executing[0]].asked, a.r)]
  {
    hide SameHistory, AfterWorkerRead;
  }

  lemma StepReads(c: Config, s: State, a: Action)
    requires Enabled(c, s, a) && SystemStep(a) && !a.WorkerRead?
    ensures Next(c, s, a).readBy == s.readBy
  {
    hide SameHistory, AfterTakeWork, AfterExit, AfterSleep, AfterWorkerLoop, AfterWorkerFinish, AfterNotifyWork,
      AfterNotifyAll, AfterCallerLoop, AfterNotifyDone, AfterResumption;
  }

  /** The backend and a waiting caller can go on until nothing is left to do, with `r` as the outcome of
      the one read that is outstanding. */
  lemma Settle(c: Config, s: State, id: nat, asked: Asked, r: F.ReadAtResult) returns (run: seq<Action>)
    requires Inv(c, s) && OnlyRequest(s, id, asked, r) && Readable(c.input, asked, r)
    ensures Legal(c, s, run) && (forall a :: a in run ==> SystemStep(a))
    ensures var t := Exec(c, s, run); Settled(c, t) && OnlyRequest(t, id, asked, r)
    decreases Measure(c, s)
  {
    hide Inv, OnlyRequest, Settled, Enabled, Next, Measure, Readable;
    if Settled(c, s) {
      run := [];
    } else {
      var a := Unsettled(c, s);
      if a.WorkerRead? {
        a := ReadWith(c, s, a, id, asked, r);
      }
      NextInv(c, s, a);
      StepDecreases(c, s, a);
      StepKeepsOnly(c, s, a, id, asked, r);
      var rest := Settle(c, Next(c, s, a), id, asked, r);
      run := [a] + rest;
      assert run[1..] == rest;
    }
  }

  lemma ReadWith(c: Config, s: State, was: Action, id: nat, asked: Asked, r: F.ReadAtResult) returns (a: Action)
    requires Inv(c, s) && OnlyRequest(s, id, asked, r) && Readable(c.input, asked, r)
    requires was.WorkerRead? && Enabled(c, s, was)
    ensures a == WorkerRead(0, r) && Enabled(c, s, a)
  {
    UnresumedIsOnly(c, s, id, asked, r);
    hide Inv, Readable;
    a := WorkerRead(0, r);
  }

  /** `complete_read` can return for every outcome that its read can have: after its submission on a quiet
      pool there is a run in which it calls `wait_one` once, the read has that outcome, and its own
      coroutine is resumed. */
  lemma CompleteReadCanReturn(c: Config, s: State, asked: Asked, r: F.ReadAtResult) returns (run: seq<Action>)
    requires Inv(c, s) && s.inflight == 0 && s.caller.Idle? && !s.stopping && asked.length <= INT_MAX
    requires CanSubmit(s, asked) && Readable(c.input, asked, r)
    ensures Legal(c, AfterSubmit(c, s, asked), run)
    ensures forall a :: a in run ==> !a.Submit?
    ensures var t := Exec(c, AfterSubmit(c, s, asked), run);
            && t.caller.Idle? && t.resumeLog == s.resumeLog + [s.nextId]
            && s.nextId in t.readBy && t.readBy[s.nextId].result == r
  {
    hide Inv, OnlyRequest, Enabled, Next, Measure, Readable, AfterSubmit, PoolReport, SyncReport, PoolTask, SyncTask,
      CanSubmit, Legal, Exec, Outcome, ResultOf;
    var n := AfterSubmit(c, s, asked);
    FirstSubmission(c, s, asked, r);
    SubmitKeepsInv(c, s, asked);
    CallWaits(c, n);
    NextInv(c, n, WaitOne);
    WaitKeepsOnly(c, n, s.nextId, asked, r);
    var rest := Settle(c, Next(c, n, WaitOne), s.nextId, asked, r);
    WaitOneReturns(c, Next(c, n, WaitOne), rest);
    run := [WaitOne] + rest;
    Prepend(c, n, WaitOne, rest);
    CompleteReadIsSynchronous(c, s, asked, run);
    OnlyReadWith(Exec(c, n, run), s.nextId, asked, r);
  }

  lemma Prepend(c: Config, s: State, a: Action, rest: seq<Action>)
    requires Enabled(c, s, a) && Legal(c, Next(c, s, a), rest)
    ensures Legal(c, s, [a] + rest) && Exec(c, s, [a] + rest) == Exec(c, Next(c, s, a), rest)
  {
    hide Enabled, Next;
    assert ([a] + rest)[1..] == rest;
  }

  lemma OnlyReadWith(t: State, id: nat, asked: Asked, r: F.ReadAtResult)
    requires OnlyRequest(t, id, asked, r)
    ensures id in t.readBy ==> t.readBy[id].result == r
  {
  }

  lemma WaitKeepsOnly(c: Config, s: State, id: nat, asked: Asked, r: F.ReadAtResult)
    requires OnlyRequest(s, id, asked, r) && s.caller.Idle?
    ensures Enabled(c, s, WaitOne) && OnlyRequest(Next(c, s, WaitOne), id, asked, r)
  {
  }

  lemma FirstSubmission(c: Config, s: State, asked: Asked, r: F.ReadAtResult)
    requires Inv(c, s) && s.inflight == 0 && s.caller.Idle? && !s.stopping && asked.length <= INT_MAX
    requires CanSubmit(s, asked)
    ensures var n := AfterSubmit(c, s, asked);
            && OnlyRequest(n, s.nextId, asked, r) && n.caller.Idle? && n.inflight > 0 && n.resumeLog == s.resumeLog
  {
    SubmitIsAccepted(c, s, asked);
    IdleMeansResumed(c, s);
    NewIsUnread(s);
    hide Placed, Recorded, Shared, Counted, Woken;
  }

  lemma NewIsUnread(s: State)
    requires Recorded(s)
    ensures s.nextId !in s.readBy
  {
    hide Carried, Alive;
    assert s.nextId !in s.phase;
  }
}
