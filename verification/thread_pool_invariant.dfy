/** What every step of the thread-pool backend keeps. */
module ThreadPoolInvariant {
  import opened Base
  import opened Coroutines
  import opened ThreadPool
  import F = FileIo

  predicate Distinct(q: seq<nat>) {
    forall i, j :: 0 <= i < j < |q| ==> q[i] != q[j]
  }

  /** A container holds exactly the requests of one phase, each once. */
  ghost predicate Holds(q: seq<nat>, phase: map<nat, Phase>, p: Phase) {
    Distinct(q) && forall id: nat :: id in q <==> id in phase && phase[id] == p
  }

  ghost predicate Placed(s: State, phase: map<nat, Phase>) {
    && Holds(s.work, phase, Queued) && Holds(s.executing, phase, Executing)
    && Holds(s.finishing, phase, Read) && Holds(s.completions, phase, Completed)
    && Holds(PoppedBy(s.caller), phase, Popped) && Holds(s.resumeLog, phase, Done)
  }

  ghost predicate Named(phase: map<nat, Phase>, nextId: nat) {
    forall id: nat :: id in phase <==> id < nextId
  }

  /** The awaiter of a request exists until its coroutine is resumed, and until then it holds a
      continuation that nobody has resumed. */
  ghost predicate Alive(live: map<nat, ReadRequest>, phase: map<nat, Phase>) {
    && (forall id: nat :: id in live <==> id in phase && phase[id] != Done)
    && (forall id: nat :: id in live ==>
          live[id].completion == RequestState(true, false, 0) && live[id].asked.length <= INT_MAX)
  }

  predicate AfterReading(p: Phase) {
    !p.Queued? && !p.Executing?
  }

  /** A request has been read exactly when it has left its worker's hands or is about to. */
  ghost predicate ReadOnce(phase: map<nat, Phase>, readBy: map<nat, Performed>, readLog: seq<nat>) {
    && Distinct(readLog)
    && (forall id: nat :: id in readLog <==> id in phase && AfterReading(phase[id]))
    && (forall id: nat :: id in readBy <==> id in phase && AfterReading(phase[id]))
  }

  /** Every copy of a result is the encoding of what that request's read returned. */
  ghost predicate Carried(phase: map<nat, Phase>, readBy: map<nat, Performed>, local: map<nat, int>,
      live: map<nat, ReadRequest>, caller: Caller, delivered: map<nat, int>)
  {
    && (forall id: nat :: id in phase && phase[id] == Read ==>
          id in local && id in readBy && local[id] == Encode(readBy[id].result))
    && (forall id: nat :: id in phase && phase[id] == Completed ==>
          id in live && id in readBy && live[id].result == Encode(readBy[id].result))
    && (caller.Resuming? ==> caller.id in readBy && caller.value == Encode(readBy[caller.id].result))
    && (forall id: nat :: id in delivered <==> id in phase && phase[id] == Done)
    && (forall id: nat :: id in delivered ==> id in readBy && delivered[id] == Encode(readBy[id].result))
  }

  /** Every request is read with its own parameters. */
  ghost predicate Own(asked: map<nat, Asked>, live: map<nat, ReadRequest>, readBy: map<nat, Performed>, nextId: nat) {
    && (forall id: nat :: id in asked <==> id < nextId)
    && (forall id: nat :: id in live ==> id in asked && live[id].asked == asked[id])
    && (forall id: nat :: id in readBy ==> id in asked && readBy[id].asked == asked[id])
  }

  ghost predicate Recorded(s: State) {
    && Own(s.asked, s.live, s.readBy, s.nextId)
    && Named(s.phase, s.nextId) && Alive(s.live, s.phase) && ReadOnce(s.phase, s.readBy, s.readLog)
    && Carried(s.phase, s.readBy, s.local, s.live, s.caller, s.delivered)
  }

  /** Every outcome is one that a read of that request can have, and fits a completion. */
  ghost predicate Honest(input: seq<byte>, readBy: map<nat, Performed>) {
    forall id: nat :: id in readBy ==>
      readBy[id].asked.length <= INT_MAX && Readable(input, readBy[id].asked, readBy[id].result)
  }

  /** A request that has not been resumed has a buffer of its own, of the length it asked for. */
  ghost predicate Lending(asked: map<nat, Asked>, live: map<nat, ReadRequest>, b: Buffers) {
    && (forall id: nat :: id in b.lent <==> id in asked)
    && (forall id: nat :: id in b.lent ==> |b.lent[id]| == asked[id].length)
    && (forall id: nat :: id in live ==>
          id in asked && live[id].asked.dest in b.memory && |b.memory[live[id].asked.dest]| == asked[id].length)
    && (forall id: nat, other: nat :: id in live && other in live && live[id].asked.dest == live[other].asked.dest ==>
          id == other)
  }

  /** Until it is read that buffer holds what it held when it was lent; from then on it also holds the
      bytes that were read. */
  ghost predicate Filled(input: seq<byte>, live: map<nat, ReadRequest>, phase: map<nat, Phase>,
      readBy: map<nat, Performed>, b: Buffers)
  {
    forall id: nat :: id in live ==> BufferFilled(input, live, phase, readBy, b, id)
  }

  ghost predicate BufferFilled(input: seq<byte>, live: map<nat, ReadRequest>, phase: map<nat, Phase>,
      readBy: map<nat, Performed>, b: Buffers, id: nat)
    requires id in live
  {
    var dest := live[id].asked.dest;
    && id in phase && id in b.lent && dest in b.memory
    && (AfterReading(phase[id]) ==> id in readBy)
    && b.memory[dest] ==
       if AfterReading(phase[id]) then ReadInto(b.lent[id], input, live[id].asked.offset, readBy[id].result)
       else b.lent[id]
  }

  /** And that is what it held when the coroutine was resumed. */
  ghost predicate Received(input: seq<byte>, phase: map<nat, Phase>, readBy: map<nat, Performed>, b: Buffers) {
    && (forall id: nat :: id in b.received <==> id in phase && phase[id] == Done)
    && (forall id: nat :: id in b.received ==>
          id in readBy && id in b.lent
          && b.received[id] == ReadInto(b.lent[id], input, readBy[id].asked.offset, readBy[id].result))
  }

  ghost predicate Shared(c: Config, s: State) {
    && Honest(c.input, s.readBy) && Lending(s.asked, s.live, s.buffers)
    && Filled(c.input, s.live, s.phase, s.readBy, s.buffers) && Received(c.input, s.phase, s.readBy, s.buffers)
  }

  /** Every request in flight is queued, with a worker, or completed; every worker is accounted for. */
  predicate Counted(c: Config, s: State) {
    Tally(c.maxInflight, s.inflight, |s.work| + |s.executing| + |s.finishing| + |s.completions|)
    && Crew(c.workers, s.looping, s.asleep, s.exited, |s.executing| + |s.finishing|)
  }

  predicate Tally(maxInflight: nat, inflight: nat, requests: nat) {
    inflight == requests <= maxInflight
  }

  predicate Crew(workers: nat, looping: nat, asleep: nat, exited: nat, busy: nat) {
    looping + asleep + exited + busy == workers
  }

  /** No wakeup is lost, for the workers and for the caller. */
  predicate Woken(s: State) {
    && WorkersWoken(s.asleep, s.looping, s.exited, |s.work|, s.pendingWork, s.pendingAll, s.stopping)
    && CallerWoken(s.caller, s.inflight, |s.completions|, s.pendingDone)
  }

  /** Beside a sleeping worker, every queued request has a worker that is awake or a notification on
      its way, and once shutdown has begun everyone is about to be notified. Workers leave only after
      the queue has run dry for good. */
  predicate WorkersWoken(asleep: nat, looping: nat, exited: nat, queued: nat, pendingWork: nat,
      pendingAll: bool, stopping: bool)
  {
    && (asleep > 0 ==> pendingAll || (!stopping && queued <= looping + pendingWork))
    && (pendingAll ==> stopping)
    && (exited > 0 ==> stopping && queued == 0)
  }

  /** A sleeping caller has a notification on its way when a completion is ready, and it waits only
      while a request is in flight. */
  predicate CallerWoken(caller: Caller, inflight: nat, ready: nat, pendingDone: nat) {
    && (caller.Sleeping? && ready > 0 ==> pendingDone > 0)
    && (caller.Looking? || caller.Sleeping? ==> inflight > 0)
  }

  ghost predicate Inv(c: Config, s: State) {
    Accepted(c) && Placed(s, s.phase) && Recorded(s) && Shared(c, s) && Counted(c, s) && Woken(s)
  }

  lemma InitInv(c: Config)
    requires Accepted(c)
    ensures Inv(c, Init(c))
  {
  }

  // ----- containers -----

  lemma HoldsMore(q: seq<nat>, phase: map<nat, Phase>, p: Phase, id: nat)
    requires Holds(q, phase, p) && !(id in phase && phase[id] == p)
    ensures Holds(q + [id], phase[id := p], p)
  {
    var n := q + [id];
    assert id !in q;
    forall k: nat ensures k in n <==> k in phase[id := p] && phase[id := p][k] == p {
      assert k in n <==> k in q || k == id;
    }
  }

  lemma HoldsLess(q: seq<nat>, phase: map<nat, Phase>, p: Phase, i: nat, other: Phase)
    requires Holds(q, phase, p) && i < |q| && other != p
    ensures Holds(RemoveAt(q, i), phase[q[i] := other], p)
    ensures i == |q| - 1 ==> RemoveAt(q, i) == q[..i]
  {
    var n := RemoveAt(q, i);
    assert q == q[..i] + [q[i]] + q[i + 1..];
    forall k: nat ensures k in n <==> k in q && k != q[i] {
      assert k in q <==> k in q[..i] || k == q[i] || k in q[i + 1..];
    }
  }

  lemma HoldsSame(q: seq<nat>, phase: map<nat, Phase>, p: Phase, id: nat, other: Phase)
    requires Holds(q, phase, p) && other != p && !(id in phase && phase[id] == p)
    ensures Holds(q, phase[id := other], p)
  {
  }

  /** The containers of the phases that a request neither leaves nor enters. */
  lemma OthersSame(s: State, id: nat, to: Phase)
    requires Placed(s, s.phase)
    ensures var m := s.phase[id := to]; var was := if id in s.phase then Some(s.phase[id]) else None;
            && (was != Some(Queued) && to != Queued ==> Holds(s.work, m, Queued))
            && (was != Some(Executing) && to != Executing ==> Holds(s.executing, m, Executing))
            && (was != Some(Read) && to != Read ==> Holds(s.finishing, m, Read))
            && (was != Some(Completed) && to != Completed ==> Holds(s.completions, m, Completed))
            && (was != Some(Popped) && to != Popped ==> Holds(PoppedBy(s.caller), m, Popped))
            && (was != Some(Done) && to != Done ==> Holds(s.resumeLog, m, Done))
  {
    hide Holds;
    var was := if id in s.phase then Some(s.phase[id]) else None;
    if was != Some(Queued) && to != Queued { HoldsSame(s.work, s.phase, Queued, id, to); }
    if was != Some(Executing) && to != Executing { HoldsSame(s.executing, s.phase, Executing, id, to); }
    if was != Some(Read) && to != Read { HoldsSame(s.finishing, s.phase, Read, id, to); }
    if was != Some(Completed) && to != Completed { HoldsSame(s.completions, s.phase, Completed, id, to); }
    if was != Some(Popped) && to != Popped { HoldsSame(PoppedBy(s.caller), s.phase, Popped, id, to); }
    if was != Some(Done) && to != Done { HoldsSame(s.resumeLog, s.phase, Done, id, to); }
  }

  lemma HeldPhase(q: seq<nat>, phase: map<nat, Phase>, p: Phase, i: nat)
    requires Holds(q, phase, p) && i < |q|
    ensures q[i] in phase && phase[q[i]] == p
  {
    assert q[i] in q;
  }

  // ----- the steps: containers -----

  lemma SubmitKeepsPlaced(c: Config, s: State, asked: Asked)
    requires Placed(s, s.phase) && Named(s.phase, s.nextId)
    ensures var n := AfterSubmit(c, s, asked); Placed(n, n.phase)
  {
    OthersSame(s, s.nextId, Queued);
    assert s.nextId !in s.phase;
    HoldsMore(s.work, s.phase, Queued, s.nextId);
    hide Holds;
  }

  lemma WorkerLoopKeepsPlaced(s: State)
    requires Placed(s, s.phase) && s.looping > 0
    ensures var n := AfterWorkerLoop(s); Placed(n, n.phase)
  {
    hide Holds;
    if s.work != [] {
      var i := |s.work| - 1;
      HeldPhase(s.work, s.phase, Queued, i);
      OthersSame(s, s.work[i], Executing);
      HoldsLess(s.work, s.phase, Queued, i, Executing);
      HoldsMore(s.executing, s.phase, Executing, s.work[i]);
    }
  }

  lemma WorkerReadKeepsPlaced(c: Config, s: State, i: nat, r: F.ReadAtResult)
    requires Placed(s, s.phase) && i < |s.executing| && s.executing[i] in s.live
    ensures var n := AfterWorkerRead(c, s, i, r); Placed(n, n.phase)
  {
    hide Holds;
    HeldPhase(s.executing, s.phase, Executing, i);
    OthersSame(s, s.executing[i], Read);
    HoldsLess(s.executing, s.phase, Executing, i, Read);
    HoldsMore(s.finishing, s.phase, Read, s.executing[i]);
  }

  lemma WorkerFinishKeepsPlaced(c: Config, s: State, i: nat)
    requires Placed(s, s.phase) && Enabled(c, s, WorkerFinish(i))
    ensures var n := AfterWorkerFinish(s, i); Placed(n, n.phase)
  {
    hide Holds;
    HeldPhase(s.finishing, s.phase, Read, i);
    OthersSame(s, s.finishing[i], Completed);
    HoldsLess(s.finishing, s.phase, Read, i, Completed);
    HoldsMore(s.completions, s.phase, Completed, s.finishing[i]);
  }

  lemma CallerLoopKeepsPlaced(c: Config, s: State)
    requires Poppable(s) && s.caller.Looking? && Placed(s, s.phase)
    ensures var n := AfterCallerLoop(s); Placed(n, n.phase)
  {
    hide Holds;
    if s.completions != [] {
      var i := |s.completions| - 1;
      HeldPhase(s.completions, s.phase, Completed, i);
      OthersSame(s, s.completions[i], Popped);
      HoldsLess(s.completions, s.phase, Completed, i, Popped);
      HoldsMore([], s.phase, Popped, s.completions[i]);
      assert [] + [s.completions[i]] == [s.completions[i]];
    }
  }

  lemma ResumeKeepsPlaced(c: Config, s: State)
    requires Placed(s, s.phase) && Enabled(c, s, Action.Resume) && Alive(s.live, s.phase)
    ensures var n := AfterResumption(s); Placed(n, n.phase)
  {
    hide Holds, Alive;
    HeldPhase([s.caller.id], s.phase, Popped, 0);
    LiveLength(s.live, s.phase, s.caller.id);
    OthersSame(s, s.caller.id, Done);
    HoldsLess([s.caller.id], s.phase, Popped, 0, Done);
    assert RemoveAt([s.caller.id], 0) == [];
    HoldsMore(s.resumeLog, s.phase, Done, s.caller.id);
  }

  lemma SignalPlaced(s: State, n: State)
    requires Placed(s, s.phase) && SameRequests(s, n) && SameHistory(s, n)
    ensures Placed(n, n.phase)
  {
    hide Holds, PoppedBy;
  }

  lemma SignalRecorded(s: State, n: State)
    requires Recorded(s) && SameRequests(s, n) && SameHistory(s, n)
    ensures Recorded(n)
  {
    hide Alive, ReadOnce, Named, Carried, Own, PoppedBy;
    if !n.caller.Resuming? {
      CallerLeaves(s, n.caller);
    }
  }

  lemma NextPlaced(c: Config, s: State, a: Action)
    requires Placed(s, s.phase) && Recorded(s) && Enabled(c, s, a)
    ensures var n := Next(c, s, a); Placed(n, n.phase)
  {
    hide Placed, Alive, ReadOnce, Carried, Named, Own, SameRequests, SameHistory, AfterSubmit, AfterWorkerLoop,
      AfterWorkerRead, AfterWorkerFinish, AfterCallerLoop, AfterResumption, AfterNotifyWork, AfterNotifyAll,
      AfterNotifyDone, AfterWaitOne, AfterStop, WakeOne, AfterWakeCaller, AfterReuse;
    match a {
      case Submit(asked) => SubmitKeepsPlaced(c, s, asked);
      case WorkerLoop => WorkerLoopKeepsPlaced(s);
      case WorkerRead(i, r) => WorkerReadKeepsPlaced(c, s, i, r);
      case WorkerFinish(i) => WorkerFinishKeepsPlaced(c, s, i);
      case CallerLoop => CallerLoopKeepsPlaced(c, s);
      case Resume => ResumeKeepsPlaced(c, s);
      case _ => SignalPlaced(s, Next(c, s, a));
    }
  }

  // ----- the steps: records -----

  lemma NamedMove(phase: map<nat, Phase>, nextId: nat, id: nat, to: Phase)
    requires Named(phase, nextId) && id in phase
    ensures Named(phase[id := to], nextId)
  {
  }

  lemma AliveMove(live: map<nat, ReadRequest>, phase: map<nat, Phase>, id: nat, to: Phase)
    requires Alive(live, phase) && id in phase && phase[id] != Done && to != Done
    ensures Alive(live, phase[id := to])
  {
  }

  lemma AliveStored(live: map<nat, ReadRequest>, phase: map<nat, Phase>, id: nat, v: int)
    requires Alive(live, phase) && id in live
    ensures Alive(live[id := live[id].(result := v)], phase)
  {
  }

  lemma AliveEnds(live: map<nat, ReadRequest>, phase: map<nat, Phase>, id: nat)
    requires Alive(live, phase)
    ensures Alive(live - {id}, phase[id := Done])
  {
  }

  lemma ReadOnceMove(phase: map<nat, Phase>, readBy: map<nat, Performed>, log: seq<nat>, id: nat, to: Phase)
    requires ReadOnce(phase, readBy, log) && id in phase && AfterReading(phase[id]) == AfterReading(to)
    ensures ReadOnce(phase[id := to], readBy, log)
  {
  }

  lemma ReadOnceReads(phase: map<nat, Phase>, readBy: map<nat, Performed>, log: seq<nat>, id: nat,
      r: Performed)
    requires ReadOnce(phase, readBy, log) && id in phase && phase[id] == Executing
    ensures ReadOnce(phase[id := Read], readBy[id := r], log + [id])
  {
    var n := log + [id];
    assert id !in log;
    forall k: nat ensures k in n <==> k in log || k == id {
    }
  }

  lemma OwnReads(asked: map<nat, Asked>, live: map<nat, ReadRequest>, readBy: map<nat, Performed>, nextId: nat,
      id: nat, r: F.ReadAtResult)
    requires Own(asked, live, readBy, nextId) && id in live
    ensures Own(asked, live, readBy[id := Performed(live[id].asked, r)], nextId)
  {
  }

  lemma OwnKept(asked: map<nat, Asked>, live: map<nat, ReadRequest>, readBy: map<nat, Performed>, nextId: nat,
      id: nat, v: int)
    requires Own(asked, live, readBy, nextId) && id in live
    ensures Own(asked, live[id := live[id].(result := v)], readBy, nextId)
    ensures Own(asked, live - {id}, readBy, nextId)
  {
  }

  lemma CarriedLooks(s: State, id: nat)
    requires Carried(s.phase, s.readBy, s.local, s.live, s.caller, s.delivered)
    requires id in s.phase && s.phase[id] == Queued
    ensures Carried(s.phase[id := Executing], s.readBy, s.local, s.live, s.caller, s.delivered)
  {
  }

  lemma CarriedReads(s: State, id: nat, r: Performed)
    requires Carried(s.phase, s.readBy, s.local, s.live, s.caller, s.delivered)
    requires id in s.phase && s.phase[id] == Executing && id !in s.readBy
    ensures Carried(s.phase[id := Read], s.readBy[id := r], s.local[id := Encode(r.result)], s.live, s.caller, s.delivered)
  {
    hide Encode;
  }

  lemma CarriedFinishes(s: State, id: nat)
    requires Carried(s.phase, s.readBy, s.local, s.live, s.caller, s.delivered)
    requires id in s.phase && s.phase[id] == Read && id in s.live && id in s.local
    ensures Carried(s.phase[id := Completed], s.readBy, s.local,
      s.live[id := s.live[id].(result := s.local[id])], s.caller, s.delivered)
  {
    hide Encode;
  }

  lemma CarriedPops(s: State, id: nat)
    requires Carried(s.phase, s.readBy, s.local, s.live, s.caller, s.delivered)
    requires id in s.phase && s.phase[id] == Completed && id in s.live
    ensures Carried(s.phase[id := Popped], s.readBy, s.local, s.live, Resuming(id, s.live[id].result), s.delivered)
  {
    hide Encode;
  }

  lemma CarriedResumes(s: State, id: nat)
    requires Carried(s.phase, s.readBy, s.local, s.live, s.caller, s.delivered)
    requires s.caller.Resuming? && id == s.caller.id && id in s.phase && s.phase[id] == Popped
    ensures Carried(s.phase[id := Done], s.readBy, s.local, s.live - {id}, Idle, s.delivered[id := s.caller.value])
  {
    hide Encode;
  }

  lemma NewNamed(phase: map<nat, Phase>, nextId: nat)
    requires Named(phase, nextId)
    ensures nextId !in phase && Named(phase[nextId := Queued], nextId + 1)
  {
  }

  lemma NewOwn(asked: map<nat, Asked>, live: map<nat, ReadRequest>, readBy: map<nat, Performed>, nextId: nat,
      r: ReadRequest)
    requires Own(asked, live, readBy, nextId)
    ensures Own(asked[nextId := r.asked], live[nextId := r], readBy, nextId + 1)
  {
  }

  lemma NewCarried(s: State, id: nat, r: ReadRequest)
    requires Carried(s.phase, s.readBy, s.local, s.live, s.caller, s.delivered) && id !in s.phase
    ensures Carried(s.phase[id := Queued], s.readBy, s.local, s.live[id := r], s.caller, s.delivered)
  {
    hide Encode;
  }

  lemma NewAlive(live: map<nat, ReadRequest>, phase: map<nat, Phase>, id: nat, r: ReadRequest)
    requires Alive(live, phase) && id !in phase
    requires r.completion == RequestState(true, false, 0) && r.asked.length <= INT_MAX
    ensures Alive(live[id := r], phase[id := Queued])
  {
  }

  lemma NewReadOnce(phase: map<nat, Phase>, readBy: map<nat, Performed>, log: seq<nat>, id: nat)
    requires ReadOnce(phase, readBy, log) && id !in phase
    ensures ReadOnce(phase[id := Queued], readBy, log)
  {
  }

  lemma SubmitKeepsRecords(c: Config, s: State, asked: Asked)
    requires Recorded(s)
    ensures Recorded(AfterSubmit(c, s, asked))
  {
    hide Named, Alive, ReadOnce, Carried, Own;
    if asked.length <= INT_MAX {
      var request := ReadRequest(asked, AfterSet(FRESH_REQUEST, true), 0);
      NewNamed(s.phase, s.nextId);
      NewOwn(s.asked, s.live, s.readBy, s.nextId, request);
      NewAlive(s.live, s.phase, s.nextId, request);
      NewReadOnce(s.phase, s.readBy, s.readLog, s.nextId);
      NewCarried(s, s.nextId, request);
    }
  }

  lemma WorkerLoopKeepsRecords(s: State)
    requires Recorded(s) && Placed(s, s.phase) && s.looping > 0
    ensures Recorded(AfterWorkerLoop(s))
  {
    hide Holds, Named, Alive, ReadOnce, Carried, Own;
    if s.work != [] {
      var id := s.work[|s.work| - 1];
      HeldPhase(s.work, s.phase, Queued, |s.work| - 1);
      NamedMove(s.phase, s.nextId, id, Executing);
      AliveMove(s.live, s.phase, id, Executing);
      ReadOnceMove(s.phase, s.readBy, s.readLog, id, Executing);
      CarriedLooks(s, id);
    }
  }

  lemma ExecutingIsUnread(phase: map<nat, Phase>, readBy: map<nat, Performed>, log: seq<nat>, id: nat)
    requires ReadOnce(phase, readBy, log) && id in phase && phase[id] == Executing
    ensures id !in readBy
  {
  }

  lemma LiveLength(live: map<nat, ReadRequest>, phase: map<nat, Phase>, id: nat)
    requires Alive(live, phase) && id in live
    ensures live[id].asked.length <= INT_MAX && CompleteResult(live[id].completion, false).Resumed?
  {
  }

  lemma WorkerReadKeepsRecords(c: Config, s: State, i: nat, r: F.ReadAtResult)
    requires Recorded(s) && Placed(s, s.phase) && Enabled(c, s, WorkerRead(i, r))
    ensures Recorded(AfterWorkerRead(c, s, i, r))
  {
    hide Holds, Named, Alive, ReadOnce, Carried, Own, Encode;
    var id := s.executing[i];
    var done := Performed(s.live[id].asked, r);
    OwnReads(s.asked, s.live, s.readBy, s.nextId, id, r);
    HeldPhase(s.executing, s.phase, Executing, i);
    LiveLength(s.live, s.phase, id);
    ExecutingIsUnread(s.phase, s.readBy, s.readLog, id);
    NamedMove(s.phase, s.nextId, id, Read);
    AliveMove(s.live, s.phase, id, Read);
    ReadOnceReads(s.phase, s.readBy, s.readLog, id, done);
    CarriedReads(s, id, done);
  }

  lemma WorkerFinishKeepsRecords(c: Config, s: State, i: nat)
    requires i < |s.finishing| && s.finishing[i] in s.live && s.finishing[i] in s.local
    requires Recorded(s) && Placed(s, s.phase)
    ensures Recorded(AfterWorkerFinish(s, i))
  {
    hide Holds, Named, Alive, ReadOnce, Carried, Own;
    var id := s.finishing[i];
    HeldPhase(s.finishing, s.phase, Read, i);
    NamedMove(s.phase, s.nextId, id, Completed);
    AliveMove(s.live, s.phase, id, Completed);
    AliveStored(s.live, s.phase[id := Completed], id, s.local[id]);
    OwnKept(s.asked, s.live, s.readBy, s.nextId, id, s.local[id]);
    ReadOnceMove(s.phase, s.readBy, s.readLog, id, Completed);
    CarriedFinishes(s, id);
  }

  lemma CallerLoopKeepsRecords(c: Config, s: State)
    requires Poppable(s) && Recorded(s) && Placed(s, s.phase)
    ensures Recorded(AfterCallerLoop(s))
  {
    hide Holds, Named, Alive, ReadOnce, Carried, Own;
    if s.completions != [] {
      var id := s.completions[|s.completions| - 1];
      HeldPhase(s.completions, s.phase, Completed, |s.completions| - 1);
      NamedMove(s.phase, s.nextId, id, Popped);
      AliveMove(s.live, s.phase, id, Popped);
      ReadOnceMove(s.phase, s.readBy, s.readLog, id, Popped);
      CarriedPops(s, id);
    } else {
      CallerLeaves(s, Sleeping);
    }
  }

  /** A caller that holds no request carries no result. */
  lemma CallerLeaves(s: State, caller: Caller)
    requires Carried(s.phase, s.readBy, s.local, s.live, s.caller, s.delivered) && !caller.Resuming?
    ensures Carried(s.phase, s.readBy, s.local, s.live, caller, s.delivered)
  {
  }

  lemma ResumeKeepsRecords(c: Config, s: State)
    requires s.caller.Resuming? && s.caller.id in s.live && Recorded(s) && Placed(s, s.phase)
    ensures Recorded(AfterResumption(s))
  {
    hide Holds, Named, Alive, ReadOnce, Carried, Own;
    var id := s.caller.id;
    HeldPhase([s.caller.id], s.phase, Popped, 0);
    LiveLength(s.live, s.phase, id);
    NamedMove(s.phase, s.nextId, id, Done);
    AliveEnds(s.live, s.phase, id);
    OwnKept(s.asked, s.live, s.readBy, s.nextId, id, 0);
    ReadOnceMove(s.phase, s.readBy, s.readLog, id, Done);
    CarriedResumes(s, id);
  }

  lemma NextRecorded(c: Config, s: State, a: Action)
    requires Placed(s, s.phase) && Recorded(s) && Enabled(c, s, a)
    ensures Recorded(Next(c, s, a))
  {
    hide Placed, Recorded, SameRequests, SameHistory, AfterSubmit, AfterWorkerLoop, AfterWorkerRead,
      AfterWorkerFinish, AfterCallerLoop, AfterResumption, AfterNotifyWork, AfterNotifyAll, AfterNotifyDone,
      AfterWaitOne, AfterStop, WakeOne, AfterWakeCaller, AfterReuse;
    match a {
      case Submit(asked) => SubmitKeepsRecords(c, s, asked);
      case WorkerLoop => WorkerLoopKeepsRecords(s);
      case WorkerRead(i, r) => WorkerReadKeepsRecords(c, s, i, r);
      case WorkerFinish(i) => WorkerFinishKeepsRecords(c, s, i);
      case CallerLoop => CallerLoopKeepsRecords(c, s);
      case Resume => ResumeKeepsRecords(c, s);
      case _ => SignalRecorded(s, Next(c, s, a));
    }
  }

  // ----- the steps: buffers -----

  lemma FilledMove(input: seq<byte>, live: map<nat, ReadRequest>, phase: map<nat, Phase>,
      readBy: map<nat, Performed>, b: Buffers, id: nat, to: Phase)
    requires Filled(input, live, phase, readBy, b) && id in phase && AfterReading(phase[id]) == AfterReading(to)
    ensures Filled(input, live, phase[id := to], readBy, b)
  {
    hide ReadInto;
    forall k: nat | k in live ensures BufferFilled(input, live, phase[id := to], readBy, b, k) {
      assert BufferFilled(input, live, phase, readBy, b, k);
    }
  }

  lemma FilledStored(input: seq<byte>, live: map<nat, ReadRequest>, phase: map<nat, Phase>,
      readBy: map<nat, Performed>, b: Buffers, id: nat, v: int)
    requires Filled(input, live, phase, readBy, b) && id in live
    ensures Filled(input, live[id := live[id].(result := v)], phase, readBy, b)
  {
    hide ReadInto;
    var stored := live[id := live[id].(result := v)];
    forall k: nat | k in stored ensures BufferFilled(input, stored, phase, readBy, b, k) {
      assert BufferFilled(input, live, phase, readBy, b, k);
    }
  }

  lemma ReceivedMove(input: seq<byte>, phase: map<nat, Phase>, readBy: map<nat, Performed>, b: Buffers,
      id: nat, to: Phase)
    requires Received(input, phase, readBy, b) && id in phase && phase[id] != Done && to != Done
    ensures Received(input, phase[id := to], readBy, b)
  {
    hide ReadInto;
  }

  lemma LendingStored(asked: map<nat, Asked>, live: map<nat, ReadRequest>, b: Buffers, id: nat, v: int)
    requires Lending(asked, live, b) && id in live
    ensures Lending(asked, live[id := live[id].(result := v)], b)
  {
  }

  /** A read fills the buffer of its request and of no other. */
  lemma FilledReads(input: seq<byte>, asked: map<nat, Asked>, live: map<nat, ReadRequest>, phase: map<nat, Phase>,
      readBy: map<nat, Performed>, b: Buffers, id: nat, r: F.ReadAtResult)
    requires Filled(input, live, phase, readBy, b) && Lending(asked, live, b)
    requires id in live && id in phase && phase[id] == Executing
    ensures var done := Performed(live[id].asked, r); var n := FillBuffer(b, input, live[id].asked, r);
            Filled(input, live, phase[id := Read], readBy[id := done], n) && Lending(asked, live, n)
  {
    hide ReadInto;
    var done := Performed(live[id].asked, r);
    var n := FillBuffer(b, input, live[id].asked, r);
    forall k: nat | k in live ensures BufferFilled(input, live, phase[id := Read], readBy[id := done], n, k) {
      assert BufferFilled(input, live, phase, readBy, b, k);
      assert k != id ==> live[k].asked.dest != live[id].asked.dest;
    }
  }

  lemma ReceivedReads(input: seq<byte>, phase: map<nat, Phase>, readBy: map<nat, Performed>, b: Buffers, id: nat,
      done: Performed)
    requires Received(input, phase, readBy, b) && id in phase && phase[id] == Executing
    ensures Received(input, phase[id := Read], readBy[id := done], FillBuffer(b, input, done.asked, done.result))
  {
    hide ReadInto;
  }

  lemma HonestReads(input: seq<byte>, readBy: map<nat, Performed>, id: nat, done: Performed)
    requires Honest(input, readBy) && done.asked.length <= INT_MAX && Readable(input, done.asked, done.result)
    ensures Honest(input, readBy[id := done])
  {
  }

  lemma FilledEnds(input: seq<byte>, live: map<nat, ReadRequest>, phase: map<nat, Phase>,
      readBy: map<nat, Performed>, b: Buffers, id: nat)
    requires Filled(input, live, phase, readBy, b) && id in live
    ensures Filled(input, live - {id}, phase[id := Done], readBy, HandBack(b, id, live[id].asked.dest))
  {
    hide ReadInto;
    var n := HandBack(b, id, live[id].asked.dest);
    var rest := live - {id};
    forall k: nat | k in rest ensures BufferFilled(input, rest, phase[id := Done], readBy, n, k) {
      assert BufferFilled(input, live, phase, readBy, b, k);
    }
  }

  lemma ReceivedEnds(input: seq<byte>, live: map<nat, ReadRequest>, phase: map<nat, Phase>,
      readBy: map<nat, Performed>, b: Buffers, id: nat)
    requires Received(input, phase, readBy, b) && id in live && BufferFilled(input, live, phase, readBy, b, id)
    requires AfterReading(phase[id]) && readBy[id].asked == live[id].asked
    ensures Received(input, phase[id := Done], readBy, HandBack(b, id, live[id].asked.dest))
  {
    hide ReadInto;
  }

  lemma LendingEnds(asked: map<nat, Asked>, live: map<nat, ReadRequest>, b: Buffers, id: nat, dest: nat)
    requires Lending(asked, live, b)
    ensures Lending(asked, live - {id}, HandBack(b, id, dest))
  {
  }

  lemma NewFilled(input: seq<byte>, live: map<nat, ReadRequest>, phase: map<nat, Phase>,
      readBy: map<nat, Performed>, b: Buffers, id: nat, r: ReadRequest)
    requires Filled(input, live, phase, readBy, b) && id !in phase && r.asked.dest in b.memory
    ensures Filled(input, live[id := r], phase[id := Queued], readBy, Lend(b, id, r.asked.dest))
  {
    hide ReadInto;
    var n := Lend(b, id, r.asked.dest);
    var more := live[id := r];
    forall k: nat | k in more ensures BufferFilled(input, more, phase[id := Queued], readBy, n, k) {
      if k != id {
        assert BufferFilled(input, live, phase, readBy, b, k);
      }
    }
  }

  lemma NewLending(asked: map<nat, Asked>, live: map<nat, ReadRequest>, b: Buffers, id: nat, r: ReadRequest)
    requires Lending(asked, live, b) && id !in asked && r.asked.dest in b.memory
    requires |b.memory[r.asked.dest]| == r.asked.length && !Lent(live, r.asked.dest)
    ensures Lending(asked[id := r.asked], live[id := r], Lend(b, id, r.asked.dest))
  {
  }

  lemma NewReceived(input: seq<byte>, phase: map<nat, Phase>, readBy: map<nat, Performed>, b: Buffers,
      id: nat, dest: nat)
    requires Received(input, phase, readBy, b) && id !in phase
    ensures Received(input, phase[id := Queued], readBy, Lend(b, id, dest))
  {
    hide ReadInto;
  }

  lemma ReuseKeeps(input: seq<byte>, asked: map<nat, Asked>, live: map<nat, ReadRequest>, phase: map<nat, Phase>,
      readBy: map<nat, Performed>, b: Buffers, dest: nat, bytes: seq<byte>)
    requires Lending(asked, live, b) && Filled(input, live, phase, readBy, b) && Received(input, phase, readBy, b)
    requires !Lent(live, dest)
    ensures var n := b.(memory := b.memory[dest := bytes]);
            Lending(asked, live, n) && Filled(input, live, phase, readBy, n) && Received(input, phase, readBy, n)
  {
    hide ReadInto;
    var n := b.(memory := b.memory[dest := bytes]);
    forall k: nat | k in live ensures BufferFilled(input, live, phase, readBy, n, k) {
      assert BufferFilled(input, live, phase, readBy, b, k);
    }
  }

  lemma SubmitKeepsShared(c: Config, s: State, asked: Asked)
    requires Shared(c, s) && Named(s.phase, s.nextId) && Own(s.asked, s.live, s.readBy, s.nextId)
    requires CanSubmit(s, asked)
    ensures Shared(c, AfterSubmit(c, s, asked))
  {
    assert s.nextId !in s.phase && s.nextId !in s.asked;
    hide Named, Own, Honest, Lending, Filled, Received, Lent, Lend;
    var request := ReadRequest(asked, AfterSet(FRESH_REQUEST, true), 0);
    NewFilled(c.input, s.live, s.phase, s.readBy, s.buffers, s.nextId, request);
    NewLending(s.asked, s.live, s.buffers, s.nextId, request);
    NewReceived(c.input, s.phase, s.readBy, s.buffers, s.nextId, asked.dest);
  }

  lemma MoveKeepsShared(c: Config, s: State, n: State, id: nat, to: Phase)
    requires Shared(c, s) && id in s.phase && AfterReading(s.phase[id]) == AfterReading(to)
    requires s.phase[id] != Done && to != Done
    requires n.phase == s.phase[id := to] && n.readBy == s.readBy && n.asked == s.asked && n.buffers == s.buffers
    requires n.live == s.live || (id in s.live && id in n.live &&
      n.live == s.live[id := s.live[id].(result := n.live[id].result)])
    ensures Shared(c, n)
  {
    hide Honest, Lending, Filled, Received;
    FilledMove(c.input, s.live, s.phase, s.readBy, s.buffers, id, to);
    ReceivedMove(c.input, s.phase, s.readBy, s.buffers, id, to);
    if n.live != s.live {
      FilledStored(c.input, s.live, n.phase, s.readBy, s.buffers, id, n.live[id].result);
      LendingStored(s.asked, s.live, s.buffers, id, n.live[id].result);
    }
  }

  lemma WorkerReadKeepsShared(c: Config, s: State, i: nat, r: F.ReadAtResult)
    requires Shared(c, s) && Recorded(s) && Placed(s, s.phase) && Enabled(c, s, WorkerRead(i, r))
    ensures Shared(c, AfterWorkerRead(c, s, i, r))
  {
    hide Holds, Named, Alive, ReadOnce, Carried, Own, Encode, Honest, Lending, Filled, Received, Readable, FillBuffer;
    var id := s.executing[i];
    var done := Performed(s.live[id].asked, r);
    HeldPhase(s.executing, s.phase, Executing, i);
    LiveLength(s.live, s.phase, id);
    HonestReads(c.input, s.readBy, id, done);
    FilledReads(c.input, s.asked, s.live, s.phase, s.readBy, s.buffers, id, r);
    ReceivedReads(c.input, s.phase, s.readBy, s.buffers, id, done);
  }

  lemma DeliveryKeepsShared(c: Config, s: State, value: int)
    requires s.caller.Resuming? && s.caller.id in s.live && Shared(c, s) && Recorded(s) && Placed(s, s.phase)
    ensures Shared(c, AfterDelivery(s, value))
  {
    hide Holds, Named, Alive, ReadOnce, Carried, Own, Honest, Lending, Received, HandBack, BufferFilled;
    var id := s.caller.id;
    HeldPhase([s.caller.id], s.phase, Popped, 0);
    PoppedWasRead(s, id);
    assert BufferFilled(c.input, s.live, s.phase, s.readBy, s.buffers, id);
    FilledEnds(c.input, s.live, s.phase, s.readBy, s.buffers, id);
    ReceivedEnds(c.input, s.live, s.phase, s.readBy, s.buffers, id);
    LendingEnds(s.asked, s.live, s.buffers, id, s.live[id].asked.dest);
  }

  lemma PoppedWasRead(s: State, id: nat)
    requires Own(s.asked, s.live, s.readBy, s.nextId) && ReadOnce(s.phase, s.readBy, s.readLog)
    requires id in s.live && id in s.phase && s.phase[id] == Popped
    ensures id in s.readBy && s.readBy[id].asked == s.live[id].asked
  {
  }

  lemma ResumeKeepsShared(c: Config, s: State)
    requires s.caller.Resuming? && s.caller.id in s.live && Shared(c, s) && Recorded(s) && Placed(s, s.phase)
    ensures Shared(c, AfterResumption(s))
  {
    hide Holds, Named, Alive, ReadOnce, Carried, Own, Honest, Lending, Filled, Received, AfterDelivery;
    LiveLength(s.live, s.phase, s.caller.id);
    DeliveryKeepsShared(c, s, AfterComplete(s.live[s.caller.id].completion, s.caller.value, false).result);
  }

  lemma WorkerLoopKeepsShared(c: Config, s: State)
    requires s.looping > 0 && Shared(c, s) && Placed(s, s.phase)
    ensures Shared(c, AfterWorkerLoop(s))
  {
    hide Holds, Shared;
    if s.work != [] {
      HeldPhase(s.work, s.phase, Queued, |s.work| - 1);
      MoveKeepsShared(c, s, AfterTakeWork(s), s.work[|s.work| - 1], Executing);
    } else {
      SignalShared(c, s, AfterWorkerLoop(s));
    }
  }

  lemma WorkerFinishKeepsShared(c: Config, s: State, i: nat)
    requires i < |s.finishing| && s.finishing[i] in s.live && s.finishing[i] in s.local
    requires Shared(c, s) && Placed(s, s.phase)
    ensures Shared(c, AfterWorkerFinish(s, i))
  {
    hide Holds, Shared;
    HeldPhase(s.finishing, s.phase, Read, i);
    MoveKeepsShared(c, s, AfterWorkerFinish(s, i), s.finishing[i], Completed);
  }

  lemma CallerLoopKeepsShared(c: Config, s: State)
    requires Poppable(s) && Shared(c, s) && Placed(s, s.phase)
    ensures Shared(c, AfterCallerLoop(s))
  {
    hide Holds, Shared;
    if s.completions != [] {
      HeldPhase(s.completions, s.phase, Completed, |s.completions| - 1);
      MoveKeepsShared(c, s, AfterPop(s), s.completions[|s.completions| - 1], Popped);
    } else {
      SignalShared(c, s, AfterCallerLoop(s));
    }
  }

  lemma SignalShared(c: Config, s: State, n: State)
    requires Shared(c, s) && n.live == s.live && n.phase == s.phase && n.readBy == s.readBy
    requires n.asked == s.asked && n.buffers == s.buffers
    ensures Shared(c, n)
  {
    hide Honest, Lending, Filled, Received;
  }

  lemma ReuseKeepsShared(c: Config, s: State, dest: nat, bytes: seq<byte>)
    requires Shared(c, s) && !Lent(s.live, dest)
    ensures Shared(c, AfterReuse(s, dest, bytes))
  {
    hide Honest, Lending, Filled, Received, Lent;
    ReuseKeeps(c.input, s.asked, s.live, s.phase, s.readBy, s.buffers, dest, bytes);
  }

  lemma NextShared(c: Config, s: State, a: Action)
    requires Placed(s, s.phase) && Recorded(s) && Shared(c, s) && Enabled(c, s, a)
    ensures Shared(c, Next(c, s, a))
  {
    hide Placed, Shared, Named, Own, Alive, ReadOnce, Carried, AfterSubmit, AfterWorkerLoop, AfterWorkerRead,
      AfterWorkerFinish, AfterCallerLoop, AfterResumption, AfterNotifyWork, AfterNotifyAll, AfterNotifyDone,
      AfterWaitOne, AfterStop, WakeOne, AfterWakeCaller, AfterReuse, Lent, Readable;
    match a {
      case Submit(asked) => SubmitKeepsShared(c, s, asked);
      case Reuse(dest, bytes) => ReuseKeepsShared(c, s, dest, bytes);
      case WorkerLoop => WorkerLoopKeepsShared(c, s);
      case WorkerRead(i, r) => WorkerReadKeepsShared(c, s, i, r);
      case WorkerFinish(i) => WorkerFinishKeepsShared(c, s, i);
      case CallerLoop => CallerLoopKeepsShared(c, s);
      case Resume => ResumeKeepsShared(c, s);
      case _ => SignalShared(c, s, Next(c, s, a));
    }
  }

  // ----- the steps: counts and wakeups -----

  lemma SubmitCounted(c: Config, s: State, asked: Asked)
    requires Counted(c, s) && Woken(s)
    ensures var n := AfterSubmit(c, s, asked); Counted(c, n) && Woken(n)
  {
    hide AfterSet;
  }

  lemma TakeWorkCounted(c: Config, s: State)
    requires Counted(c, s) && Woken(s) && s.looping > 0 && s.work != []
    ensures var n := AfterTakeWork(s); Counted(c, n) && Woken(n)
  {
  }

  lemma ExitCounted(c: Config, s: State)
    requires Counted(c, s) && Woken(s) && s.looping > 0 && s.work == [] && s.stopping
    ensures Counted(c, AfterExit(s)) && Woken(AfterExit(s))
  {
  }

  lemma SleepCounted(c: Config, s: State)
    requires Counted(c, s) && Woken(s) && s.looping > 0 && s.work == [] && !s.stopping
    ensures Counted(c, AfterSleep(s)) && Woken(AfterSleep(s))
  {
  }

  lemma WorkerLoopCounted(c: Config, s: State)
    requires Counted(c, s) && Woken(s) && s.looping > 0
    ensures var n := AfterWorkerLoop(s); Counted(c, n) && Woken(n)
  {
    hide Counted, Woken, AfterTakeWork, AfterExit, AfterSleep;
    if s.work != [] {
      TakeWorkCounted(c, s);
    } else if s.stopping {
      ExitCounted(c, s);
    } else {
      SleepCounted(c, s);
    }
  }

  lemma WorkerReadCounted(c: Config, s: State, i: nat, r: F.ReadAtResult)
    requires Counted(c, s) && Woken(s) && i < |s.executing| && s.executing[i] in s.live
    ensures var n := AfterWorkerRead(c, s, i, r); Counted(c, n) && Woken(n)
  {
    hide Encode;
  }

  lemma WorkerFinishCounted(c: Config, s: State, i: nat)
    requires Counted(c, s) && Woken(s) && Enabled(c, s, WorkerFinish(i))
    ensures var n := AfterWorkerFinish(s, i); Counted(c, n) && Woken(n)
  {
  }

  lemma PopCounted(c: Config, s: State)
    requires Counted(c, s) && Woken(s) && s.completions != [] && Enabled(c, s, CallerLoop)
    ensures Counted(c, AfterPop(s)) && Woken(AfterPop(s))
  {
    hide WorkersWoken;
  }

  lemma CallerLoopCounted(c: Config, s: State)
    requires Counted(c, s) && Woken(s) && Enabled(c, s, CallerLoop)
    ensures var n := AfterCallerLoop(s); Counted(c, n) && Woken(n)
  {
    hide Tally, Crew, WorkersWoken, AfterPop;
    if s.completions != [] {
      PopCounted(c, s);
    }
  }

  lemma DeliveryCounted(c: Config, s: State, value: int)
    requires Counted(c, s) && Woken(s) && s.caller.Resuming? && s.caller.id in s.live
    ensures var n := AfterDelivery(s, value); Counted(c, n) && Woken(n)
  {
  }

  lemma ResumeCounted(c: Config, s: State)
    requires Counted(c, s) && Woken(s) && s.caller.Resuming? && s.caller.id in s.live
    ensures var n := AfterResumption(s); Counted(c, n) && Woken(n)
  {
    hide CompleteResult, AfterComplete, AfterDelivery, WorkersWoken, Tally, Crew;
    DeliveryCounted(c, s, AfterComplete(s.live[s.caller.id].completion, s.caller.value, false).result);
  }

  lemma NotifyWorkCounted(c: Config, s: State)
    requires Counted(c, s) && Woken(s)
    ensures s.pendingWork > 0 ==> var n := AfterNotifyWork(s); Counted(c, n) && Woken(n)
  {
    hide Tally, CallerWoken;
  }

  lemma WakeCounted(c: Config, s: State)
    requires Counted(c, s) && Woken(s) && s.asleep > 0
    ensures Counted(c, WakeOne(s)) && Woken(WakeOne(s))
  {
  }

  lemma NotifyDoneCounted(c: Config, s: State)
    requires Counted(c, s) && Woken(s) && s.pendingDone > 0
    ensures var n := AfterNotifyDone(s); Counted(c, n) && Woken(n)
  {
  }

  lemma WaitOneCounted(c: Config, s: State)
    requires Counted(c, s) && Woken(s) && s.caller.Idle?
    ensures var n := AfterWaitOne(s); Counted(c, n) && Woken(n)
  {
  }

  lemma StopCounted(c: Config, s: State)
    requires Counted(c, s) && Woken(s)
    ensures Counted(c, AfterStop(s)) && Woken(AfterStop(s))
    ensures s.pendingAll ==> var n := AfterNotifyAll(s); Counted(c, n) && Woken(n)
    ensures s.caller.Sleeping? ==> var n := AfterWakeCaller(s); Counted(c, n) && Woken(n)
  {
  }

  lemma ReuseCounted(c: Config, s: State, dest: nat, bytes: seq<byte>)
    requires Counted(c, s) && Woken(s)
    ensures var n := AfterReuse(s, dest, bytes); Counted(c, n) && Woken(n)
  {
  }

  lemma NextCounted(c: Config, s: State, a: Action)
    requires Counted(c, s) && Woken(s) && Enabled(c, s, a)
    ensures Counted(c, Next(c, s, a)) && Woken(Next(c, s, a))
  {
    hide Counted, Woken;
    match a {
      case Submit(asked) => SubmitCounted(c, s, asked);
      case WorkerLoop => WorkerLoopCounted(c, s);
      case WorkerRead(i, r) => WorkerReadCounted(c, s, i, r);
      case WorkerFinish(i) => WorkerFinishCounted(c, s, i);
      case CallerLoop => CallerLoopCounted(c, s);
      case Resume => ResumeCounted(c, s);
      case Reuse(dest, bytes) => ReuseCounted(c, s, dest, bytes);
      case WaitOne => WaitOneCounted(c, s);
      case NotifyDone => NotifyDoneCounted(c, s);
      case NotifyWork => NotifyWorkCounted(c, s);
      case WakeWorker => WakeCounted(c, s);
      case _ => StopCounted(c, s);
    }
  }

  lemma NextInv(c: Config, s: State, a: Action)
    requires Inv(c, s) && Enabled(c, s, a)
    ensures Inv(c, Next(c, s, a))
  {
    hide Placed, Recorded, Shared, Counted, Woken, Enabled, Next;
    NextPlaced(c, s, a);
    NextShared(c, s, a);
    NextRecorded(c, s, a);
    NextCounted(c, s, a);
  }

  lemma {:induction false} RunInv(c: Config, s: State, run: seq<Action>)
    requires Inv(c, s) && Legal(c, s, run)
    ensures Inv(c, Exec(c, s, run))
    decreases |run|
  {
    if run != [] {
      NextInv(c, s, run[0]);
      RunInv(c, Next(c, s, run[0]), run[1..]);
    }
  }
}
