/** The mutable fields of the thread-pool backend and the sections that its mutex protects. Each
    section takes the step of the transition system that bears its name. */
module ThreadPoolBackends {
  import opened Base
  import opened ThreadPool

  datatype Taken = Request(id: nat) | Exit | Wait

  datatype Popped = Completion(id: nat, value: int) | NoneReady | NothingInflight

  /** The fields that the mutex protects, without the queue of the look. */
  predicate SameElsewhere(s: State, n: State) {
    n.stopping == s.stopping && n.live == s.live
  }

  lemma TakeChanges(s: State)
    requires s.looping > 0 && s.work != []
    ensures var n := AfterTakeWork(s); var last := |s.work| - 1;
            && SameElsewhere(s, n) && n.completions == s.completions && n.inflight == s.inflight
            && n.work == s.work[..last] && n.executing == s.executing + [s.work[last]]
            && n.exited == s.exited && n.asleep == s.asleep
  {
    hide SameHistory;
  }

  lemma ExitChanges(s: State)
    requires s.looping > 0
    ensures var n := AfterExit(s);
            && SameElsewhere(s, n) && n.completions == s.completions && n.inflight == s.inflight
            && n.work == s.work && n.exited == s.exited + 1 && n.asleep == s.asleep
  {
    hide SameHistory;
  }

  lemma SleepChanges(s: State)
    requires s.looping > 0
    ensures var n := AfterSleep(s);
            && SameElsewhere(s, n) && n.completions == s.completions && n.inflight == s.inflight
            && n.work == s.work && n.exited == s.exited && n.asleep == s.asleep + 1
  {
    hide SameHistory;
  }

  lemma PopChanges(s: State)
    requires s.completions != [] && Poppable(s)
    ensures var n := AfterPop(s); var last := |s.completions| - 1;
            && SameElsewhere(s, n) && n.work == s.work && n.inflight == s.inflight - 1
            && n.completions == s.completions[..last]
            && n.caller == Resuming(s.completions[last], s.live[s.completions[last]].result)
  {
    hide SameHistory;
  }

  class ThreadPoolBackend {
    const maxInflight: nat
    var workQueue: seq<nat>
    var completionQueue: seq<nat>
    var completionResults: map<nat, int>
    var inflightCount: nat
    var stopping: bool

    /** The fields are those of state `s`. */
    ghost predicate Shows(s: State)
      reads this
    {
      && workQueue == s.work && completionQueue == s.completions
      && inflightCount == s.inflight && stopping == s.stopping
      && forall i :: 0 <= i < |completionQueue| ==>
           completionQueue[i] in completionResults && completionQueue[i] in s.live
           && completionResults[completionQueue[i]] == s.live[completionQueue[i]].result
    }

    constructor (c: Config)
      requires Accepted(c)
      ensures Shows(Init(c)) && maxInflight == c.maxInflight
    {
      maxInflight := c.maxInflight;
      workQueue, completionQueue, completionResults, inflightCount, stopping := [], [], map[], 0, false;
    }

    /** `try_submit`: 0, or the negated error of a pool that is stopping or full. */
    method TrySubmit(request: nat, ghost c: Config, ghost s: State, ghost asked: Asked) returns (code: int)
      requires Shows(s) && c.maxInflight == maxInflight && request == s.nextId && asked.length <= INT_MAX
      requires request !in s.completions
      modifies this
      ensures Shows(AfterSubmit(c, s, asked))
      ensures old(stopping) ==> code == -125
      ensures !old(stopping) && old(inflightCount) >= maxInflight ==> code == -11
      ensures !old(stopping) && old(inflightCount) < maxInflight ==>
        code == 0 && workQueue == old(workQueue) + [request] && inflightCount == old(inflightCount) + 1
      ensures code != 0 ==> workQueue == old(workQueue) && inflightCount == old(inflightCount)
    {
      if stopping {
        return -ECANCELED;
      }
      if inflightCount >= maxInflight {
        return -EAGAIN;
      }
      workQueue := workQueue + [request];
      inflightCount := inflightCount + 1;
      return 0;
    }

    /** One look of a worker at the work queue: the newest request, the end, or a wait. */
    method TakeWork(ghost s: State) returns (r: Taken)
      requires Shows(s) && s.looping > 0
      modifies this
      ensures Shows(AfterWorkerLoop(s))
      ensures r.Request? ==> AfterWorkerLoop(s).executing == s.executing + [r.id]
      ensures r.Exit? <==> AfterWorkerLoop(s).exited > s.exited
      ensures r.Wait? <==> AfterWorkerLoop(s).asleep > s.asleep
      ensures r.Request? ==> old(workQueue) == workQueue + [r.id]
      ensures r.Exit? <==> old(workQueue) == [] && stopping
      ensures r.Wait? <==> old(workQueue) == [] && !stopping
    {
      hide AfterTakeWork, AfterExit, AfterSleep, SameHistory;
      if !stopping && workQueue == [] {
        SleepChanges(s);
        return Wait;
      }
      if stopping && workQueue == [] {
        ExitChanges(s);
        return Exit;
      }
      TakeChanges(s);
      var request := workQueue[|workQueue| - 1];
      workQueue := workQueue[..|workQueue| - 1];
      return Request(request);
    }

    method StoreCompletion(request: nat, value: int, ghost s: State, ghost i: nat)
      requires Shows(s) && i < |s.finishing| && s.finishing[i] in s.live && s.finishing[i] in s.local
      requires request == s.finishing[i] && value == s.local[request]
      modifies this
      ensures Shows(AfterWorkerFinish(s, i))
    {
      completionResults := completionResults[request := value];
      completionQueue := completionQueue + [request];
    }

    /** One look of `wait_one` at the completion queue. */
    method PopCompletion(ghost s: State) returns (r: Popped)
      requires Shows(s) && (s.caller.Looking? ==> s.inflight > 0)
      modifies this
      ensures r.NothingInflight? <==> s.inflight == 0
      ensures s.inflight > 0 ==> Poppable(s) && Shows(AfterCallerLoop(s))
      ensures s.inflight > 0 ==>
        (AfterCallerLoop(s).caller == if r.Completion? then Resuming(r.id, r.value) else Sleeping)
      ensures r.Completion? ==>
        && old(completionQueue) == completionQueue + [r.id] && inflightCount == old(inflightCount) - 1
        && r.id in s.live && r.value == s.live[r.id].result
      ensures !r.Completion? ==> completionQueue == old(completionQueue) && inflightCount == old(inflightCount)
      ensures r.NoneReady? ==> old(completionQueue) == []
    {
      hide AfterPop, SameHistory;
      if inflightCount == 0 {
        return NothingInflight;
      }
      if completionQueue == [] {
        return NoneReady;
      }
      PopChanges(s);
      var request := completionQueue[|completionQueue| - 1];
      completionQueue := completionQueue[..|completionQueue| - 1];
      inflightCount := inflightCount - 1;
      return Completion(request, completionResults[request]);
    }

    method Stop(ghost s: State)
      requires Shows(s)
      modifies this
      ensures Shows(AfterStop(s)) && stopping
    {
      stopping := true;
    }
  }
}
