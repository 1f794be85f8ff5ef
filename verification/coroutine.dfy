/** The two small state machines under every asynchronous read: the request that resumes the
    suspended coroutine, and the `Task` that owns the coroutine and hands out its result. */
module Coroutines {
  import opened Base

  // ----- the coroutine frame -----

  /** What one `resume` of a coroutine body does next. */
  datatype BodyStep<+T> = Suspends | Returns(value: T) | Throws(errno: int)

  /** The promise: the body is suspended, or it has ended with a value that is still there or was
      moved out, or with an exception. */
  datatype Promise<+T> = Suspended | Finished(value: Option<T>) | Threw(errno: int)

  function AfterResume<T>(step: BodyStep<T>): Promise<T> {
    match step
    case Suspends => Suspended
    case Returns(v) => Finished(Some(v))
    case Throws(e) => Threw(e)
  }

  // ----- Task -----

  datatype TaskState<T> = TaskState(frame: Option<Promise<T>>, started: bool)

  datatype TaskOp<T> = Start(step: BodyStep<T>) | Resume(step: BodyStep<T>) | TakeResult

  datatype StartOutcome = Started | StartedInvalid | StartedTwice

  datatype TakeOutcome<+T> =
    | Value(value: T) | Rethrown(errno: int) | InvalidTask | NotStarted | NotDone | AlreadyConsumed

  function StartResult<T>(t: TaskState<T>): StartOutcome {
    if t.frame.None? then StartedInvalid else if t.started then StartedTwice else Started
  }

  function AfterStart<T>(t: TaskState<T>, step: BodyStep<T>): TaskState<T> {
    if StartResult(t).Started? then TaskState(Some(AfterResume(step)), true) else t
  }

  function Outcome<T>(t: TaskState<T>): TakeOutcome<T> {
    if t.frame.None? then InvalidTask
    else if !t.started then NotStarted
    else match t.frame.value
      case Suspended => NotDone
      case Threw(e) => Rethrown(e)
      case Finished(Some(v)) => Value(v)
      case Finished(None) => AlreadyConsumed
  }

  function AfterTakeResult<T>(t: TaskState<T>): TaskState<T> {
    if Outcome(t).Value? then t.(frame := Some(Finished(None))) else t
  }

  /** A coroutine frame on the heap. */
  class Frame<T> {
    var promise: Promise<T>
    var destroyed: bool

    constructor ()
      ensures promise == Suspended && !destroyed
    {
      promise, destroyed := Suspended, false;
    }

    method Destroy()
      requires !destroyed
      modifies this`destroyed
      ensures destroyed
    {
      destroyed := true;
    }
  }

  class Task<T> {
    var handle: Frame?<T>
    var started: bool

    /** A `Task` is empty or owns a frame that exists. */
    ghost predicate Owns()
      reads this, handle
    {
      handle != null ==> !handle.destroyed
    }

    ghost function State(): TaskState<T>
      reads this, handle
    {
      TaskState(if handle == null then None else Some(handle.promise), started)
    }

    constructor ()
      ensures Owns() && State() == TaskState(Some(Suspended), false) && fresh(handle)
    {
      handle := new Frame<T>();
      started := false;
    }

    /** Move construction: the coroutine changes hands and the source is left empty. */
    constructor FromMove(other: Task<T>)
      requires other.Owns()
      modifies other
      ensures Owns() && handle == old(other.handle) && State() == old(other.State())
      ensures other.State() == TaskState(None, false)
    {
      handle, started := other.handle, other.started;
      new;
      other.handle, other.started := null, false;
    }

    /** Move assignment destroys the coroutine held before; assigning a `Task` to itself does nothing. */
    method Assign(other: Task<T>)
      requires Owns() && other.Owns() && (this != other && handle != null ==> handle != other.handle)
      modifies this, other, handle
      ensures Owns() && handle == old(other.handle) && State() == old(other.State())
      ensures other != this ==> other.State() == TaskState(None, false)
      ensures other != this && old(handle) != null ==> old(handle).destroyed
    {
      if this != other {
        if handle != null {
          handle.Destroy();
        }
        handle, started := other.handle, other.started;
        other.handle, other.started := null, false;
      }
    }

    /** The destructor destroys the coroutine, ended or not. */
    method Delete()
      requires Owns()
      modifies handle
      ensures handle != null ==> handle.destroyed
    {
      if handle != null {
        handle.Destroy();
      }
    }

    method Done() returns (r: bool)
      requires Owns()
      ensures r <==> State().frame.Some? && !State().frame.value.Suspended?
    {
      r := handle != null && !handle.promise.Suspended?;
    }

    /** `step` is what the body does up to its first suspension. */
    method Start(step: BodyStep<T>) returns (r: StartOutcome)
      requires Owns()
      modifies this`started, handle
      ensures Owns() && r == StartResult(old(State())) && State() == AfterStart(old(State()), step)
      ensures r.StartedInvalid? <==> old(handle) == null
      ensures r.StartedTwice? <==> old(handle) != null && old(started)
      ensures r.Started? ==> started
    {
      if handle == null {
        return StartedInvalid;
      }
      if started {
        return StartedTwice;
      }
      started := true;
      handle.promise := AfterResume(step);
      return Started;
    }

    method Result() returns (r: TakeOutcome<T>)
      requires Owns()
      modifies handle
      ensures Owns() && r == Outcome(old(State())) && State() == AfterTakeResult(old(State()))
      ensures r.InvalidTask? <==> old(handle) == null
      ensures r.NotStarted? <==> old(handle) != null && !old(started)
      ensures r.NotDone? <==> old(handle != null && started && handle.promise.Suspended?)
    {
      if handle == null {
        return InvalidTask;
      }
      if !started {
        return NotStarted;
      }
      match handle.promise {
        case Suspended => return NotDone;
        case Threw(e) => return Rethrown(e);
        case Finished(None) => return AlreadyConsumed;
        case Finished(Some(v)) =>
          handle.promise := Finished(None);
          return Value(v);
      }
    }
  }

  /** A coroutine that has ended is never resumed; `CompletionRequest` sees to that. */
  predicate Allowed<T>(t: TaskState<T>, op: TaskOp<T>) {
    op.Resume? ==> t.started && t.frame == Some(Suspended)
  }

  function Apply<T>(t: TaskState<T>, op: TaskOp<T>): TaskState<T> {
    match op
    case Start(step) => AfterStart(t, step)
    case Resume(step) => t.(frame := Some(AfterResume(step)))
    case TakeResult => AfterTakeResult(t)
  }

  /** Every operation is allowed where it is applied. */
  predicate LegalOps<T>(t: TaskState<T>, ops: seq<TaskOp<T>>)
    decreases |ops|
  {
    ops == [] || (Allowed(t, ops[0]) && LegalOps(Apply(t, ops[0]), ops[1..]))
  }

  /** The values that a history of operations hands out. */
  function Taken<T>(t: TaskState<T>, ops: seq<TaskOp<T>>): seq<T>
    decreases |ops|
  {
    if ops == [] then []
    else
      (if ops[0].TakeResult? && Outcome(t).Value? then [Outcome(t).value] else [])
      + Taken(Apply(t, ops[0]), ops[1..])
  }

  /** The values that its coroutine returns in that history. */
  function Produced<T>(t: TaskState<T>, ops: seq<TaskOp<T>>): seq<T>
    decreases |ops|
  {
    if ops == [] then []
    else
      (if ops[0].Resume? && ops[0].step.Returns? then [ops[0].step.value]
       else if ops[0].Start? && ops[0].step.Returns? && StartResult(t).Started? then [ops[0].step.value]
       else [])
      + Produced(Apply(t, ops[0]), ops[1..])
  }

  predicate HasEnded<T>(t: TaskState<T>) {
    t.started && t.frame.Some? && !t.frame.value.Suspended?
  }

  lemma {:induction false} NothingAfterTheEnd<T>(t: TaskState<T>, ops: seq<TaskOp<T>>)
    requires LegalOps(t, ops) && HasEnded(t)
    ensures Produced(t, ops) == []
    ensures Taken(t, ops) == [] || (t.frame.value.Finished? && t.frame.value.value.Some?
      && Taken(t, ops) == [t.frame.value.value.value])
    decreases |ops|
  {
    if ops != [] {
      NothingAfterTheEnd(Apply(t, ops[0]), ops[1..]);
    }
  }

  /** A new `Task` gives its result away at most once, and what it gives is what the body returned. */
  lemma {:induction false} ResultIsTakenOnce<T>(t: TaskState<T>, ops: seq<TaskOp<T>>)
    requires LegalOps(t, ops) && (t.frame.None? || t.frame == Some(Suspended))
    ensures |Produced(t, ops)| <= 1 && Taken(t, ops) <= Produced(t, ops)
    decreases |ops|
  {
    if ops != [] {
      var n := Apply(t, ops[0]);
      if HasEnded(n) {
        NothingAfterTheEnd(n, ops[1..]);
      } else {
        ResultIsTakenOnce(n, ops[1..]);
      }
    }
  }

  // ----- what a history of operations must give, told from the history alone -----

  predicate HasTake<T>(ops: seq<TaskOp<T>>) {
    exists i :: 0 <= i < |ops| && ops[i].TakeResult?
  }

  predicate HasStart<T>(ops: seq<TaskOp<T>>) {
    exists i :: 0 <= i < |ops| && ops[i].Start?
  }

  /** Whether this operation runs the coroutine: a resumption, or a start that is the first. */
  predicate RunsBody<T>(started: bool, op: TaskOp<T>) {
    op.Resume? || (op.Start? && !started)
  }

  /** How the coroutine ended, or `Suspends` when it has not. */
  function EndStep<T>(started: bool, ops: seq<TaskOp<T>>): BodyStep<T>
    decreases |ops|
  {
    if ops == [] then Suspends
    else if RunsBody(started, ops[0]) && !ops[0].step.Suspends? then ops[0].step
    else EndStep(started || ops[0].Start?, ops[1..])
  }

  /** Whether `result` was called after the end. */
  predicate TakenSinceEnd<T>(started: bool, ops: seq<TaskOp<T>>)
    decreases |ops|
  {
    if ops == [] then false
    else if RunsBody(started, ops[0]) && !ops[0].step.Suspends? then HasTake(ops[1..])
    else TakenSinceEnd(started || ops[0].Start?, ops[1..])
  }

  function FinalTask<T>(t: TaskState<T>, ops: seq<TaskOp<T>>): TaskState<T>
    decreases |ops|
  {
    if ops == [] then t else FinalTask(Apply(t, ops[0]), ops[1..])
  }

  lemma {:induction false} AfterTheEnd<T>(t: TaskState<T>, ops: seq<TaskOp<T>>)
    requires LegalOps(t, ops) && HasEnded(t)
    ensures t.frame.value.Threw? ==> Outcome(FinalTask(t, ops)) == Rethrown(t.frame.value.errno) && Taken(t, ops) == []
    ensures t.frame == Some(Finished(None)) ==> Outcome(FinalTask(t, ops)) == AlreadyConsumed && Taken(t, ops) == []
    ensures t.frame.value.Finished? && t.frame.value.value.Some? ==>
      var v := t.frame.value.value.value;
      && Outcome(FinalTask(t, ops)) == (if HasTake(ops) then AlreadyConsumed else Value(v))
      && Taken(t, ops) == (if HasTake(ops) then [v] else [])
    decreases |ops|
  {
    if ops != [] {
      AfterTheEnd(Apply(t, ops[0]), ops[1..]);
      HasTakeStep(ops);
    }
  }

  lemma HasTakeStep<T>(ops: seq<TaskOp<T>>)
    requires ops != []
    ensures HasTake(ops) <==> ops[0].TakeResult? || HasTake(ops[1..])
    ensures HasStart(ops) <==> ops[0].Start? || HasStart(ops[1..])
  {
    if i :| 0 <= i < |ops[1..]| && ops[1..][i].TakeResult? {
      assert ops[i + 1].TakeResult?;
    }
    if i :| 0 <= i < |ops[1..]| && ops[1..][i].Start? {
      assert ops[i + 1].Start?;
    }
    assert forall i :: 0 < i < |ops| ==> ops[i] == ops[1..][i - 1];
  }

  /** What `result` gives after a history, told from the history alone: nothing before the start or the
      end; the exception, as often as it is asked, when the coroutine threw; and its value, once, when it
      returned one. */
  function ExpectedResult<T>(started: bool, ops: seq<TaskOp<T>>): TakeOutcome<T> {
    if !started && !HasStart(ops) then NotStarted
    else match EndStep(started, ops)
      case Suspends => NotDone
      case Throws(e) => Rethrown(e)
      case Returns(v) => if TakenSinceEnd(started, ops) then AlreadyConsumed else Value(v)
  }

  lemma {:induction false} ResultTellsTheEnd<T>(t: TaskState<T>, ops: seq<TaskOp<T>>)
    requires LegalOps(t, ops) && t.frame == Some(Suspended)
    ensures Outcome(FinalTask(t, ops)) == ExpectedResult(t.started, ops)
    decreases |ops|
  {
    if ops != [] {
      hide HasTake, HasStart;
      var n := Apply(t, ops[0]);
      HasTakeStep(ops);
      if HasEnded(n) {
        AfterTheEnd(n, ops[1..]);
      } else {
        ResultTellsTheEnd(n, ops[1..]);
      }
    }
  }

  lemma {:induction false} TakenTellsTheEnd<T>(t: TaskState<T>, ops: seq<TaskOp<T>>)
    requires LegalOps(t, ops) && t.frame == Some(Suspended)
    ensures Taken(t, ops) ==
      if EndStep(t.started, ops).Returns? && TakenSinceEnd(t.started, ops) then [EndStep(t.started, ops).value] else []
    decreases |ops|
  {
    if ops != [] {
      hide HasTake, HasStart, FinalTask;
      var n := Apply(t, ops[0]);
      if HasEnded(n) {
        AfterTheEnd(n, ops[1..]);
      } else {
        TakenTellsTheEnd(n, ops[1..]);
      }
    }
  }

  lemma {:induction false} ProducedTellsTheEnd<T>(t: TaskState<T>, ops: seq<TaskOp<T>>)
    requires LegalOps(t, ops) && t.frame == Some(Suspended)
    ensures Produced(t, ops) == if EndStep(t.started, ops).Returns? then [EndStep(t.started, ops).value] else []
    decreases |ops|
  {
    if ops != [] {
      var n := Apply(t, ops[0]);
      if HasEnded(n) {
        NothingAfterTheEnd(n, ops[1..]);
      } else {
        ProducedTellsTheEnd(n, ops[1..]);
      }
    }
  }

  /** A new `Task` hands out exactly the value that its coroutine returned, when `result` is called after
      the end, and rethrows exactly the exception that it threw, every time. */
  lemma ResultIsHandedOut<T>(ops: seq<TaskOp<T>>)
    requires LegalOps(TaskState(Some(Suspended), false), ops)
    ensures var t := TaskState(Some(Suspended), false);
            && Outcome(FinalTask(t, ops)) == ExpectedResult(false, ops)
            && Taken(t, ops) <= Produced(t, ops)
            && (TakenSinceEnd(false, ops) ==> Taken(t, ops) == Produced(t, ops))
  {
    hide Outcome, FinalTask, ExpectedResult, Taken, Produced;
    ResultTellsTheEnd(TaskState(Some(Suspended), false), ops);
    TakenTellsTheEnd(TaskState(Some(Suspended), false), ops);
    ProducedTellsTheEnd(TaskState(Some(Suspended), false), ops);
  }

  // ----- the completion request -----

  datatype RequestState = RequestState(waiting: bool, completed: bool, result: int)

  datatype RequestOp = SetContinuation(present: bool) | Complete(value: int, done: bool)

  datatype SetOutcome = Stored | EmptyContinuation | AfterCompletion | HasContinuation

  datatype CompleteOutcome = Resumed | CompletedTwice | NoContinuation | CoroutineEnded

  const FRESH_REQUEST := RequestState(false, false, 0)

  function SetResult(r: RequestState, present: bool): SetOutcome {
    if !present then EmptyContinuation
    else if r.completed then AfterCompletion
    else if r.waiting then HasContinuation
    else Stored
  }

  function AfterSet(r: RequestState, present: bool): RequestState {
    if SetResult(r, present).Stored? then r.(waiting := true) else r
  }

  function CompleteResult(r: RequestState, done: bool): CompleteOutcome {
    if r.completed then CompletedTwice
    else if !r.waiting then NoContinuation
    else if done then CoroutineEnded
    else Resumed
  }

  function AfterComplete(r: RequestState, value: int, done: bool): RequestState {
    if CompleteResult(r, done).Resumed? then RequestState(false, true, value) else r
  }

  /** A coroutine as a request sees it: something that can be resumed until it has ended. */
  class Coroutine {
    var done: bool
    var resumes: nat

    constructor ()
      ensures !done && resumes == 0
    {
      done, resumes := false, 0;
    }

    /** A resumption on behalf of a request: by then the request must be settled, because the coroutine
        may destroy it. */
    method Run(ends: bool, ghost request: CompletionRequest)
      requires !done && request.completed && request.continuation == None
      modifies this
      ensures resumes == old(resumes) + 1 && done == ends
    {
      done, resumes := ends, resumes + 1;
    }
  }

  class CompletionRequest {
    var continuation: Option<Coroutine>
    var completionResult: int
    var completed: bool

    function State(): RequestState
      reads this
    {
      RequestState(continuation.Some?, completed, completionResult)
    }

    constructor ()
      ensures State() == FRESH_REQUEST && continuation == None
    {
      continuation, completionResult, completed := None, 0, false;
    }

    method Attach(who: Option<Coroutine>) returns (r: SetOutcome)
      modifies this
      ensures r == SetResult(old(State()), who.Some?) && State() == AfterSet(old(State()), who.Some?)
      ensures continuation == if r.Stored? then who else old(continuation)
      ensures r.EmptyContinuation? <==> who.None?
      ensures r.AfterCompletion? <==> who.Some? && old(completed)
      ensures r.HasContinuation? <==> who.Some? && !old(completed) && old(continuation).Some?
    {
      if who.None? {
        return EmptyContinuation;
      }
      if completed {
        return AfterCompletion;
      }
      if continuation.Some? {
        return HasContinuation;
      }
      continuation := who;
      return Stored;
    }

    method CompletionResult() returns (r: Option<int>)
      ensures r == if completed then Some(completionResult) else None
    {
      r := if completed then Some(completionResult) else None;
    }

    /** Stores the result and resumes the coroutine, exactly once; `ends` tells whether that
        resumption is its last. The members are settled before the resumption, which may destroy
        the request. */
    method CompleteWith(value: int, ends: bool) returns (r: CompleteOutcome)
      modifies this, if continuation.Some? then {continuation.value} else {}
      ensures r == CompleteResult(old(State()), old(continuation.Some? && continuation.value.done))
      ensures State() == AfterComplete(old(State()), value, old(continuation.Some? && continuation.value.done))
      ensures r.CompletedTwice? <==> old(completed)
      ensures r.NoContinuation? <==> !old(completed) && old(continuation).None?
      ensures r.CoroutineEnded? <==> !old(completed) && old(continuation.Some? && continuation.value.done)
      ensures r.Resumed? ==> completed && completionResult == value
      ensures r.Resumed? ==>
        && old(continuation).value.resumes == old(continuation.value.resumes) + 1
        && old(continuation).value.done == ends && continuation == None
      ensures !r.Resumed? ==> continuation == old(continuation)
      ensures !r.Resumed? && continuation.Some? ==>
        && continuation.value.resumes == old(continuation.value.resumes)
        && continuation.value.done == old(continuation.value.done)
    {
      if completed {
        return CompletedTwice;
      }
      if continuation.None? {
        return NoContinuation;
      }
      if continuation.value.done {
        return CoroutineEnded;
      }
      completionResult := value;
      completed := true;
      var who := continuation.value;
      continuation := None;
      who.Run(ends, this);
      return Resumed;
    }
  }

  function ApplyRequest(r: RequestState, op: RequestOp): RequestState {
    match op
    case SetContinuation(present) => AfterSet(r, present)
    case Complete(value, done) => AfterComplete(r, value, done)
  }

  /** The values with which a history of operations resumes the coroutine. */
  function Resumptions(r: RequestState, ops: seq<RequestOp>): seq<int>
    decreases |ops|
  {
    if ops == [] then []
    else
      (if ops[0].Complete? && CompleteResult(r, ops[0].done).Resumed? then [ops[0].value] else [])
      + Resumptions(ApplyRequest(r, ops[0]), ops[1..])
  }

  function FinalRequest(r: RequestState, ops: seq<RequestOp>): RequestState
    decreases |ops|
  {
    if ops == [] then r else FinalRequest(ApplyRequest(r, ops[0]), ops[1..])
  }

  /** Whatever is done with a request, it resumes at most once, it has resumed exactly when it is
      completed, and the stored result is the one it resumed with. */
  lemma {:induction false} RequestResumesOnce(r: RequestState, ops: seq<RequestOp>)
    requires r.completed ==> !r.waiting
    ensures var f := FinalRequest(r, ops);
            if r.completed then Resumptions(r, ops) == [] && f == r
            else Resumptions(r, ops) == if f.completed then [f.result] else []
    decreases |ops|
  {
    if ops != [] {
      RequestResumesOnce(ApplyRequest(r, ops[0]), ops[1..]);
    }
  }
}
