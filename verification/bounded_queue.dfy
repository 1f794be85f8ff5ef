/** The bounded FIFO with a three-state lifecycle that the ring buffer implements and the
    executor shares between its workers. Each function is one lock-protected section. */
module BoundedQueue {
  import opened Base

  datatype Lifecycle = Open | Closed | Failed(failure: Failure)

  datatype Queue<T> = Queue(capacity: nat, items: seq<T>, state: Lifecycle)

  datatype PushOutcome = Pushed | Rejected | PushThrew(failure: Failure)

  datatype PopOutcome<+T> = Popped(value: T) | EndOfStream | PopThrew(failure: Failure)

  /** The predicate a producer waits for. */
  predicate CanPush<T>(q: Queue<T>) {
    !q.state.Open? || |q.items| < q.capacity
  }

  /** The predicate a consumer waits for. */
  predicate CanPop<T>(q: Queue<T>) {
    !q.state.Open? || |q.items| > 0
  }

  function PushResult<T>(q: Queue<T>): PushOutcome
    requires CanPush(q)
  {
    match q.state
    case Open => Pushed
    case Closed => Rejected
    case Failed(f) => PushThrew(f)
  }

  function AfterPush<T>(q: Queue<T>, value: T): Queue<T>
    requires CanPush(q)
  {
    if q.state.Open? then q.(items := q.items + [value]) else q
  }

  function PopResult<T>(q: Queue<T>): PopOutcome<T>
    requires CanPop(q)
  {
    if q.state.Failed? then PopThrew(q.state.failure)
    else if q.items == [] then EndOfStream
    else Popped(q.items[0])
  }

  function AfterPop<T>(q: Queue<T>): Queue<T>
    requires CanPop(q)
  {
    if q.state.Failed? || q.items == [] then q else q.(items := q.items[1..])
  }

  function AfterClose<T>(q: Queue<T>): Queue<T> {
    if q.state.Open? then q.(state := Closed) else q
  }

  function AfterFail<T>(q: Queue<T>, f: Failure): Queue<T> {
    if q.state.Failed? then q else Queue(q.capacity, [], Failed(f))
  }
}
