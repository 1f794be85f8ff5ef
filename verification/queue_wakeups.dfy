/** The two condition variables of the queue, with one producer, one consumer and any number of
    threads that close or fail it. Every notification happens after the mutex is released. */
module QueueWakeups {
  import opened Base
  import opened BoundedQueue
  import H = QueueHistory

  /** Asleep in its condition variable, woken there but not yet run, or unlocked and about to
      notify the other side. */
  datatype Side = Running | Sleeping | Woken | Notifying

  /** Closers that still have to notify both condition variables, and those that have notified
      the consumer and still have to notify the producer. */
  datatype State<T> = State(q: Queue<T>, producer: Side, consumer: Side, closingBoth: set<nat>, closingProducer: set<nat>)

  datatype Action<T> =
    | Push(value: T)
    | Pop
    | ProducerNotifies
    | ConsumerNotifies
    | ProducerWakes
    | ConsumerWakes
    | Close(t: nat)
    | Fail(t: nat, failure: Failure)
    | NotifyConsumer(t: nat)
    | NotifyProducer(t: nat)

  predicate Enabled<T>(s: State<T>, a: Action<T>) {
    match a
    case Push(_) => s.producer.Running? || s.producer.Woken?
    case Pop => s.consumer.Running? || s.consumer.Woken?
    case ProducerNotifies => s.producer.Notifying?
    case ConsumerNotifies => s.consumer.Notifying?
    case ProducerWakes => s.producer.Sleeping?
    case ConsumerWakes => s.consumer.Sleeping?
    case Close(t) => t !in s.closingBoth && t !in s.closingProducer
    case Fail(t, _) => t !in s.closingBoth && t !in s.closingProducer
    case NotifyConsumer(t) => t in s.closingBoth
    case NotifyProducer(t) => t in s.closingProducer
  }

  function Awake(side: Side): Side {
    if side.Sleeping? then Woken else side
  }

  /** `Push` and `Pop` are one round of the wait loop with the mutex held: go to sleep when the
      predicate is false, else perform the operation. `Fail` on a failed queue returns early and
      notifies nobody. */
  function Next<T>(s: State<T>, a: Action<T>): State<T>
    requires Enabled(s, a)
  {
    match a
    case Push(v) =>
      if !CanPush(s.q) then s.(producer := Sleeping)
      else if PushResult(s.q) == Pushed then s.(q := AfterPush(s.q, v), producer := Notifying)
      else s.(producer := Running)
    case Pop =>
      if !CanPop(s.q) then s.(consumer := Sleeping)
      else if PopResult(s.q).Popped? then s.(q := AfterPop(s.q), consumer := Notifying)
      else s.(consumer := Running)
    case ProducerNotifies => s.(producer := Running, consumer := Awake(s.consumer))
    case ConsumerNotifies => s.(consumer := Running, producer := Awake(s.producer))
    case ProducerWakes => s.(producer := Woken)
    case ConsumerWakes => s.(consumer := Woken)
    case Close(t) => s.(q := AfterClose(s.q), closingBoth := s.closingBoth + {t})
    case Fail(t, f) =>
      if s.q.state.Failed? then s
      else s.(q := AfterFail(s.q, f), closingBoth := s.closingBoth + {t})
    case NotifyConsumer(t) =>
      s.(consumer := Awake(s.consumer), closingBoth := s.closingBoth - {t}, closingProducer := s.closingProducer + {t})
    case NotifyProducer(t) => s.(producer := Awake(s.producer), closingProducer := s.closingProducer - {t})
  }

  predicate Legal<T>(s: State<T>, run: seq<Action<T>>)
    decreases |run|
  {
    run == [] || (Enabled(s, run[0]) && Legal(Next(s, run[0]), run[1..]))
  }

  function Exec<T>(s: State<T>, run: seq<Action<T>>): State<T>
    requires Legal(s, run)
    decreases |run|
  {
    if run == [] then s else Exec(Next(s, run[0]), run[1..])
  }

  function Init<T>(capacity: nat): State<T> {
    State(Queue(capacity, [], Open), Running, Running, {}, {})
  }

  // ----- the layer below: the same calls on the queue -----

  /** The calls on the queue that the steps of a run carry out. */
  function Performed<T>(s: State<T>, run: seq<Action<T>>): seq<H.Call<T>>
    requires Legal(s, run)
    decreases |run|
  {
    if run == [] then []
    else
      (match run[0]
       case Push(v) => if CanPush(s.q) then [H.Push(v)] else []
       case Pop => if CanPop(s.q) then [H.Pop] else []
       case Close(_) => [H.Close]
       case Fail(_, f) => [H.Fail(f)]
       case _ => [])
      + Performed(Next(s, run[0]), run[1..])
  }

  /** What happens to the queue under its mutex, its waits and its wakeups is a history of its calls. */
  lemma {:induction false} QueueSeesItsCalls<T>(s: State<T>, run: seq<Action<T>>)
    requires Legal(s, run)
    ensures H.Legal(s.q, Performed(s, run)) && H.Run(s.q, Performed(s, run)) == Exec(s, run).q
    decreases |run|
  {
    if run != [] {
      var n := Next(s, run[0]);
      QueueSeesItsCalls(n, run[1..]);
      var rest := Performed(n, run[1..]);
      if n.q == s.q && Performed(s, run) == rest {
      } else {
        var call := Performed(s, run)[0];
        assert Performed(s, run) == [call] + rest;
        assert H.Ready(s.q, call) && H.After(s.q, call) == n.q;
        assert Performed(s, run)[1..] == rest;
      }
    }
  }

  /** A side goes to sleep exactly when it looks and its predicate is false. */
  lemma SleepsExactlyWhenBlocked<T>(s: State<T>, a: Action<T>)
    requires Enabled(s, a)
    ensures !s.producer.Sleeping? ==> (Next(s, a).producer.Sleeping? <==> a.Push? && !CanPush(s.q))
    ensures !s.consumer.Sleeping? ==> (Next(s, a).consumer.Sleeping? <==> a.Pop? && !CanPop(s.q))
  {
  }

  /** A side that sleeps although its predicate holds has a notification on the way. */
  ghost predicate Inv<T>(s: State<T>) {
    && (s.producer.Sleeping? && CanPush(s.q) ==>
          s.consumer.Notifying? || s.closingBoth != {} || s.closingProducer != {})
    && (s.consumer.Sleeping? && CanPop(s.q) ==> s.producer.Notifying? || s.closingBoth != {})
  }

  lemma NextInv<T>(s: State<T>, a: Action<T>)
    requires Inv(s) && Enabled(s, a)
    ensures Inv(Next(s, a))
  {
    if a.Close? || a.Fail? {
      assert a.t in s.closingBoth + {a.t};
    } else if a.NotifyConsumer? {
      assert a.t in s.closingProducer + {a.t};
    }
  }

  lemma {:induction false} RunInv<T>(s: State<T>, run: seq<Action<T>>)
    requires Inv(s) && Legal(s, run)
    ensures Inv(Exec(s, run))
    decreases |run|
  {
    if run != [] {
      NextInv(s, run[0]);
      RunInv(Next(s, run[0]), run[1..]);
    }
  }

  /** Steps that deliver a notification somebody already owes. */
  predicate Owed<T>(a: Action<T>) {
    a.ProducerNotifies? || a.ConsumerNotifies? || a.NotifyConsumer? || a.NotifyProducer?
  }

  predicate Settled<T>(s: State<T>) {
    !s.producer.Notifying? && !s.consumer.Notifying? && s.closingBoth == {} && s.closingProducer == {}
  }

  /** An owed step wakes the consumer. */
  ghost predicate ConsumerIsWokenBy<T>(s: State<T>, a: Action<T>) {
    Owed(a) && Enabled(s, a) && Next(s, a).consumer.Woken?
  }

  /** An owed step wakes the producer, or lets the same closer wake it in its next step. */
  ghost predicate ProducerIsWokenBy<T>(s: State<T>, a: Action<T>) {
    && Owed(a) && Enabled(s, a)
    && (Next(s, a).producer.Woken?
        || (a.NotifyConsumer? && Enabled(Next(s, a), NotifyProducer(a.t))
            && Next(Next(s, a), NotifyProducer(a.t)).producer.Woken?))
  }

  /** No lost wakeup: in every reachable state, a side that sleeps while its wait predicate is true
      has a notification of its own on the way, from a thread that can deliver it. */
  lemma NoLostWakeup<T>(capacity: nat, run: seq<Action<T>>)
    requires Legal(Init(capacity), run)
    ensures var s := Exec(Init(capacity), run);
            s.producer.Sleeping? && CanPush(s.q) ==> exists a: Action<T> :: ProducerIsWokenBy(s, a)
    ensures var s := Exec(Init(capacity), run);
            s.consumer.Sleeping? && CanPop(s.q) ==> exists a: Action<T> :: ConsumerIsWokenBy(s, a)
  {
    RunInv(Init(capacity), run);
    var s := Exec(Init(capacity), run);
    if s.producer.Sleeping? && CanPush(s.q) {
      ProducerHasNotifier(s);
    }
    if s.consumer.Sleeping? && CanPop(s.q) {
      ConsumerHasNotifier(s);
    }
  }

  lemma ProducerHasNotifier<T>(s: State<T>)
    requires Inv(s) && s.producer.Sleeping? && CanPush(s.q)
    ensures exists a: Action<T> :: ProducerIsWokenBy(s, a)
  {
    if s.consumer.Notifying? {
      assert ProducerIsWokenBy(s, ConsumerNotifies);
    } else if t :| t in s.closingBoth {
      assert ProducerIsWokenBy(s, NotifyConsumer(t));
    } else {
      var t :| t in s.closingProducer;
      assert ProducerIsWokenBy(s, NotifyProducer(t));
    }
  }

  lemma ConsumerHasNotifier<T>(s: State<T>)
    requires Inv(s) && s.consumer.Sleeping? && CanPop(s.q)
    ensures exists a: Action<T> :: ConsumerIsWokenBy(s, a)
  {
    if s.producer.Notifying? {
      assert ConsumerIsWokenBy(s, ProducerNotifies);
    } else {
      var t :| t in s.closingBoth;
      assert ConsumerIsWokenBy(s, NotifyConsumer(t));
    }
  }

  /** Delivering what is owed takes boundedly many steps, and afterwards nobody sleeps on a true
      predicate. */
  lemma {:induction false} OwedStepsSettle<T>(s: State<T>, run: seq<Action<T>>)
    requires Inv(s) && s.closingBoth !! s.closingProducer
    requires Legal(s, run) && forall a :: a in run ==> Owed(a)
    ensures |run| <= 2 + 2 * |s.closingBoth| + |s.closingProducer|
    ensures Settled(Exec(s, run)) ==>
              && !(Exec(s, run).producer.Sleeping? && CanPush(Exec(s, run).q))
              && !(Exec(s, run).consumer.Sleeping? && CanPop(Exec(s, run).q))
    decreases |run|
  {
    RunInv(s, run);
    OwedStepsAreFew(s, run);
  }

  function Owing<T>(s: State<T>): nat {
    (if s.producer.Notifying? then 1 else 0) + (if s.consumer.Notifying? then 1 else 0)
    + 2 * |s.closingBoth| + |s.closingProducer|
  }

  lemma {:induction false} OwedStepsAreFew<T>(s: State<T>, run: seq<Action<T>>)
    requires s.closingBoth !! s.closingProducer
    requires Legal(s, run) && forall a :: a in run ==> Owed(a)
    ensures |run| <= Owing(s)
    decreases |run|
  {
    if run != [] {
      assert Owed(run[0]);
      OwedStepsAreFew(Next(s, run[0]), run[1..]);
    }
  }
}
