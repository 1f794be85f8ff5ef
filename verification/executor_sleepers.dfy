/** The executor with its condition variables: a thread whose wait predicate is false may go to sleep,
    a thread that changed what others wait for notifies them after it has unlocked and before it does
    anything else, and sleepers may wake for no reason. */
module ExecutorSleepers {
  import opened Base
  import opened BoundedQueue
  import opened ExecutorControl
  import opened RunSpec
  import E = Executor
  import I = ExecutorInvariant
  import P = ExecutorProgress

  datatype Cv = PoolFree | FirstNotFull | FirstNotEmpty | SecondNotFull | SecondNotEmpty

  /** `owed` lists the notifications that a thread has to deliver before its next step. */
  datatype State = State(run: E.State, asleep: set<E.Tid>, owed: map<E.Tid, seq<Cv>>)

  datatype Action =
    | Step(a: E.Action)
    | Notify(t: E.Tid)
    | Sleep(t: E.Tid)
    | WakeSpuriously(t: E.Tid)

  function Init(c: Config): State {
    State(E.Init(c), {}, map[])
  }

  function Actor(a: E.Action): E.Tid {
    match a
    case StepReader => E.ReaderThread
    case StepProcessor => E.ProcessorThread
    case StepWriter(_) => E.WriterThread
    case StepMain(_) => E.MainThread
    case StepFail(t) => t
  }

  /** The condition variable of the wait that a thread is in, if it is in one. */
  function WaitsOn(r: E.State, t: E.Tid): Option<Cv> {
    match t
    case ReaderThread =>
      if r.reader.RAcquire? then Some(PoolFree) else if r.reader.RPush? then Some(FirstNotFull) else None
    case ProcessorThread =>
      if r.processor.PPop? then Some(FirstNotEmpty) else if r.processor.PPush? then Some(SecondNotFull) else None
    case WriterThread => if r.writer.WPop? then Some(SecondNotEmpty) else None
    case MainThread => None
  }

  /** The only thread that ever waits there. */
  function Waiter(cv: Cv): E.Tid {
    match cv
    case PoolFree => E.ReaderThread
    case FirstNotFull => E.ReaderThread
    case FirstNotEmpty => E.ProcessorThread
    case SecondNotFull => E.ProcessorThread
    case SecondNotEmpty => E.WriterThread
  }

  /** The wait predicate. */
  predicate Holds(r: E.State, cv: Cv) {
    match cv
    case PoolFree => r.pool.free != []
    case FirstNotFull => CanPush(r.first)
    case FirstNotEmpty => CanPop(r.first)
    case SecondNotFull => CanPush(r.second)
    case SecondNotEmpty => CanPop(r.second)
  }

  /** A thread in `fail` keeps the mutex that the wait needs. */
  predicate Locked(r: E.State, cv: Cv) {
    match cv
    case PoolFree => false
    case FirstNotFull => r.firstLock.Some?
    case FirstNotEmpty => r.firstLock.Some?
    case SecondNotFull => r.secondLock.Some?
    case SecondNotEmpty => r.secondLock.Some?
  }

  function ReaderOwes(r: E.State): seq<Cv>
    requires r.reader.RPush? ==> CanPush(r.first)
  {
    match r.reader
    case RPush(_) => if PushResult(r.first) == Pushed then [FirstNotEmpty] else []
    case RClose(_) => [FirstNotEmpty, FirstNotFull]
    case RDrop(_) => [PoolFree]
    case RUnwind(_, _) => [PoolFree]
    case _ => []
  }

  function ProcessorOwes(r: E.State): seq<Cv>
    requires r.processor.PPop? ==> CanPop(r.first)
    requires r.processor.PPush? ==> CanPush(r.second)
  {
    match r.processor
    case PPop => if PopResult(r.first).Popped? then [FirstNotFull] else []
    case PPush(_) => if PushResult(r.second) == Pushed then [SecondNotEmpty] else []
    case PClose => [SecondNotEmpty, SecondNotFull]
    case PUnwind(_, _) => [PoolFree]
    case _ => []
  }

  function WriterOwes(r: E.State): seq<Cv>
    requires r.writer.WPop? ==> CanPop(r.second)
  {
    match r.writer
    case WPop => if PopResult(r.second).Popped? then [SecondNotFull] else []
    case WRelease(_) => [PoolFree]
    case WUnwind(_, _) => [PoolFree]
    case _ => []
  }

  /** `fail` notifies when it has unlocked; each discarded lease notifies the pool's waiter. */
  function FailOwes(r: E.State, t: E.Tid): seq<Cv>
    requires t in r.failing
  {
    match r.failing[t]
    case DiscardFirst(_) => if r.first.items == [] then [FirstNotEmpty, FirstNotFull] else [PoolFree]
    case DiscardSecond(_) => if r.second.items == [] then [SecondNotEmpty, SecondNotFull] else [PoolFree]
    case _ => []
  }

  function Owes(c: Config, r: E.State, a: E.Action): seq<Cv>
    requires E.Enabled(c, r, a)
  {
    match a
    case StepReader => ReaderOwes(r)
    case StepProcessor => ProcessorOwes(r)
    case StepWriter(_) => WriterOwes(r)
    case StepMain(_) => []
    case StepFail(t) => FailOwes(r, t)
  }

  function Owed(s: State, t: E.Tid): seq<Cv> {
    if t in s.owed then s.owed[t] else []
  }

  /** The joins wait for the threads themselves, and so for their last notifications. */
  predicate Enabled(c: Config, s: State, a: Action) {
    match a
    case Step(x) =>
      && E.Enabled(c, s.run, x) && Actor(x) !in s.asleep && Owed(s, Actor(x)) == []
      && (x.StepMain? && s.run.main.Joining? ==>
            Owed(s, E.ReaderThread) == Owed(s, E.ProcessorThread) == Owed(s, E.WriterThread) == [])
    case Notify(t) => Owed(s, t) != []
    case Sleep(t) =>
      && t !in s.asleep && Owed(s, t) == [] && WaitsOn(s.run, t).Some?
      && !Locked(s.run, WaitsOn(s.run, t).value) && !Holds(s.run, WaitsOn(s.run, t).value)
    case WakeSpuriously(t) => t in s.asleep
  }

  function AfterNotify(s: State, t: E.Tid): State
    requires Owed(s, t) != []
  {
    var cv := Owed(s, t)[0];
    var woken := if WaitsOn(s.run, Waiter(cv)) == Some(cv) then {Waiter(cv)} else {};
    s.(asleep := s.asleep - woken, owed := s.owed[t := Owed(s, t)[1..]])
  }

  function Next(c: Config, s: State, a: Action): State
    requires Enabled(c, s, a)
  {
    match a
    case Step(x) => s.(run := E.Next(c, s.run, x), owed := s.owed[Actor(x) := Owes(c, s.run, x)])
    case Notify(t) => AfterNotify(s, t)
    case Sleep(t) => s.(asleep := s.asleep + {t})
    case WakeSpuriously(t) => s.(asleep := s.asleep - {t})
  }

  predicate Legal(c: Config, s: State, run: seq<Action>)
    decreases |run|
  {
    run == [] || (Enabled(c, s, run[0]) && Legal(c, Next(c, s, run[0]), run[1..]))
  }

  function Exec(c: Config, s: State, run: seq<Action>): State
    requires Legal(c, s, run)
    decreases |run|
  {
    if run == [] then s else Exec(c, Next(c, s, run[0]), run[1..])
  }

  // ----- the invariant -----

  /** A notification for this wait is on its way, or the thread in `fail` will send it. */
  ghost predicate Coming(s: State, cv: Cv) {
    Locked(s.run, cv) || exists u :: cv in Owed(s, u)
  }

  ghost predicate SleeperOk(s: State, t: E.Tid) {
    t in s.asleep ==>
      && WaitsOn(s.run, t).Some? && Owed(s, t) == []
      && (Holds(s.run, WaitsOn(s.run, t).value) ==> Coming(s, WaitsOn(s.run, t).value))
  }

  ghost predicate Inv(c: Config, s: State) {
    I.Inv(c, s.run) && forall t :: SleeperOk(s, t)
  }

  /** A step that makes a wait predicate true, or releases the mutex of a failed queue, owes the
      notification, unless it is `fail` that still keeps the mutex. */
  ghost predicate Announced(r: E.State, n: E.State, owes: seq<Cv>, cv: Cv) {
    && (Holds(n, cv) && !Holds(r, cv) ==> cv in owes || Locked(n, cv))
    && (Locked(r, cv) && !Locked(n, cv) ==> cv in owes)
  }

  lemma ReaderAnnounces(c: Config, r: E.State, cv: Cv)
    requires E.ReaderReady(c, r)
    ensures Announced(r, E.ReaderNext(c, r), ReaderOwes(r), cv)
  {
    hide E.Fill, E.ReaderAfterRead;
  }

  lemma ProcessorAnnounces(c: Config, r: E.State, cv: Cv)
    requires E.ProcessorReady(c, r)
    ensures Announced(r, E.ProcessorNext(c, r), ProcessorOwes(r), cv)
  {
    hide E.Fill;
  }

  lemma WriterAnnounces(c: Config, r: E.State, w: E.WriteChoice, cv: Cv)
    requires E.WriterReady(c, r, w)
    ensures Announced(r, E.WriterNext(c, r, w), WriterOwes(r), cv)
  {
    hide E.ValidData;
  }

  lemma FailAnnounces(c: Config, r: E.State, t: E.Tid, cv: Cv)
    requires Locks(r) && E.FailReady(r, t)
    ensures Announced(r, E.FailNext(r, t), FailOwes(r, t), cv)
  {
    DiscarderKeepsLock(r, t);
    hide Locks, Announced;
    match r.failing[t] {
      case Record(f) => RecordAnnounces(r, t, f, cv);
      case FailFirst(f) => FailFirstAnnounces(r, t, f, cv);
      case FailSecond(f) => FailSecondAnnounces(r, t, f, cv);
      case DiscardFirst(f) => DiscardFirstAnnounces(r, t, cv);
      case DiscardSecond(f) => DiscardSecondAnnounces(r, t, cv);
    }
  }

  lemma RecordAnnounces(r: E.State, t: E.Tid, f: Failure, cv: Cv)
    ensures Announced(r, E.AfterRecord(r, t, f), [], cv)
  {
  }

  lemma FailFirstAnnounces(r: E.State, t: E.Tid, f: Failure, cv: Cv)
    requires r.firstLock.None?
    ensures Announced(r, E.AfterFailFirst(r, t, f), [], cv)
  {
  }

  lemma FailSecondAnnounces(r: E.State, t: E.Tid, f: Failure, cv: Cv)
    requires r.secondLock.None?
    ensures Announced(r, E.AfterFailSecond(r, t, f), [], cv)
  {
  }

  lemma DiscardFirstAnnounces(r: E.State, t: E.Tid, cv: Cv)
    requires E.FailReady(r, t) && r.failing[t].DiscardFirst? && r.firstLock == Some(t)
    ensures Announced(r, E.FailNext(r, t), FailOwes(r, t), cv)
  {
  }

  lemma DiscardSecondAnnounces(r: E.State, t: E.Tid, cv: Cv)
    requires E.FailReady(r, t) && r.failing[t].DiscardSecond? && r.secondLock == Some(t)
    ensures Announced(r, E.FailNext(r, t), FailOwes(r, t), cv)
  {
  }

  lemma DiscarderKeepsLock(r: E.State, t: E.Tid)
    requires Locks(r) && E.FailReady(r, t)
    ensures r.failing[t].DiscardFirst? <==> r.firstLock == Some(t)
    ensures r.failing[t].DiscardSecond? <==> r.secondLock == Some(t)
  {
  }

  lemma StepAnnounces(c: Config, r: E.State, a: E.Action, cv: Cv)
    requires I.Inv(c, r) && E.Enabled(c, r, a)
    ensures Announced(r, E.Next(c, r, a), Owes(c, r, a), cv)
  {
    hide Announced;
    match a {
      case StepReader => ReaderAnnounces(c, r, cv);
      case StepProcessor => ProcessorAnnounces(c, r, cv);
      case StepWriter(w) => WriterAnnounces(c, r, w, cv);
      case StepFail(t) => FailAnnounces(c, r, t, cv);
      case StepMain(spawn) => MainAnnounces(r, spawn, cv);
    }
  }

  lemma MainAnnounces(r: E.State, spawn: E.SpawnChoice, cv: Cv)
    requires E.MainReady(r)
    ensures Announced(r, E.MainNext(r, spawn), [], cv)
  {
  }

  /** A step does not move a thread that waits, other than its own. */
  lemma StepLeavesOthers(c: Config, r: E.State, a: E.Action, t: E.Tid)
    requires I.Inv(c, r) && E.Enabled(c, r, a) && t != Actor(a) && WaitsOn(r, t).Some?
    ensures WaitsOn(E.Next(c, r, a), t) == WaitsOn(r, t)
  {
    hide I.Inv;
    match a {
      case StepReader => assert E.ReaderNext(c, r).processor == r.processor && E.ReaderNext(c, r).writer == r.writer;
      case StepProcessor =>
        assert E.ProcessorNext(c, r).reader == r.reader && E.ProcessorNext(c, r).writer == r.writer;
      case StepWriter(w) =>
        assert E.WriterNext(c, r, w).reader == r.reader && E.WriterNext(c, r, w).processor == r.processor;
      case StepFail(x) => FailMovesNobody(r, x);
      case StepMain(spawn) => MainLeavesWaiting(c, r, spawn, t);
    }
  }

  lemma FailMovesNobody(r: E.State, t: E.Tid)
    requires E.FailReady(r, t)
    ensures var n := E.FailNext(r, t); n.reader == r.reader && n.processor == r.processor && n.writer == r.writer
  {
  }

  lemma MainLeavesWaiting(c: Config, r: E.State, spawn: E.SpawnChoice, t: E.Tid)
    requires I.Inv(c, r) && E.MainReady(r) && WaitsOn(r, t).Some?
    ensures WaitsOn(E.MainNext(r, spawn), t) == WaitsOn(r, t)
  {
  }

  lemma StepKeepsInv(c: Config, s: State, a: E.Action)
    requires Inv(c, s) && Enabled(c, s, Step(a))
    ensures Inv(c, Next(c, s, Step(a)))
  {
    var n := Next(c, s, Step(a));
    I.NextInv(c, s.run, a);
    forall t ensures SleeperOk(n, t) {
      assert SleeperOk(s, t);
      if t in s.asleep {
        StepKeepsSleeper(c, s, a, t);
      }
    }
  }

  lemma StepKeepsSleeper(c: Config, s: State, a: E.Action, t: E.Tid)
    requires I.Inv(c, s.run) && Enabled(c, s, Step(a)) && t in s.asleep && SleeperOk(s, t)
    ensures SleeperOk(Next(c, s, Step(a)), t)
  {
    hide I.Inv, E.Enabled, E.Next, Owes, WaitsOn, Holds, Locked;
    var n := Next(c, s, Step(a));
    var cv := WaitsOn(s.run, t).value;
    StepLeavesOthers(c, s.run, a, t);
    StepAnnounces(c, s.run, a, cv);
    if cv in Owes(c, s.run, a) {
      assert cv in Owed(n, Actor(a));
    }
    if u :| cv in Owed(s, u) {
      assert cv in Owed(n, u);
    }
  }

  lemma NotifyKeepsInv(c: Config, s: State, t: E.Tid)
    requires Inv(c, s) && Owed(s, t) != []
    ensures Inv(c, AfterNotify(s, t))
  {
    hide I.Inv, Holds, Locked;
    var n := AfterNotify(s, t);
    forall u ensures SleeperOk(n, u) {
      assert SleeperOk(s, u);
      if u in n.asleep {
        NotifyKeepsSleeper(s, t, u);
      }
    }
  }

  lemma NotifyKeepsSleeper(s: State, t: E.Tid, u: E.Tid)
    requires Owed(s, t) != [] && SleeperOk(s, u) && u in AfterNotify(s, t).asleep
    ensures SleeperOk(AfterNotify(s, t), u)
  {
    hide Holds, Locked;
    var n := AfterNotify(s, t);
    var cv := WaitsOn(s.run, u).value;
    assert Waiter(cv) == u;
    assert cv != Owed(s, t)[0];
    if v :| cv in Owed(s, v) {
      assert cv in Owed(n, v);
    }
  }

  lemma SleepKeepsInv(c: Config, s: State, t: E.Tid)
    requires Inv(c, s) && (Enabled(c, s, Sleep(t)) || t in s.asleep)
    ensures Enabled(c, s, Sleep(t)) ==> Inv(c, Next(c, s, Sleep(t)))
    ensures t in s.asleep ==> Inv(c, Next(c, s, WakeSpuriously(t)))
  {
    hide I.Inv, Holds, Locked;
    forall u ensures SleeperOk(s.(asleep := s.asleep + {t}), u) || !Enabled(c, s, Sleep(t)) {
      assert SleeperOk(s, u);
      SameOwed(s, s.(asleep := s.asleep + {t}));
    }
    forall u ensures SleeperOk(s.(asleep := s.asleep - {t}), u) {
      assert SleeperOk(s, u);
      SameOwed(s, s.(asleep := s.asleep - {t}));
    }
  }

  lemma SameOwed(s: State, n: State)
    requires n.run == s.run && n.owed == s.owed
    ensures forall cv :: Coming(n, cv) <==> Coming(s, cv)
  {
    forall cv ensures Coming(n, cv) <==> Coming(s, cv) {
      assert forall u :: Owed(n, u) == Owed(s, u);
    }
  }

  lemma NextInv(c: Config, s: State, a: Action)
    requires Inv(c, s) && Enabled(c, s, a)
    ensures Inv(c, Next(c, s, a))
  {
    hide Inv;
    match a {
      case Step(x) => StepKeepsInv(c, s, x);
      case Notify(t) => NotifyKeepsInv(c, s, t);
      case Sleep(t) => SleepKeepsInv(c, s, t);
      case WakeSpuriously(t) => SleepKeepsInv(c, s, t);
    }
  }

  lemma {:induction false} RunInv(c: Config, s: State, run: seq<Action>)
    requires Inv(c, s) && Legal(c, s, run)
    ensures Inv(c, Exec(c, s, run))
    decreases |run|
  {
    hide Inv, Enabled, Next;
    if run != [] {
      NextInv(c, s, run[0]);
      RunInv(c, Next(c, s, run[0]), run[1..]);
    }
  }

  // ----- who sleeps -----

  /** A thread of the run that is in a wait, owes nothing and gets the mutex either steps or goes to sleep:
      it can do one of the two, and never the other. */
  lemma StepOrSleep(c: Config, s: State, t: E.Tid)
    requires Inv(c, s) && WaitsOn(s.run, t).Some? && !Locked(s.run, WaitsOn(s.run, t).value)
    requires t !in s.asleep && Owed(s, t) == []
    ensures Enabled(c, s, Sleep(t)) <==> forall a :: Actor(a) == t ==> !Enabled(c, s, Step(a))
  {
    hide I.Inv, E.Enabled, WaitsOn, Holds, Locked;
    var cv := WaitsOn(s.run, t).value;
    if Holds(s.run, cv) {
      var a := WaiterCanStep(c, s.run, t);
      assert Enabled(c, s, Step(a));
    } else {
      forall a | Actor(a) == t ensures !Enabled(c, s, Step(a)) {
        if E.Enabled(c, s.run, a) {
          EnabledMeansAwake(c, s.run, a);
        }
      }
    }
  }

  lemma WaiterCanStep(c: Config, r: E.State, t: E.Tid) returns (a: E.Action)
    requires WaitsOn(r, t).Some? && Holds(r, WaitsOn(r, t).value) && !Locked(r, WaitsOn(r, t).value)
    ensures Actor(a) == t && E.Enabled(c, r, a) && !a.StepMain?
  {
    a := if t.ReaderThread? then E.StepReader
         else if t.ProcessorThread? then E.StepProcessor
         else E.StepWriter(E.WriteError(EIO));
  }

  /** A sleeper does nothing, and wakes only by a notification of the very condition variable that it
      waits on, or for no reason. */
  lemma SleepersStayAsleep(c: Config, s: State, a: Action, t: E.Tid)
    requires Inv(c, s) && t in s.asleep && Enabled(c, s, a)
    ensures a.Step? ==> Actor(a.a) != t
    ensures t in Next(c, s, a).asleep <==>
      a != WakeSpuriously(t) && !(a.Notify? && Some(Owed(s, a.t)[0]) == WaitsOn(s.run, t))
  {
    hide I.Inv, E.Enabled, E.Next, Holds, Locked, Owes;
    assert SleeperOk(s, t);
  }

  // ----- progress -----

  lemma AwakeOrComing(c: Config, s: State, a: E.Action)
    requires Inv(c, s) && E.Enabled(c, s.run, a) && Actor(a) in s.asleep
    ensures exists u :: Owed(s, u) != []
  {
    assert SleeperOk(s, Actor(a));
    var cv := WaitsOn(s.run, Actor(a)).value;
    EnabledMeansAwake(c, s.run, a);
    hide I.Inv, E.Enabled, WaitsOn, Holds, Locked;
    var u :| cv in Owed(s, u);
    assert Owed(s, u) != [];
  }

  /** A thread that can step although it is in a wait finds its predicate true and the mutex free. */
  lemma EnabledMeansAwake(c: Config, r: E.State, a: E.Action)
    requires I.Inv(c, r) && E.Enabled(c, r, a) && WaitsOn(r, Actor(a)).Some?
    ensures Holds(r, WaitsOn(r, Actor(a)).value) && !Locked(r, WaitsOn(r, Actor(a)).value)
  {
    if a.StepFail? {
      FailingThreadsDoNotWait(r, a.thread);
    }
  }

  lemma FailingThreadsDoNotWait(r: E.State, t: E.Tid)
    requires Locks(r) && t in r.failing
    ensures WaitsOn(r, t) == None
  {
    assert LeftByException(r, t);
  }

  /** Something other than falling asleep or waking for no reason can happen until `run` has left, and
      then nobody sleeps. */
  lemma SomethingHappens(c: Config, s: State) returns (a: Action)
    requires Inv(c, s) && !E.Terminal(s.run)
    ensures Enabled(c, s, a) && (a.Step? || a.Notify?)
  {
    if u :| Owed(s, u) != [] {
      a := Notify(u);
    } else {
      hide I.Inv, Owed;
      var x := P.SomeActionEnabled(c, s.run);
      if Actor(x) in s.asleep {
        AwakeOrComing(c, s, x);
        assert false;
      }
      a := Step(x);
    }
  }

  lemma NobodySleepsAtTheEnd(c: Config, s: State)
    requires Inv(c, s) && E.Terminal(s.run)
    ensures s.asleep == {}
  {
    forall t ensures t !in s.asleep {
      assert SleeperOk(s, t);
    }
  }

  function Awake(s: State): nat {
    (if E.ReaderThread in s.asleep then 0 else 1) + (if E.ProcessorThread in s.asleep then 0 else 1)
    + (if E.WriterThread in s.asleep then 0 else 1)
  }

  function OwedCount(s: State): nat {
    |Owed(s, E.MainThread)| + |Owed(s, E.ReaderThread)| + |Owed(s, E.ProcessorThread)| + |Owed(s, E.WriterThread)|
  }

  function Measure(c: Config, s: State): int {
    8 * P.Measure(c, s.run) + 2 * OwedCount(s) + Awake(s)
  }

  lemma OwesAreFew(c: Config, r: E.State, a: E.Action)
    requires E.Enabled(c, r, a)
    ensures |Owes(c, r, a)| <= 2
  {
  }

  lemma StepMeasure(c: Config, s: State, a: E.Action)
    requires Inv(c, s) && Enabled(c, s, Step(a))
    ensures Measure(c, Next(c, s, Step(a))) < Measure(c, s)
  {
    hide E.Enabled, E.Next, P.Measure, I.Inv, Owes;
    P.NextDecreases(c, s.run, a);
    OwesAreFew(c, s.run, a);
    var n := Next(c, s, Step(a));
    assert forall u :: u != Actor(a) ==> Owed(n, u) == Owed(s, u);
  }

  lemma QuietMeasure(c: Config, s: State, a: Action)
    requires Inv(c, s) && Enabled(c, s, a) && (a.Notify? || a.Sleep?)
    ensures Measure(c, Next(c, s, a)) < Measure(c, s)
  {
    hide I.Inv, P.Measure, Holds, Locked;
    if a.Notify? {
      var n := AfterNotify(s, a.t);
      assert forall u :: u != a.t ==> Owed(n, u) == Owed(s, u);
    } else {
      assert a.t != E.MainThread;
    }
  }

  lemma {:induction false} RunIsBounded(c: Config, s: State, run: seq<Action>)
    requires Inv(c, s) && Legal(c, s, run) && forall a :: a in run ==> !a.WakeSpuriously?
    ensures |run| <= Measure(c, s) - Measure(c, Exec(c, s, run))
    decreases |run|
  {
    hide Inv, Enabled, Next, Measure;
    if run != [] {
      assert run[0] in run;
      NextInv(c, s, run[0]);
      if run[0].Step? {
        StepMeasure(c, s, run[0].a);
      } else {
        QuietMeasure(c, s, run[0]);
      }
      RunIsBounded(c, Next(c, s, run[0]), run[1..]);
    }
  }

  ghost predicate Reaches(c: Config, run: seq<Action>, s: State) {
    Accepted(c) && Legal(c, Init(c), run) && Exec(c, Init(c), run) == s
  }

  lemma ReachedInv(c: Config, run: seq<Action>, s: State)
    requires Reaches(c, run, s)
    ensures Inv(c, Init(c)) && Inv(c, s)
  {
    hide I.Inv, Enabled, Next;
    I.InitInv(c);
    assert Inv(c, Init(c));
    RunInv(c, Init(c), run);
  }

  /** No thread sleeps for good. In every reachable state either `run` has left and nobody sleeps, or a
      thread that is awake can take a step or deliver a notification that it owes; and apart from
      spurious wakeups every interleaving, sleeping and notifying included, comes to an end. */
  lemma NobodySleepsForGood(c: Config, run: seq<Action>, s: State)
    requires Reaches(c, run, s)
    ensures E.Terminal(s.run) ==> s.asleep == {}
    ensures !E.Terminal(s.run) ==> exists a :: Enabled(c, s, a) && (a.Step? || a.Notify?)
    ensures (forall a :: a in run ==> !a.WakeSpuriously?) ==> |run| <= 200 * |c.input| + 723
  {
    hide Inv, Enabled, E.Terminal, Legal, Exec;
    ReachedInv(c, run, s);
    if E.Terminal(s.run) {
      NobodySleepsAtTheEnd(c, s);
    } else {
      var a := SomethingHappens(c, s);
    }
    if forall a :: a in run ==> !a.WakeSpuriously? {
      RunIsBounded(c, Init(c), run);
      MeasureAtLeastZero(c, s);
      InitialMeasure(c);
    }
  }

  lemma MeasureAtLeastZero(c: Config, s: State)
    requires Inv(c, s)
    ensures Measure(c, s) >= 0
  {
    P.MeasureBounded(c, s.run);
  }

  lemma InitialMeasure(c: Config)
    ensures Measure(c, Init(c)) == 200 * |c.input| + 723
  {
  }
}
