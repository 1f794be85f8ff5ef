/** The pool's condition variable. Any number of threads acquire and release; a release notifies
    one sleeper after it has unlocked the mutex, a thread that is awake may take the buffer first,
    and sleepers may wake for no reason. */
module PoolWakeups {
  /** Threads asleep in `available_cv_`, threads woken there that have not yet run, and threads
      that have given a buffer back and have not yet called `notify_one`. */
  datatype State = State(free: nat, leased: nat, sleeping: set<nat>, woken: set<nat>, notifying: set<nat>)

  datatype Action =
    | Acquire(t: nat)
    | Release(t: nat)
    | Notify(t: nat, target: nat)
    | WakeSpuriously(t: nat)
    | Recheck(t: nat)

  predicate Running(s: State, t: nat) {
    t !in s.sleeping && t !in s.woken && t !in s.notifying
  }

  predicate Enabled(s: State, a: Action) {
    match a
    case Acquire(t) => Running(s, t)
    case Release(t) => Running(s, t) && s.leased > 0
    case Notify(t, u) => t in s.notifying && (s.sleeping != {} ==> u in s.sleeping)
    case WakeSpuriously(t) => t in s.sleeping
    case Recheck(t) => t in s.woken
  }

  /** With the mutex held: take a buffer if one is free, else go to sleep. */
  function TakeOrSleep(s: State, t: nat): State {
    if s.free > 0 then s.(free := s.free - 1, leased := s.leased + 1) else s.(sleeping := s.sleeping + {t})
  }

  function Next(s: State, a: Action): State
    requires Enabled(s, a)
  {
    match a
    case Acquire(t) => TakeOrSleep(s, t)
    case Release(t) => s.(free := s.free + 1, leased := s.leased - 1, notifying := s.notifying + {t})
    case Notify(t, u) =>
      if s.sleeping == {} then s.(notifying := s.notifying - {t})
      else s.(notifying := s.notifying - {t}, sleeping := s.sleeping - {u}, woken := s.woken + {u})
    case WakeSpuriously(t) => s.(sleeping := s.sleeping - {t}, woken := s.woken + {t})
    case Recheck(t) => TakeOrSleep(s.(woken := s.woken - {t}), t)
  }

  predicate Legal(s: State, run: seq<Action>)
    decreases |run|
  {
    run == [] || (Enabled(s, run[0]) && Legal(Next(s, run[0]), run[1..]))
  }

  function Exec(s: State, run: seq<Action>): State
    requires Legal(s, run)
    decreases |run|
  {
    if run == [] then s else Exec(Next(s, run[0]), run[1..])
  }

  function Init(buffers: nat): State {
    State(buffers, 0, {}, {}, {})
  }

  /** A thread that looks for a buffer gets one exactly when one is free, and sleeps otherwise. */
  lemma LookTakesOrSleeps(s: State, a: Action)
    requires Enabled(s, a) && (a.Acquire? || a.Recheck?) && s.sleeping !! s.woken
    ensures var n := Next(s, a);
            && (a.t in n.sleeping <==> s.free == 0)
            && n.leased == s.leased + (if s.free > 0 then 1 else 0) && n.free + n.leased == s.free + s.leased
  {
  }

  /** While anybody sleeps there are at most as many free buffers as threads that are about to
      look for one or to wake somebody who will. */
  ghost predicate Inv(buffers: nat, s: State) {
    && s.free + s.leased == buffers
    && s.sleeping !! s.woken !! s.notifying
    && (s.sleeping != {} ==> s.free <= |s.woken| + |s.notifying|)
  }

  lemma TakeOrSleepInv(buffers: nat, s: State, t: nat)
    requires s.free + s.leased == buffers && s.sleeping !! s.woken !! s.notifying && Running(s, t)
    requires s.sleeping != {} ==> s.free <= |s.woken| + |s.notifying| + 1
    ensures Inv(buffers, TakeOrSleep(s, t))
  {
  }

  lemma ReleaseInv(buffers: nat, s: State, t: nat)
    requires Inv(buffers, s) && Enabled(s, Release(t))
    ensures Inv(buffers, Next(s, Release(t)))
  {
  }

  lemma NotifyInv(buffers: nat, s: State, t: nat, u: nat)
    requires Inv(buffers, s) && Enabled(s, Notify(t, u))
    ensures Inv(buffers, Next(s, Notify(t, u)))
  {
  }

  lemma WakeInv(buffers: nat, s: State, t: nat)
    requires Inv(buffers, s) && t in s.sleeping
    ensures Inv(buffers, Next(s, WakeSpuriously(t)))
  {
  }

  lemma RecheckInv(buffers: nat, s: State, t: nat)
    requires Inv(buffers, s) && t in s.woken
    ensures Inv(buffers, Next(s, Recheck(t)))
  {
    TakeOrSleepInv(buffers, s.(woken := s.woken - {t}), t);
  }

  lemma NextInv(buffers: nat, s: State, a: Action)
    requires Inv(buffers, s) && Enabled(s, a)
    ensures Inv(buffers, Next(s, a))
  {
    match a {
      case Acquire(t) => TakeOrSleepInv(buffers, s, t);
      case Release(t) => ReleaseInv(buffers, s, t);
      case Notify(t, u) => NotifyInv(buffers, s, t, u);
      case WakeSpuriously(t) => WakeInv(buffers, s, t);
      case Recheck(t) => RecheckInv(buffers, s, t);
    }
  }

  lemma {:induction false} RunInv(buffers: nat, s: State, run: seq<Action>)
    requires Inv(buffers, s) && Legal(s, run)
    ensures Inv(buffers, Exec(s, run))
    decreases |run|
  {
    if run != [] {
      NextInv(buffers, s, run[0]);
      RunInv(buffers, Next(s, run[0]), run[1..]);
    }
  }

  /** The steps that a thread owes without anybody calling the pool again. */
  predicate Owed(a: Action) {
    a.Notify? || a.Recheck?
  }

  predicate Settled(s: State) {
    s.woken == {} && s.notifying == {}
  }

  /** No lost wakeup: in every reachable state a thread sleeps beside a free buffer only while
      another thread owes a notification or has been woken and will look. */
  lemma NoLostWakeup(buffers: nat, run: seq<Action>)
    requires Legal(Init(buffers), run)
    ensures var s := Exec(Init(buffers), run);
            s.sleeping != {} ==> s.free <= |s.woken| + |s.notifying|
    ensures var s := Exec(Init(buffers), run);
            s.sleeping != {} && s.free > 0 ==> exists a :: Owed(a) && Enabled(s, a)
  {
    RunInv(buffers, Init(buffers), run);
    var s := Exec(Init(buffers), run);
    if s.sleeping != {} && s.free > 0 {
      SomebodyOwes(s);
    }
  }

  lemma SomebodyOwes(s: State)
    requires !Settled(s)
    ensures exists a :: Owed(a) && Enabled(s, a)
  {
    if t :| t in s.woken {
      assert Owed(Recheck(t)) && Enabled(s, Recheck(t));
    } else {
      var t :| t in s.notifying;
      if u :| u in s.sleeping {
        assert Owed(Notify(t, u)) && Enabled(s, Notify(t, u));
      } else {
        assert Owed(Notify(t, 0)) && Enabled(s, Notify(t, 0));
      }
    }
  }

  lemma Without(threads: set<nat>, t: nat)
    requires t in threads
    ensures |threads - {t}| == |threads| - 1
  {
  }

  lemma NotifySettles(s: State, t: nat, u: nat)
    requires s.sleeping !! s.woken !! s.notifying && Enabled(s, Notify(t, u))
    ensures var n := Next(s, Notify(t, u));
            && n.sleeping !! n.woken !! n.notifying
            && |n.notifying| == |s.notifying| - 1 && |n.woken| <= |s.woken| + 1
  {
    Without(s.notifying, t);
    if s.sleeping != {} {
      assert |s.woken + {u}| <= |s.woken| + 1;
    }
  }

  lemma RecheckSettles(s: State, t: nat)
    requires s.sleeping !! s.woken !! s.notifying && t in s.woken
    ensures var n := Next(s, Recheck(t));
            n.sleeping !! n.woken !! n.notifying && n.notifying == s.notifying && |n.woken| == |s.woken| - 1
  {
    Without(s.woken, t);
  }

  /** An owed step settles part of what is owed. */
  lemma OwedStepSettles(s: State, a: Action)
    requires s.sleeping !! s.woken !! s.notifying && Enabled(s, a) && Owed(a)
    ensures var n := Next(s, a);
            && n.sleeping !! n.woken !! n.notifying
            && 2 * |n.notifying| + |n.woken| < 2 * |s.notifying| + |s.woken|
  {
    hide Next;
    if a.Notify? {
      NotifySettles(s, a.t, a.target);
    } else {
      RecheckSettles(s, a.t);
    }
  }

  lemma {:induction false} OwedStepsAreFew(s: State, run: seq<Action>)
    requires s.sleeping !! s.woken !! s.notifying
    requires Legal(s, run) && forall a :: a in run ==> Owed(a)
    ensures |run| <= 2 * |s.notifying| + |s.woken|
    decreases |run|
  {
    hide Enabled, Next, Owed;
    if run != [] {
      assert run[0] in run;
      OwedStepSettles(s, run[0]);
      OwedStepsAreFew(Next(s, run[0]), run[1..]);
    }
  }

  /** Owed steps come to an end, each notification costing at most two of them, and when they
      have, either nobody sleeps or no buffer is free. */
  lemma OwedStepsSettle(buffers: nat, s: State, run: seq<Action>)
    requires Inv(buffers, s) && Legal(s, run) && forall a :: a in run ==> Owed(a)
    ensures |run| <= 2 * |s.notifying| + |s.woken|
    ensures Settled(Exec(s, run)) ==> Exec(s, run).sleeping == {} || Exec(s, run).free == 0
  {
    RunInv(buffers, s, run);
    OwedStepsAreFew(s, run);
  }
}
