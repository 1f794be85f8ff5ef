/** The three mutexes of a run: one in each queue and one in the pool. A queue call and a pool call hold
    their own mutex; `fail` holds a queue's mutex and takes the pool's once for every lease it discards. */
module LockOrder {
  import opened Base

  datatype Mutex = FirstQueue | SecondQueue | Pool

  /** Where a thread is: outside, about to lock for a call, inside a call, or inside `fail` about to
      take or holding the pool's mutex as well. */
  datatype Pc =
    | Outside
    | Wants(m: Mutex, fails: bool)
    | Inside(m: Mutex, fails: bool)
    | WantsPool(under: Mutex)
    | InPool(under: Mutex)

  datatype State = State(pcs: map<nat, Pc>, holders: map<Mutex, nat>)

  datatype Action =
    | Call(t: nat, m: Mutex, fails: bool)
    | Lock(t: nat)
    | Discard(t: nat)
    | LockPool(t: nat)
    | UnlockPool(t: nat)
    | Unlock(t: nat)

  function At(s: State, t: nat): Pc {
    if t in s.pcs then s.pcs[t] else Outside
  }

  /** The mutex that a thread is blocked on or about to take. */
  function Wanted(pc: Pc): Option<Mutex> {
    match pc
    case Wants(m, _) => Some(m)
    case WantsPool(_) => Some(Pool)
    case _ => None
  }

  predicate HoldsMutex(pc: Pc, m: Mutex) {
    match pc
    case Inside(x, _) => x == m
    case WantsPool(x) => x == m
    case InPool(x) => x == m || m == Pool
    case _ => false
  }

  predicate Enabled(s: State, a: Action) {
    match a
    case Call(t, m, fails) => At(s, t).Outside? && (fails ==> m != Pool)
    case Lock(t) => At(s, t).Wants? && At(s, t).m !in s.holders
    case Discard(t) => At(s, t).Inside? && At(s, t).fails
    case LockPool(t) => At(s, t).WantsPool? && Pool !in s.holders
    case UnlockPool(t) => At(s, t).InPool?
    case Unlock(t) => At(s, t).Inside?
  }

  function Next(s: State, a: Action): State
    requires Enabled(s, a)
  {
    match a
    case Call(t, m, fails) => s.(pcs := s.pcs[t := Wants(m, fails)])
    case Lock(t) =>
      State(s.pcs[t := Inside(At(s, t).m, At(s, t).fails)], s.holders[At(s, t).m := t])
    case Discard(t) => s.(pcs := s.pcs[t := WantsPool(At(s, t).m)])
    case LockPool(t) => State(s.pcs[t := InPool(At(s, t).under)], s.holders[Pool := t])
    case UnlockPool(t) => State(s.pcs[t := Inside(At(s, t).under, true)], s.holders - {Pool})
    case Unlock(t) => State(s.pcs[t := Outside], s.holders - {At(s, t).m})
  }

  const INIT := State(map[], map[])

  predicate Legal(s: State, run: seq<Action>)
    decreases |run|
  {
    run == [] || (Enabled(s, run[0]) && Legal(Next(s, run[0]), run[1..]))
  }

  function Exec(s: State, run: seq<Action>): State
    requires Legal(s, run)
    decreases |run|
  {
    if run == [] then s else Exec(Next(s, run[0]), run[1..])
  }

  /** Mutual exclusion, and `fail` runs under a queue's mutex only. */
  ghost predicate Inv(s: State) {
    && (forall t: nat, m :: HoldsMutex(At(s, t), m) <==> m in s.holders && s.holders[m] == t)
    && (forall t: nat :: PcOk(At(s, t)))
  }

  predicate PcOk(pc: Pc) {
    match pc
    case Wants(m, fails) => fails ==> m != Pool
    case Inside(m, fails) => fails ==> m != Pool
    case WantsPool(m) => m != Pool
    case InPool(m) => m != Pool
    case Outside => true
  }

  lemma NextInv(s: State, a: Action)
    requires Inv(s) && Enabled(s, a)
    ensures Inv(Next(s, a))
  {
    var n := Next(s, a);
    forall t: nat ensures PcOk(At(n, t)) {
      assert PcOk(At(s, t)) && PcOk(At(s, a.t));
    }
    forall t: nat, m ensures HoldsMutex(At(n, t), m) <==> m in n.holders && n.holders[m] == t {
      assert HoldsMutex(At(s, t), m) <==> m in s.holders && s.holders[m] == t;
      assert HoldsMutex(At(s, a.t), m) <==> m in s.holders && s.holders[m] == a.t;
      assert PcOk(At(s, a.t));
    }
  }

  lemma {:induction false} RunInv(s: State, run: seq<Action>)
    requires Inv(s) && Legal(s, run)
    ensures Inv(Exec(s, run))
    decreases |run|
  {
    if run != [] {
      NextInv(s, run[0]);
      RunInv(Next(s, run[0]), run[1..]);
    }
  }

  /** Thread t is blocked by thread u. */
  predicate WaitsFor(s: State, t: nat, u: nat) {
    Wanted(At(s, t)).Some? && HoldsMutex(At(s, u), Wanted(At(s, t)).value)
  }

  /** The queue mutexes come before the pool's, and a thread that waits for nothing comes last. */
  function Rank(pc: Pc): nat {
    match pc
    case Wants(m, _) => if m == Pool then 1 else 2
    case WantsPool(_) => 1
    case _ => 0
  }

  /** A path of threads, each blocked by the next. */
  predicate Chain(s: State, path: seq<nat>) {
    forall i :: 0 <= i < |path| - 1 ==> WaitsFor(s, path[i], path[i + 1])
  }

  lemma WaitingDescends(s: State, t: nat, u: nat)
    requires Inv(s) && WaitsFor(s, t, u)
    ensures Rank(At(s, u)) < Rank(At(s, t))
  {
    assert PcOk(At(s, t)) && PcOk(At(s, u));
    var m := Wanted(At(s, t)).value;
    assert HoldsMutex(At(s, u), m);
  }

  lemma {:induction false} ChainDescends(s: State, path: seq<nat>)
    requires Inv(s) && path != [] && Chain(s, path)
    ensures Rank(At(s, path[|path| - 1])) + |path| - 1 <= Rank(At(s, path[0]))
  {
    if |path| > 1 {
      assert WaitsFor(s, path[0], path[1]);
      WaitingDescends(s, path[0], path[1]);
      forall i | 0 <= i < |path[1..]| - 1 ensures WaitsFor(s, path[1..][i], path[1..][i + 1]) {
        assert WaitsFor(s, path[i + 1], path[i + 2]);
      }
      ChainDescends(s, path[1..]);
    }
  }

  /** For any number of threads and any calls: no chain of blocked threads closes into a cycle or is
      longer than three, and whoever is in a call is blocked only by a chain that ends in a thread that
      can go on. */
  lemma LocksNeverCycle(run: seq<Action>, path: seq<nat>)
    requires Legal(INIT, run) && path != [] && Chain(Exec(INIT, run), path)
    ensures |path| <= 3 && (|path| > 1 ==> path[0] != path[|path| - 1])
  {
    RunInv(INIT, run);
    ChainDescends(Exec(INIT, run), path);
  }

  lemma {:induction false} AddStep(s: State, run: seq<Action>, a: Action)
    requires Legal(s, run) && Enabled(Exec(s, run), a)
    ensures Legal(s, run + [a]) && Exec(s, run + [a]) == Next(Exec(s, run), a)
    decreases |run|
  {
    hide Enabled, Next;
    if run == [] {
      assert [] + [a] == [a] && [a][1..] == [];
      assert Legal(Next(s, a), []);
    } else {
      AddStep(Next(s, run[0]), run[1..], a);
      assert (run + [a])[0] == run[0] && (run + [a])[1..] == run[1..] + [a];
    }
  }

  lemma Extend(run: seq<Action>, s: State, a: Action) returns (longer: seq<Action>, n: State)
    requires Legal(INIT, run) && Exec(INIT, run) == s && Enabled(s, a)
    ensures Legal(INIT, longer) && Exec(INIT, longer) == n && n == Next(s, a)
  {
    hide Enabled, Next;
    AddStep(INIT, run, a);
    longer, n := run + [a], Next(s, a);
  }

  /** Chains of three threads do occur: one waits for a queue that `fail` keeps while that waits for the
      pool's mutex, which a third one holds. */
  lemma LongestChain() returns (run: seq<Action>)
    ensures Legal(INIT, run) && Chain(Exec(INIT, run), [0, 1, 2])
  {
    var s := INIT;
    run := [];
    hide Legal, Exec;
    NoSteps();
    run, s := Extend(run, s, Call(2, Pool, false));
    run, s := Extend(run, s, Lock(2));
    run, s := Extend(run, s, Call(1, FirstQueue, true));
    run, s := Extend(run, s, Lock(1));
    run, s := Extend(run, s, Discard(1));
    run, s := Extend(run, s, Call(0, FirstQueue, false));
    assert WaitsFor(s, 0, 1) && WaitsFor(s, 1, 2);
  }

  lemma NoSteps()
    ensures Legal(INIT, []) && Exec(INIT, []) == INIT
  {
  }

  /** A thread in a call can go on, or the holder of what it waits for can, or the holder of the pool's
      mutex that one waits for can. */
  lemma SomebodyGoesOn(run: seq<Action>, t: nat)
    requires Legal(INIT, run) && !At(Exec(INIT, run), t).Outside?
    ensures exists a: Action :: !a.Call? && Enabled(Exec(INIT, run), a)
  {
    var s := Exec(INIT, run);
    RunInv(INIT, run);
    HolderGoesOn(s, t);
  }

  lemma HolderGoesOn(s: State, t: nat)
    requires Inv(s) && !At(s, t).Outside?
    ensures exists a: Action :: !a.Call? && Enabled(s, a)
    decreases Rank(At(s, t))
  {
    match At(s, t) {
      case Inside(_, _) => assert Enabled(s, Unlock(t));
      case InPool(_) => assert Enabled(s, UnlockPool(t));
      case Wants(m, _) =>
        if m in s.holders {
          HolderOf(s, t, m);
        } else {
          assert Enabled(s, Lock(t));
        }
      case WantsPool(_) =>
        if Pool in s.holders {
          HolderOf(s, t, Pool);
        } else {
          assert Enabled(s, LockPool(t));
        }
    }
  }

  lemma HolderOf(s: State, t: nat, m: Mutex)
    requires Inv(s) && Wanted(At(s, t)) == Some(m) && m in s.holders
    ensures exists a: Action :: !a.Call? && Enabled(s, a)
    decreases Rank(At(s, t)), 0
  {
    var u := s.holders[m];
    assert HoldsMutex(At(s, u), m);
    WaitingDescends(s, t, u);
    HolderGoesOn(s, u);
  }
}
