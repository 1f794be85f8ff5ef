/** The lock-free gauge: a current value and the highest value it has had. */
module Metrics {
  import opened Base

  /** Two's-complement wrap-around of `std::atomic<int64_t>`. */
  function Wrap(x: int): (r: int)
    ensures I64_MIN <= r <= I64_MAX
    ensures I64_MIN <= x <= I64_MAX ==> r == x
  {
    (x - I64_MIN) % 0x1_0000_0000_0000_0000 + I64_MIN
  }

  predicate InRange(x: int) {
    I64_MIN <= x <= I64_MAX
  }

  function Max(a: int, b: int): int {
    if a < b then b else a
  }

  /** The gauge as one thread at a time sees it. */
  class Gauge {
    var current: int
    var highWatermark: int

    ghost predicate Valid()
      reads this
    {
      InRange(current) && InRange(highWatermark) && 0 <= highWatermark
    }

    constructor ()
      ensures Valid() && current == 0 && highWatermark == 0
    {
      current, highWatermark := 0, 0;
    }

    method Set(value: int)
      requires Valid() && InRange(value)
      modifies this
      ensures Valid() && current == value && highWatermark == Max(old(highWatermark), value)
    {
      current := value;
      UpdateHighWatermark(value);
    }

    method Increment()
      requires Valid()
      modifies this
      ensures Valid() && current == Wrap(old(current) + 1)
      ensures highWatermark == Max(old(highWatermark), if old(current) == I64_MAX then I64_MAX else current)
    {
      var previous := current;
      current := Wrap(previous + 1);
      if previous == I64_MAX {
        UpdateHighWatermark(previous);
        return;
      }
      UpdateHighWatermark(previous + 1);
    }

    method Decrement()
      requires Valid()
      modifies this
      ensures Valid() && current == Wrap(old(current) - 1) && highWatermark == old(highWatermark)
    {
      current := Wrap(current - 1);
    }

    /** The weak compare-and-exchange may fail for no reason, finitely often. */
    method UpdateHighWatermark(candidate: int)
      requires Valid() && InRange(candidate)
      modifies this`highWatermark
      ensures Valid() && highWatermark == Max(old(highWatermark), candidate)
    {
      var spuriousFailures: nat := *;
      var observed := highWatermark;
      var exchanged := false;
      while candidate > observed && !exchanged
        invariant highWatermark == (if exchanged then candidate else observed)
        invariant exchanged ==> candidate > observed
        invariant observed == old(highWatermark)
        decreases spuriousFailures, !exchanged
      {
        if spuriousFailures > 0 {
          spuriousFailures, observed := spuriousFailures - 1, highWatermark;
        } else {
          highWatermark, exchanged := candidate, true;
        }
      }
    }
  }
}

/** The gauge under any interleaving of concurrent updates. */
module GaugeProtocol {
  import opened Base
  import opened Metrics

  /** A thread inside `update_high_watermark`, before its first load or in the loop. */
  datatype Pc = Loading(candidate: int) | Comparing(candidate: int, observed: int)

  /** `peak` is the largest value `current` has held, `offered` the largest value a `set` or an
      increment has asked the watermark to reach; both count the initial 0. `wrapped` says that a
      decrement has stepped below the smallest value. These three are history. */
  datatype State = State(current: int, watermark: int, threads: map<nat, Pc>, peak: int, offered: int, wrapped: bool)

  datatype Action =
    | Store(t: nat, value: int)
    | FetchAdd(t: nat)
    | FetchSub(t: nat)
    | Load(t: nat)
    | CompareExchange(t: nat, spurious: bool)
    | Exit(t: nat)

  const Init := State(0, 0, map[], 0, 0, false)

  predicate Enabled(s: State, a: Action) {
    match a
    case Store(t, v) => t !in s.threads && InRange(v)
    case FetchAdd(t) => t !in s.threads
    case FetchSub(t) => t !in s.threads
    case Load(t) => t in s.threads && s.threads[t].Loading?
    case CompareExchange(t, _) =>
      t in s.threads && s.threads[t].Comparing? && s.threads[t].candidate > s.threads[t].observed
    case Exit(t) =>
      t in s.threads && s.threads[t].Comparing? && s.threads[t].candidate <= s.threads[t].observed
  }

  /** `current` takes a new value and thread t goes on to offer `candidate`. */
  function Offer(s: State, t: nat, value: int, candidate: int): State {
    s.(current := value, threads := s.threads[t := Loading(candidate)],
       peak := Max(s.peak, value), offered := Max(s.offered, candidate))
  }

  function Next(s: State, a: Action): State
    requires Enabled(s, a)
  {
    match a
    case Store(t, v) => Offer(s, t, v, v)
    case FetchAdd(t) =>
      Offer(s, t, Wrap(s.current + 1), if s.current == I64_MAX then I64_MAX else s.current + 1)
    case FetchSub(t) =>
      s.(current := Wrap(s.current - 1), peak := Max(s.peak, Wrap(s.current - 1)),
         wrapped := s.wrapped || s.current == I64_MIN)
    case Load(t) => s.(threads := s.threads[t := Comparing(s.threads[t].candidate, s.watermark)])
    case CompareExchange(t, spurious) =>
      var pc := s.threads[t];
      if s.watermark == pc.observed && !spurious
      then s.(watermark := pc.candidate, threads := s.threads - {t})
      else s.(threads := s.threads[t := Comparing(pc.candidate, s.watermark)])
    case Exit(t) => s.(threads := s.threads - {t})
  }

  predicate Legal(s: State, run: seq<Action>)
    decreases |run|
  {
    run == [] || (Enabled(s, run[0]) && Legal(Next(s, run[0]), run[1..]))
  }

  function Exec(s: State, run: seq<Action>): State
    requires Legal(s, run)
    decreases |run|
  {
    if run == [] then s else Exec(Next(s, run[0]), run[1..])
  }

  ghost predicate ThreadOk(s: State, t: nat) {
    t in s.threads ==>
      && s.threads[t].candidate <= s.offered
      && (s.threads[t].Comparing? ==> s.threads[t].observed <= s.watermark)
  }

  /** The largest offer has reached the watermark or a thread is still carrying it. */
  ghost predicate Carried(s: State) {
    s.watermark == s.offered || exists t :: t in s.threads && s.threads[t].candidate == s.offered
  }

  ghost predicate Inv(s: State) {
    && InRange(s.current) && s.current <= s.peak <= I64_MAX
    && 0 <= s.watermark <= s.offered <= s.peak
    && (forall t :: ThreadOk(s, t))
    && Carried(s)
    && (if s.wrapped then s.peak == I64_MAX else s.peak == s.offered)
  }

  lemma NextInv(s: State, a: Action)
    requires Inv(s) && Enabled(s, a)
    ensures Inv(Next(s, a)) && s.watermark <= Next(s, a).watermark
  {
    var n := Next(s, a);
    assert ThreadOk(s, a.t);
    forall t ensures ThreadOk(n, t) {
      assert ThreadOk(s, t);
    }
    CarriedOn(s, a);
  }

  lemma CarriedOn(s: State, a: Action)
    requires Inv(s) && Enabled(s, a)
    ensures Carried(Next(s, a))
  {
    var n := Next(s, a);
    assert ThreadOk(s, a.t);
    if n.offered != s.offered {
      assert a.t in n.threads && n.threads[a.t].candidate == n.offered;
    } else if s.watermark != s.offered {
      var t :| t in s.threads && s.threads[t].candidate == s.offered;
      assert t == a.t || (t in n.threads && n.threads[t] == s.threads[t]);
      assert t in n.threads ==> n.threads[t].candidate == n.offered;
    }
  }

  lemma {:induction false} RunInv(s: State, run: seq<Action>)
    requires Inv(s) && Legal(s, run)
    ensures Inv(Exec(s, run)) && s.watermark <= Exec(s, run).watermark
    decreases |run|
  {
    if run != [] {
      NextInv(s, run[0]);
      RunInv(Next(s, run[0]), run[1..]);
    }
  }

  /** The watermark never decreases along a run. */
  lemma WatermarkIsMonotone(run: seq<Action>, rest: seq<Action>)
    requires Legal(Init, run) && Legal(Exec(Init, run), rest)
    ensures Exec(Init, run).watermark <= Exec(Exec(Init, run), rest).watermark
  {
    RunInv(Init, run);
    RunInv(Exec(Init, run), rest);
  }

  /** When no update is in progress the watermark is the largest value offered. It is the largest
      value the gauge has ever held exactly when no decrement has wrapped around, or some update
      offered the largest value there is. */
  lemma QuiescentWatermark(run: seq<Action>)
    requires Legal(Init, run) && Exec(Init, run).threads == map[]
    ensures var s := Exec(Init, run);
            && s.watermark == s.offered
            && (s.watermark == s.peak <==> !s.wrapped || s.offered == I64_MAX)
  {
    RunInv(Init, run);
  }

  /** A decrement at the smallest value makes the gauge hold the largest one unnoticed. */
  lemma WrappedDecrementIsMissed()
    ensures var run := [Store(0, I64_MIN), Load(0), Exit(0), FetchSub(0)];
            Legal(Init, run) && Exec(Init, run).threads == map[]
            && Exec(Init, run).watermark == 0 && Exec(Init, run).peak == I64_MAX
  {
    var run := [Store(0, I64_MIN), Load(0), Exit(0), FetchSub(0)];
    var s1 := Next(Init, run[0]);
    var s2 := Next(s1, run[1]);
    var s3 := Next(s2, run[2]);
    var s4 := Next(s3, run[3]);
    assert run[1..][1..][1..][1..] == [];
    assert run[1..] == [Load(0), Exit(0), FetchSub(0)] && run[1..][1..] == [Exit(0), FetchSub(0)];
    assert run[1..][1..][1..] == [FetchSub(0)];
    assert s4.threads == map[];
    assert Legal(s4, []) && Exec(s4, []) == s4;
    assert Legal(s3, [FetchSub(0)]) && Exec(s3, [FetchSub(0)]) == s4;
    assert Legal(s2, [Exit(0), FetchSub(0)]) && Exec(s2, [Exit(0), FetchSub(0)]) == s4;
    assert Legal(s1, run[1..]) && Exec(s1, run[1..]) == s4;
  }
}
