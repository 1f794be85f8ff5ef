/** The ring buffer behind `SPSCQueue`, and what a bounded FIFO with a lifecycle promises over a
    whole history of calls. Each method is the part of the source's operation that runs once the
    condition-variable wait has returned, so it requires the predicate that was waited for. */
module SpscQueues {
  import opened Base
  import opened BoundedQueue
  import opened Metrics

  datatype QueueState = QOpen | QClosed | QFailed

  datatype QueueError = ZeroCapacity | GaugeInUse

  /** The i-th slot after `start` on a ring of n slots. */
  function Slot(start: nat, i: nat, n: nat): (r: nat)
    requires start < n && i <= n
    ensures r < n
  {
    if start + i < n then start + i else start + i - n
  }

  lemma SlotStep(start: nat, i: nat, n: nat)
    requires start < n && i < n
    ensures Slot(start, i + 1, n) == (Slot(start, i, n) + 1) % n
    ensures Slot(start, i + 1, n) == Slot((start + 1) % n, i, n)
  {
    assert n % n == 0;
    assert start + 1 < n ==> (start + 1) % n == start + 1;
    var x := Slot(start, i, n);
    assert x + 1 < n ==> (x + 1) % n == x + 1;
  }

  /** How `next_index` moves the head of a ring that holds `size` values. */
  lemma HeadStep(head: nat, size: nat, n: nat)
    requires head < n && 0 < size <= n
    ensures (head + 1) % n == Slot(head, 1, n)
    ensures Slot(Slot(head, 1, n), size - 1, n) == Slot(head, size, n)
  {
    SlotStep(head, 0, n);
    SlotStep(head, size - 1, n);
  }

  lemma SlotInjective(start: nat, i: nat, j: nat, n: nat)
    requires start < n && i < n && j < n && Slot(start, i, n) == Slot(start, j, n)
    ensures i == j
  {
  }

  /** The ring holds `size` values from `head` on; every other slot is empty. */
  ghost predicate Ring<T>(slots: seq<Option<T>>, head: nat, size: nat) {
    && head < |slots| && size <= |slots|
    && (forall i: nat {:trigger slots[Slot(head, i, |slots|)]} :: i < |slots| ==>
          (slots[Slot(head, i, |slots|)].Some? <==> i < size))
  }

  ghost function Values<T>(slots: seq<Option<T>>, head: nat, size: nat): (r: seq<T>)
    requires Ring(slots, head, size)
    ensures |r| == size
    ensures forall i: nat :: i < size ==> r[i] == slots[Slot(head, i, |slots|)].value
  {
    seq(size, i requires 0 <= i < size => slots[Slot(head, i, |slots|)].value)
  }

  lemma RingPush<T>(slots: seq<Option<T>>, head: nat, size: nat, value: T)
    requires Ring(slots, head, size) && size < |slots|
    ensures var after := slots[Slot(head, size, |slots|) := Some(value)];
            && Ring(after, head, size + 1)
            && Values(after, head, size + 1) == Values(slots, head, size) + [value]
  {
    var n := |slots|;
    var after := slots[Slot(head, size, n) := Some(value)];
    forall i: nat | i < n
      ensures after[Slot(head, i, n)] == if i == size then Some(value) else slots[Slot(head, i, n)]
    {
      if Slot(head, i, n) == Slot(head, size, n) {
        SlotInjective(head, i, size, n);
      }
    }
  }

  lemma RingPop<T>(slots: seq<Option<T>>, head: nat, size: nat)
    requires Ring(slots, head, size) && 0 < size
    ensures head < |slots| && slots[head].Some?
    ensures var after := slots[head := None]; var next := Slot(head, 1, |slots|);
            && Ring(after, next, size - 1)
            && Values(slots, head, size)[0] == slots[head].value
            && Values(slots, head, size)[1..] == Values(after, next, size - 1)
  {
    var n := |slots|;
    var after := slots[head := None];
    var next := Slot(head, 1, n);
    assert Slot(head, 0, n) == head;
    forall i: nat | i < n
      ensures after[Slot(next, i, n)] == if i == n - 1 then None else slots[Slot(head, i + 1, n)]
    {
      assert Slot(next, i, n) == if i == n - 1 then head else Slot(head, i + 1, n);
      assert i + 1 < n && Slot(head, i + 1, n) == Slot(head, 0, n) ==> false;
    }
  }

  class SpscQueue<T> {
    var slots: array<Option<T>>
    var head: nat
    var tail: nat
    var size: nat
    var state: QueueState
    var failure: Option<Failure>
    var depth: Gauge?

    ghost function Repr(): set<object>
      reads this
    {
      {this, slots} + if depth == null then {} else {depth as object}
    }

    ghost predicate Valid()
      reads this, Repr()
    {
      && 0 < slots.Length <= I64_MAX
      && Ring(slots[..], head, size) && tail == Slot(head, size, slots.Length)
      && (state.QFailed? <==> failure.Some?)
      && (state.QFailed? ==> size == 0)
      && (depth != null ==> depth.Valid() && depth.current == size)
    }

    /** The bounded FIFO that the ring stands for. */
    ghost function Model(): Queue<T>
      reads this, Repr()
      requires Valid()
    {
      Queue(slots.Length, Values(slots[..], head, size),
            match state
            case QOpen => Open
            case QClosed => Closed
            case QFailed => Failed(failure.value))
    }

    constructor (capacity: nat, gauge: Gauge?)
      requires 0 < capacity <= I64_MAX
      requires gauge != null ==> gauge.Valid() && gauge.current == 0
      ensures Valid() && fresh(slots) && depth == gauge
      ensures Model() == Queue(capacity, [], Open)
    {
      slots := new Option<T>[capacity](_ => None);
      head, tail, size, state, failure, depth := 0, 0, 0, QOpen, None, gauge;
    }

    /** A zero capacity and a gauge that has been used are rejected. */
    static method Create(capacity: nat, gauge: Gauge?) returns (r: Result<SpscQueue<T>, QueueError>)
      requires capacity <= I64_MAX && (gauge != null ==> gauge.Valid())
      ensures r.Ok? <==> capacity > 0 && (gauge != null ==> gauge.current == 0 && gauge.highWatermark == 0)
      ensures r.Ok? ==> fresh(r.value) && r.value.Valid() && r.value.depth == gauge
      ensures r.Ok? ==> r.value.Model() == Queue(capacity, [], Open)
    {
      if capacity == 0 {
        return Err(ZeroCapacity);
      }
      if gauge != null && (gauge.current != 0 || gauge.highWatermark != 0) {
        return Err(GaugeInUse);
      }
      var q := new SpscQueue<T>(capacity, gauge);
      return Ok(q);
    }

    method Push(value: T) returns (outcome: PushOutcome)
      requires Valid() && CanPush(Model())
      modifies Repr()
      ensures Valid() && slots == old(slots) && depth == old(depth)
      ensures outcome == PushResult(old(Model()))
      ensures Model() == AfterPush(old(Model()), value)
    {
      if state == QFailed {
        return PushThrew(failure.value);
      }
      if state == QClosed {
        return Rejected;
      }
      RingPush(slots[..], head, size, value);
      SlotStep(head, size, slots.Length);
      slots[tail] := Some(value);
      tail := (tail + 1) % slots.Length;
      size := size + 1;
      if depth != null {
        depth.Increment();
      }
      return Pushed;
    }

    method Pop() returns (outcome: PopOutcome<T>)
      requires Valid() && CanPop(Model())
      modifies Repr()
      ensures Valid() && slots == old(slots) && depth == old(depth)
      ensures outcome == PopResult(old(Model()))
      ensures Model() == AfterPop(old(Model()))
    {
      if state == QFailed {
        return PopThrew(failure.value);
      }
      if size == 0 {
        return EndOfStream;
      }
      hide Ring, Values, Slot;
      RingPop(slots[..], head, size);
      HeadStep(head, size, slots.Length);
      var value := slots[head].value;
      ghost var after := slots[..][head := None];
      slots[head] := None;
      assert slots[..] == after;
      head := (head + 1) % slots.Length;
      size := size - 1;
      if depth != null {
        depth.Decrement();
      }
      return Popped(value);
    }

    method Close()
      requires Valid()
      modifies this`state
      ensures Valid() && Model() == AfterClose(old(Model()))
    {
      if state == QOpen {
        state := QClosed;
      }
    }

    method Fail(f: Failure)
      requires Valid()
      modifies Repr()
      ensures Valid() && slots == old(slots) && depth == old(depth)
      ensures Model() == AfterFail(old(Model()), f)
    {
      if state == QFailed {
        return;
      }
      state, failure := QFailed, Some(f);
      DiscardQueuedValues();
    }

    method DiscardQueuedValues()
      requires 0 < slots.Length <= I64_MAX && (depth != null ==> depth.Valid())
      modifies Repr()
      ensures Ring(slots[..], head, size) && head == tail == size == 0
      ensures slots == old(slots) && depth == old(depth) && state == old(state) && failure == old(failure)
      ensures depth != null ==> depth.Valid() && depth.current == 0
    {
      for i := 0 to slots.Length
        modifies slots
        invariant forall k :: 0 <= k < i ==> slots[k].None?
      {
        slots[i] := None;
      }
      head, tail, size := 0, 0, 0;
      if depth != null {
        depth.Set(0);
      }
    }
  }
}

/** What the bounded FIFO promises over a whole history of calls. */
module QueueHistory {
  import opened Base
  import opened BoundedQueue

  datatype Call<T> = Push(value: T) | Pop | Close | Fail(failure: Failure)

  /** A call may run when the predicate it waits for holds. */
  predicate Ready<T>(q: Queue<T>, call: Call<T>) {
    match call
    case Push(_) => CanPush(q)
    case Pop => CanPop(q)
    case _ => true
  }

  function After<T>(q: Queue<T>, call: Call<T>): Queue<T>
    requires Ready(q, call)
  {
    match call
    case Push(v) => AfterPush(q, v)
    case Pop => AfterPop(q)
    case Close => AfterClose(q)
    case Fail(f) => AfterFail(q, f)
  }

  predicate Legal<T>(q: Queue<T>, calls: seq<Call<T>>)
    decreases |calls|
  {
    calls == [] || (Ready(q, calls[0]) && Legal(After(q, calls[0]), calls[1..]))
  }

  function Run<T>(q: Queue<T>, calls: seq<Call<T>>): Queue<T>
    requires Legal(q, calls)
    decreases |calls|
  {
    if calls == [] then q else Run(After(q, calls[0]), calls[1..])
  }

  /** The values that pushes accepted, in order. */
  function Accepted<T>(q: Queue<T>, calls: seq<Call<T>>): seq<T>
    requires Legal(q, calls)
    decreases |calls|
  {
    if calls == [] then []
    else (if calls[0].Push? && PushResult(q) == Pushed then [calls[0].value] else [])
         + Accepted(After(q, calls[0]), calls[1..])
  }

  /** The values that pops delivered, in order. */
  function Delivered<T>(q: Queue<T>, calls: seq<Call<T>>): seq<T>
    requires Legal(q, calls)
    decreases |calls|
  {
    if calls == [] then []
    else (if calls[0].Pop? && PopResult(q).Popped? then [PopResult(q).value] else [])
         + Delivered(After(q, calls[0]), calls[1..])
  }

  /** Nothing is lost, duplicated or reordered while the queue is not failed, and the queue never
      holds more than its capacity. */
  lemma {:induction false} Fifo<T>(q: Queue<T>, calls: seq<Call<T>>)
    requires Legal(q, calls) && |q.items| <= q.capacity
    ensures |Run(q, calls).items| <= Run(q, calls).capacity == q.capacity
    ensures !Run(q, calls).state.Failed? ==>
              q.items + Accepted(q, calls) == Delivered(q, calls) + Run(q, calls).items
    decreases |calls|
  {
    if calls != [] {
      var n := After(q, calls[0]);
      Fifo(n, calls[1..]);
      FailedStaysFailed(n, calls[1..]);
      if !Run(q, calls).state.Failed? {
        OneCall(q, calls[0], Accepted(n, calls[1..]), Delivered(n, calls[1..]), Run(q, calls).items);
      }
    }
  }

  lemma OneCall<T>(q: Queue<T>, call: Call<T>, more: seq<T>, rest: seq<T>, left: seq<T>)
    requires Ready(q, call) && !After(q, call).state.Failed?
    requires After(q, call).items + more == rest + left
    ensures q.items + ((if call.Push? && PushResult(q) == Pushed then [call.value] else []) + more)
         == ((if call.Pop? && PopResult(q).Popped? then [PopResult(q).value] else []) + rest) + left
  {
    if call.Push? && PushResult(q) == Pushed {
      assert q.items + ([call.value] + more) == After(q, call).items + more;
    } else if call.Pop? && PopResult(q).Popped? {
      assert q.items == [q.items[0]] + After(q, call).items;
      assert q.items + more == [q.items[0]] + (After(q, call).items + more);
    }
    assert [] + more == more && [] + rest == rest;
  }

  lemma {:induction false} FailedStaysFailed<T>(q: Queue<T>, calls: seq<Call<T>>)
    requires Legal(q, calls)
    ensures q.state.Failed? ==> Run(q, calls).state == q.state
    decreases |calls|
  {
    if calls != [] {
      FailedStaysFailed(After(q, calls[0]), calls[1..]);
    }
  }

  /** After `fail` no value comes out, no value goes in, and both sides rethrow the first exception. */
  lemma {:induction false} FailedDeliversNothing<T>(q: Queue<T>, calls: seq<Call<T>>)
    requires Legal(q, calls) && q.state.Failed?
    ensures Delivered(q, calls) == [] && Accepted(q, calls) == [] && Run(q, calls) == q
    ensures PushResult(q) == PushThrew(q.state.failure) && PopResult(q) == PopThrew(q.state.failure)
    decreases |calls|
  {
    if calls != [] {
      FailedDeliversNothing(q, calls[1..]);
    }
  }

  /** The first `fail` takes hold, on an open and on a closed queue: from then on nothing is queued,
      delivered or accepted, nobody waits, and every push and every pop rethrows its exception. */
  lemma FailTakesHold<T>(q: Queue<T>, f: Failure, calls: seq<Call<T>>)
    requires !q.state.Failed? && Legal(q, [Fail(f)] + calls)
    ensures Delivered(q, [Fail(f)] + calls) == [] && Accepted(q, [Fail(f)] + calls) == []
    ensures var t := Run(q, [Fail(f)] + calls);
            && t.items == [] && CanPush(t) && CanPop(t)
            && PushResult(t) == PushThrew(f) && PopResult(t) == PopThrew(f)
  {
    assert ([Fail(f)] + calls)[1..] == calls;
    FailedDeliversNothing(AfterFail(q, f), calls);
  }

  function Pops<T>(calls: seq<Call<T>>): nat {
    if calls == [] then 0 else (if calls[0].Pop? then 1 else 0) + Pops(calls[1..])
  }

  /** After `close`, whatever is pushed or closed again, the pops deliver exactly the queued values
      in order, and the one after the last of them reports the end of the stream. */
  lemma {:induction false} ClosedDrains<T>(q: Queue<T>, calls: seq<Call<T>>)
    requires Legal(q, calls) && q.state.Closed? && forall k :: k in calls ==> !k.Fail?
    ensures Accepted(q, calls) == []
    ensures Delivered(q, calls) == if Pops(calls) <= |q.items| then q.items[..Pops(calls)] else q.items
    ensures Pops(calls) >= |q.items| ==> CanPop(Run(q, calls)) && PopResult(Run(q, calls)) == EndOfStream
    decreases |calls|
  {
    if calls != [] {
      var n := After(q, calls[0]);
      assert calls[0] in calls;
      ClosedDrains(n, calls[1..]);
      if calls[0].Pop? && q.items != [] {
        FrontOfItems(q.items, Pops(calls[1..]));
      }
    }
  }

  lemma FrontOfItems<T>(items: seq<T>, n: nat)
    requires items != []
    ensures [items[0]] + items[1..] == items
    ensures n < |items| ==> [items[0]] + items[1..][..n] == items[..n + 1]
  {
  }

  /** `close` takes hold on an open queue: from then on no push is accepted, and as long as nobody calls
      `fail` the pops deliver what was queued, in order, and then report the end of the stream. */
  lemma CloseTakesHold<T>(q: Queue<T>, calls: seq<Call<T>>)
    requires q.state.Open? && Legal(q, [Close] + calls) && forall k :: k in calls ==> !k.Fail?
    ensures Accepted(q, [Close] + calls) == []
    ensures Delivered(q, [Close] + calls) == if Pops(calls) <= |q.items| then q.items[..Pops(calls)] else q.items
    ensures var t := Run(q, [Close] + calls);
            && CanPush(t) && PushResult(t) == Rejected && CanPop(t)
            && (Pops(calls) >= |q.items| ==> PopResult(t) == EndOfStream)
  {
    assert ([Close] + calls)[1..] == calls;
    ClosedDrains(AfterClose(q), calls);
    ClosedStaysClosed(AfterClose(q), calls);
  }

  lemma {:induction false} ClosedStaysClosed<T>(q: Queue<T>, calls: seq<Call<T>>)
    requires q.state.Closed? && Legal(q, calls) && forall k :: k in calls ==> !k.Fail?
    ensures Run(q, calls).state.Closed?
    decreases |calls|
  {
    if calls != [] {
      assert calls[0] in calls;
      ClosedStaysClosed(After(q, calls[0]), calls[1..]);
    }
  }

  /** Whatever happens, failure included, what came out is a prefix of what went in. */
  lemma {:induction false} DeliversPrefix<T>(q: Queue<T>, calls: seq<Call<T>>)
    requires Legal(q, calls)
    ensures Delivered(q, calls) <= q.items + Accepted(q, calls)
    decreases |calls|
  {
    if calls != [] {
      var n := After(q, calls[0]);
      DeliversPrefix(n, calls[1..]);
      if n.state.Failed? {
        FailedDeliversNothing(n, calls[1..]);
      } else {
        var left := (n.items + Accepted(n, calls[1..]))[|Delivered(n, calls[1..])|..];
        OneCall(q, calls[0], Accepted(n, calls[1..]), Delivered(n, calls[1..]), left);
      }
    }
  }
}
