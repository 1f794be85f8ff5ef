/** The thread-pool read backend as a transition system: any number of workers, one thread that
    calls `wait_one`, both condition variables with their notifications after unlock, and shutdown. */
module ThreadPool {
  import opened Base
  import opened Coroutines
  import F = FileIo

  /** The pool, the bytes of the file it reads, and the memory that its callers own: the buffers by
      name, with their contents at the start. */
  datatype Config = Config(workers: nat, maxInflight: nat, input: seq<byte>, memory0: map<nat, seq<byte>>)

  predicate Accepted(c: Config) {
    c.workers > 0 && c.maxInflight > 0
  }

  // ----- results on their way through a signed 32-bit integer -----

  const TWO_32: nat := 0x1_0000_0000

  /** `static_cast<int>` of a byte count. */
  function WrapInt(n: nat): int {
    var low := n % TWO_32;
    if low <= INT_MAX then low else low - TWO_32
  }

  /** What a worker stores for the outcome of its `read_at`. */
  function Encode(r: F.ReadAtResult): int {
    if r.errno != 0 then -r.errno else WrapInt(r.read)
  }

  /** What `await_resume` makes of the stored integer: a byte count or an errno. */
  function Await(value: int): Result<nat, int> {
    if value < 0 then Err(-value) else Ok(value)
  }

  /** The synchronous backend: the same `read_at`, reported directly. */
  function SyncRead(r: F.ReadAtResult): Result<nat, int> {
    if r.errno != 0 then Err(r.errno) else Ok(r.read)
  }

  // ----- requests and the buffers they read into -----

  /** What a caller asks for: how many bytes, where they start, and the buffer of that length to put
      them into. */
  datatype Asked = Asked(length: nat, offset: nat, dest: nat)

  datatype ReadRequest = ReadRequest(asked: Asked, completion: RequestState, result: int)

  /** A read that a worker carried out: on which parameters, and with what outcome. */
  datatype Performed = Performed(asked: Asked, result: F.ReadAtResult)

  /** An outcome that `read_at` can have on these bytes: at most what was asked for and is there, none
      exactly from the end on, or an error. */
  predicate Readable(input: seq<byte>, asked: Asked, r: F.ReadAtResult) {
    && r.errno >= 0 && r.read <= asked.length && (r.errno != 0 ==> r.read == 0)
    && (r.read > 0 ==> asked.offset + r.read <= |input|)
    && (r.errno == 0 && asked.length > 0 ==> (r.read == 0 <==> asked.offset >= |input|))
  }

  /** A buffer after a read with outcome `r`: the bytes read in front, the rest as before. */
  function ReadInto(before: seq<byte>, input: seq<byte>, offset: nat, r: F.ReadAtResult): (after: seq<byte>)
    ensures |after| == |before|
  {
    if r.read <= |before| && offset + r.read <= |input|
    then Slice(input, offset, r.read) + before[r.read..]
    else before
  }

  /** What a caller gets from a read: the result and the contents of its buffer. */
  datatype Report = Report(result: Result<nat, int>, buffer: seq<byte>)

  /** The synchronous backend: the same `read_at` into the caller's buffer, reported directly. */
  function SyncReport(input: seq<byte>, before: seq<byte>, asked: Asked, r: F.ReadAtResult): Report {
    Report(SyncRead(r), ReadInto(before, input, asked.offset, r))
  }

  /** The callers' buffers, and two histories: what a buffer held when it was lent with a request, and
      what it held when the request's coroutine was resumed. */
  datatype Buffers = Buffers(memory: map<nat, seq<byte>>, lent: map<nat, seq<byte>>, received: map<nat, seq<byte>>)

  function Lend(b: Buffers, id: nat, dest: nat): Buffers {
    if dest in b.memory then b.(lent := b.lent[id := b.memory[dest]]) else b
  }

  function FillBuffer(b: Buffers, input: seq<byte>, asked: Asked, r: F.ReadAtResult): Buffers {
    if asked.dest in b.memory
    then b.(memory := b.memory[asked.dest := ReadInto(b.memory[asked.dest], input, asked.offset, r)])
    else b
  }

  function HandBack(b: Buffers, id: nat, dest: nat): Buffers {
    if dest in b.memory then b.(received := b.received[id := b.memory[dest]]) else b
  }

  // ----- the state -----

  datatype Caller = Idle | Looking | Sleeping | Resuming(id: nat, value: int)

  /** Where a request is on its way. */
  datatype Phase = Queued | Executing | Read | Completed | Popped | Done

  /** Requests are named by the order of their submission. Workers differ only in what they hold,
      so they are counted: `looping` ones are about to look at the work queue, `asleep` ones wait,
      the others hold a request in `executing` or `finishing` or have exited. `live` holds the
      requests whose awaiter still exists. `buffers` is the memory they read into. From `asked` on
      the fields are history. */
  datatype State = State(
    work: seq<nat>, executing: seq<nat>, finishing: seq<nat>, local: map<nat, int>,
    completions: seq<nat>, inflight: nat, stopping: bool,
    looping: nat, asleep: nat, exited: nat, pendingWork: nat, pendingAll: bool,
    caller: Caller, pendingDone: nat, live: map<nat, ReadRequest>, nextId: nat, buffers: Buffers,
    asked: map<nat, Asked>, phase: map<nat, Phase>, readBy: map<nat, Performed>, readLog: seq<nat>,
    delivered: map<nat, int>, resumeLog: seq<nat>)

  datatype Action =
    | Submit(asked: Asked)
    | Reuse(dest: nat, bytes: seq<byte>)
    | NotifyWork
    | WorkerLoop
    | WorkerRead(i: nat, r: F.ReadAtResult)
    | WorkerFinish(i: nat)
    | NotifyDone
    | WaitOne
    | CallerLoop
    | Resume
    | Stop
    | NotifyAll
    | WakeWorker
    | WakeCaller

  /** A step that is not about a submission or a resumption, and revokes no shutdown. */
  predicate SameHistory(s: State, n: State) {
    n.resumeLog == s.resumeLog && n.asked == s.asked && n.nextId == s.nextId && n.buffers.lent == s.buffers.lent
    && (s.stopping ==> n.stopping)
  }

  function PoppedBy(caller: Caller): seq<nat> {
    if caller.Resuming? then [caller.id] else []
  }

  /** A notification or a wakeup touches no request. */
  predicate SameRequests(s: State, n: State) {
    && n.work == s.work && n.executing == s.executing && n.finishing == s.finishing && n.local == s.local
    && n.completions == s.completions && n.live == s.live && n.phase == s.phase && n.readBy == s.readBy
    && n.readLog == s.readLog && n.delivered == s.delivered
    && PoppedBy(n.caller) == PoppedBy(s.caller) && (n.caller.Resuming? ==> n.caller == s.caller)
  }

  function Init(c: Config): State {
    State([], [], [], map[], [], 0, false, c.workers, 0, 0, 0, false, Idle, 0, map[], 0,
          Buffers(c.memory0, map[], map[]), map[], map[], map[], [], map[], [])
  }

  function SubmitError(c: Config, s: State): Option<int> {
    if s.stopping then Some(ECANCELED) else if s.inflight >= c.maxInflight then Some(EAGAIN) else None
  }

  /** Some request that reads into this buffer has not been resumed yet. */
  predicate Lent(live: map<nat, ReadRequest>, dest: nat) {
    exists id :: id in live && live[id].asked.dest == dest
  }

  /** A caller hands over a buffer of the length it asks for, and not one that another request of its
      still reads into. */
  predicate CanSubmit(s: State, asked: Asked) {
    asked.dest in s.buffers.memory && |s.buffers.memory[asked.dest]| == asked.length && !Lent(s.live, asked.dest)
  }

  /** A request that is refused leaves no trace; its coroutine goes on with the error at once. */
  function AfterSubmit(c: Config, s: State, asked: Asked): State {
    if asked.length > INT_MAX || SubmitError(c, s).Some? then s
    else
      var request := ReadRequest(asked, AfterSet(FRESH_REQUEST, true), 0);
      s.(work := s.work + [s.nextId], inflight := s.inflight + 1, pendingWork := s.pendingWork + 1,
         live := s.live[s.nextId := request], asked := s.asked[s.nextId := asked],
         buffers := Lend(s.buffers, s.nextId, asked.dest), phase := s.phase[s.nextId := Queued],
         nextId := s.nextId + 1)
  }

  function RemoveAt(q: seq<nat>, i: nat): seq<nat>
    requires i < |q|
  {
    q[..i] + q[i + 1..]
  }

  function AfterTakeWork(s: State): (n: State)
    requires s.looping > 0 && s.work != []
    ensures SameHistory(s, n) && n.buffers == s.buffers && n.readBy == s.readBy && n.caller == s.caller
  {
    var id := s.work[|s.work| - 1];
    s.(looping := s.looping - 1, work := s.work[..|s.work| - 1], executing := s.executing + [id],
       phase := s.phase[id := Executing])
  }

  function AfterExit(s: State): (n: State)
    requires s.looping > 0
    ensures SameHistory(s, n) && n.buffers == s.buffers && n.readBy == s.readBy && n.caller == s.caller
  {
    s.(looping := s.looping - 1, exited := s.exited + 1)
  }

  function AfterSleep(s: State): (n: State)
    requires s.looping > 0
    ensures SameHistory(s, n) && n.buffers == s.buffers && n.readBy == s.readBy && n.caller == s.caller
  {
    s.(looping := s.looping - 1, asleep := s.asleep + 1)
  }

  /** A worker with the mutex held: it takes the newest request, exits, or goes to sleep. */
  function AfterWorkerLoop(s: State): (n: State)
    requires s.looping > 0
    ensures SameHistory(s, n) && n.buffers == s.buffers && n.readBy == s.readBy && n.caller == s.caller
  {
    if s.work != [] then AfterTakeWork(s) else if s.stopping then AfterExit(s) else AfterSleep(s)
  }

  /** The read itself, without the mutex: the bytes go into the buffer that the request names. */
  function AfterWorkerRead(c: Config, s: State, i: nat, r: F.ReadAtResult): (n: State)
    requires i < |s.executing| && s.executing[i] in s.live
    ensures n.buffers == FillBuffer(s.buffers, c.input, s.live[s.executing[i]].asked, r)
    ensures n.readBy == s.readBy[s.executing[i] := Performed(s.live[s.executing[i]].asked, r)]
    ensures SameHistory(s, n) && n.caller == s.caller
  {
    var id := s.executing[i];
    s.(executing := RemoveAt(s.executing, i), finishing := s.finishing + [id],
       buffers := FillBuffer(s.buffers, c.input, s.live[id].asked, r),
       local := s.local[id := Encode(r)], phase := s.phase[id := Read],
       readBy := s.readBy[id := Performed(s.live[id].asked, r)], readLog := s.readLog + [id])
  }

  function AfterWorkerFinish(s: State, i: nat): (n: State)
    requires i < |s.finishing| && s.finishing[i] in s.live && s.finishing[i] in s.local
    ensures SameHistory(s, n) && n.buffers == s.buffers && n.readBy == s.readBy && n.caller == s.caller
  {
    var id := s.finishing[i];
    s.(finishing := RemoveAt(s.finishing, i), completions := s.completions + [id],
       live := s.live[id := s.live[id].(result := s.local[id])],
       looping := s.looping + 1, pendingDone := s.pendingDone + 1, phase := s.phase[id := Completed])
  }

  function AfterPop(s: State): (n: State)
    requires s.completions != [] && s.completions[|s.completions| - 1] in s.live && s.inflight > 0
    ensures SameHistory(s, n) && n.buffers == s.buffers && n.readBy == s.readBy
  {
    var id := s.completions[|s.completions| - 1];
    s.(completions := s.completions[..|s.completions| - 1], inflight := s.inflight - 1,
       caller := Resuming(id, s.live[id].result), phase := s.phase[id := Popped])
  }

  predicate Poppable(s: State) {
    s.completions != [] ==> s.completions[|s.completions| - 1] in s.live && s.inflight > 0
  }

  /** The caller with the mutex held: it pops the newest completion, or goes to sleep. */
  function AfterCallerLoop(s: State): (n: State)
    requires Poppable(s)
    ensures SameHistory(s, n) && n.buffers == s.buffers && n.readBy == s.readBy && !n.caller.Idle?
  {
    if s.completions == [] then s.(caller := Sleeping) else AfterPop(s)
  }

  /** The resumed coroutine takes its result and destroys the request with its awaiter. */
  function AfterDelivery(s: State, value: int): (n: State)
    requires s.caller.Resuming? && s.caller.id in s.live
    ensures n.resumeLog == s.resumeLog + [s.caller.id] && n.caller == Idle
    ensures n.nextId == s.nextId && n.asked == s.asked
    ensures n.buffers == HandBack(s.buffers, s.caller.id, s.live[s.caller.id].asked.dest)
    ensures n.stopping == s.stopping && n.readBy == s.readBy
  {
    var id := s.caller.id;
    s.(caller := Idle, live := s.live - {id}, phase := s.phase[id := Done],
       buffers := HandBack(s.buffers, id, s.live[id].asked.dest),
       delivered := s.delivered[id := value], resumeLog := s.resumeLog + [id])
  }

  /** `complete` on the popped request. */
  function AfterResumption(s: State): (n: State)
    requires s.caller.Resuming? && s.caller.id in s.live
    ensures s.resumeLog <= n.resumeLog && n.nextId == s.nextId && n.asked == s.asked && n.caller.Idle?
    ensures n.buffers.memory == s.buffers.memory && n.buffers.lent == s.buffers.lent
    ensures n.stopping == s.stopping && n.readBy == s.readBy
  {
    var completion := s.live[s.caller.id].completion;
    if CompleteResult(completion, false).Resumed?
    then AfterDelivery(s, AfterComplete(completion, s.caller.value, false).result)
    else s.(caller := Idle)
  }

  /** A spurious wakeup of a worker. */
  function WakeOne(s: State): (n: State)
    requires s.asleep > 0
    ensures SameHistory(s, n) && SameRequests(s, n) && n.buffers == s.buffers && n.caller == s.caller
  {
    s.(asleep := s.asleep - 1, looping := s.looping + 1)
  }

  function AfterNotifyWork(s: State): (n: State)
    requires s.pendingWork > 0
    ensures SameHistory(s, n) && SameRequests(s, n) && n.buffers == s.buffers && n.caller == s.caller
  {
    var woken := if s.asleep > 0 then 1 else 0;
    s.(pendingWork := s.pendingWork - 1, asleep := s.asleep - woken, looping := s.looping + woken)
  }

  function AfterNotifyDone(s: State): (n: State)
    requires s.pendingDone > 0
    ensures SameHistory(s, n) && SameRequests(s, n) && n.buffers == s.buffers && (n.caller.Idle? <==> s.caller.Idle?)
  {
    s.(pendingDone := s.pendingDone - 1, caller := if s.caller.Sleeping? then Looking else s.caller)
  }

  /** `wait_one` refuses to wait for nothing. */
  function AfterWaitOne(s: State): (n: State)
    requires s.caller.Idle?
    ensures SameHistory(s, n) && SameRequests(s, n) && n.buffers == s.buffers
  {
    if s.inflight == 0 then s else s.(caller := Looking)
  }

  function AfterStop(s: State): (n: State)
    ensures SameHistory(s, n) && SameRequests(s, n) && n.buffers == s.buffers
  {
    s.(stopping := true, pendingAll := true)
  }

  function AfterNotifyAll(s: State): (n: State)
    ensures SameHistory(s, n) && SameRequests(s, n) && n.buffers == s.buffers && n.caller == s.caller
  {
    s.(pendingAll := false, looping := s.looping + s.asleep, asleep := 0)
  }

  function AfterWakeCaller(s: State): (n: State)
    requires s.caller.Sleeping?
    ensures SameHistory(s, n) && SameRequests(s, n) && n.buffers == s.buffers
  {
    s.(caller := Looking)
  }

  /** A caller overwrites a buffer that it has not lent. */
  function AfterReuse(s: State, dest: nat, bytes: seq<byte>): (n: State)
    ensures SameHistory(s, n) && SameRequests(s, n) && n.caller == s.caller
  {
    s.(buffers := s.buffers.(memory := s.buffers.memory[dest := bytes]))
  }

  predicate Enabled(c: Config, s: State, a: Action) {
    match a
    case Submit(asked) => CanSubmit(s, asked)
    case Reuse(dest, bytes) =>
      dest in s.buffers.memory && |bytes| == |s.buffers.memory[dest]| && !Lent(s.live, dest)
    case NotifyWork => s.pendingWork > 0
    case WorkerLoop => s.looping > 0
    case WorkerRead(i, r) =>
      i < |s.executing| && s.executing[i] in s.live && Readable(c.input, s.live[s.executing[i]].asked, r)
    case WorkerFinish(i) => i < |s.finishing| && s.finishing[i] in s.live && s.finishing[i] in s.local
    case NotifyDone => s.pendingDone > 0
    case WaitOne => s.caller.Idle?
    case CallerLoop => s.caller.Looking? && Poppable(s)
    case Resume => s.caller.Resuming? && s.caller.id in s.live
    case Stop => s.caller.Idle? && !s.stopping
    case NotifyAll => s.pendingAll
    case WakeWorker => s.asleep > 0
    case WakeCaller => s.caller.Sleeping?
  }

  function Next(c: Config, s: State, a: Action): State
    requires Enabled(c, s, a)
  {
    match a
    case Submit(asked) => AfterSubmit(c, s, asked)
    case Reuse(dest, bytes) => AfterReuse(s, dest, bytes)
    case NotifyWork => AfterNotifyWork(s)
    case WorkerLoop => AfterWorkerLoop(s)
    case WorkerRead(i, r) => AfterWorkerRead(c, s, i, r)
    case WorkerFinish(i) => AfterWorkerFinish(s, i)
    case NotifyDone => AfterNotifyDone(s)
    case WaitOne => AfterWaitOne(s)
    case CallerLoop => AfterCallerLoop(s)
    case Resume => AfterResumption(s)
    case Stop => AfterStop(s)
    case NotifyAll => AfterNotifyAll(s)
    case WakeWorker => WakeOne(s)
    case WakeCaller => AfterWakeCaller(s)
  }

  predicate Legal(c: Config, s: State, run: seq<Action>)
    decreases |run|
  {
    run == [] || (Enabled(c, s, run[0]) && Legal(c, Next(c, s, run[0]), run[1..]))
  }

  function Exec(c: Config, s: State, run: seq<Action>): State
    requires Legal(c, s, run)
    decreases |run|
  {
    if run == [] then s else Exec(c, Next(c, s, run[0]), run[1..])
  }
}
