/** myReadyQueueSize of src/core/taskexecutor.cpp: the counter the executor's threads wait on. It is changed after
    the queue, so a dequeue can be counted before its enqueue is, and the counter wraps below zero. */
module ReadyCounter {
  import opened TaskExecutor
  import opened TaskRuns

  const COUNTER_SIZE := 0x1_0000_0000_0000_0000

  ghost predicate Congruent(x: int, y: int) { exists q: int :: Turns(x, y, q) }

  predicate Turns(x: int, y: int, q: int) { x == y + q * COUNTER_SIZE }

  /** The counter, with how many enqueues and dequeues it has not been told about yet. */
  datatype Counter = Counter(size: nat, uncountedIn: nat, uncountedOut: nat)

  function Value(k: Counter): int { k.size + k.uncountedIn - k.uncountedOut }

  datatype CounterAction = Queue(a: Action) | AddSize(n: nat) | SubSize

  function Arrivals(a: Action): nat { if a.Submits? || a.Enqueues? then 1 else 0 }

  function Departures(a: Action): nat { if a.Dequeues? then 1 else 0 }

  predicate Possible(s: State, k: Counter, a: CounterAction) {
    match a
    case Queue(a) => Enabled(s, a)
    case AddSize(n) => n <= k.uncountedIn
    case SubSize => k.uncountedOut > 0
  }

  /** fetch_add. */
  function Added(k: Counter, n: nat): Counter
    requires n <= k.uncountedIn
  {
    k.(size := (k.size + n) % COUNTER_SIZE, uncountedIn := k.uncountedIn - n)
  }

  /** fetch_sub. */
  function Subtracted(k: Counter): Counter
    requires k.uncountedOut > 0
  {
    k.(size := (k.size + COUNTER_SIZE - 1) % COUNTER_SIZE, uncountedOut := k.uncountedOut - 1)
  }

  function Queued(k: Counter, a: Action): Counter {
    k.(uncountedIn := k.uncountedIn + Arrivals(a), uncountedOut := k.uncountedOut + Departures(a))
  }

  function Moved(s: State, a: CounterAction): State
    requires a.Queue? ==> Enabled(s, a.a)
  {
    if a.Queue? then Apply(s, a.a) else s
  }

  function Counted(s: State, k: Counter, a: CounterAction): Counter
    requires Possible(s, k, a)
  {
    match a
    case Queue(a) => Queued(k, a)
    case AddSize(n) => Added(k, n)
    case SubSize => Subtracted(k)
  }

  /** The counter never loses count: up to turns of 64 bits it is the queue's length, corrected by what it has not
      been told yet. */
  ghost predicate Agrees(s: State, k: Counter) { Congruent(Value(k), |s.ready|) }

  lemma Shifted(x: int, y: int, d: int)
    requires Congruent(x, y)
    ensures Congruent(x + d, y + d)
  {
    var q :| Turns(x, y, q);
    assert Turns(x + d, y + d, q);
  }

  lemma Wrapped(size: int, rest: int, y: int)
    requires Congruent(size + rest, y)
    ensures Congruent(size % COUNTER_SIZE + rest, y)
  {
    var q :| Turns(size + rest, y, q);
    var t := size / COUNTER_SIZE;
    assert size == t * COUNTER_SIZE + size % COUNTER_SIZE;
    assert Turns(size % COUNTER_SIZE + rest, y, q - t);
  }

  lemma Turned(x: int, y: int)
    requires Congruent(x, y)
    ensures Congruent(x + COUNTER_SIZE, y)
  {
    var q :| Turns(x, y, q);
    assert Turns(x + COUNTER_SIZE, y, q + 1);
  }

  lemma CallMoves(s: State, c: CallId)
    ensures CanBegin(s, c) ==> |Begin(s, c).ready| == |s.ready|
    ensures CanReturn(s, c) ==> |Return(s, c).ready| == |s.ready|
    ensures CanNotify(s, c) ==> |Notify(s, c).ready| == |s.ready|
    ensures CanEnqueue(s, c) ==> |Enqueue(s, c).ready| == |s.ready| + 1
    ensures CanRetire(s, c) ==> |Retire(s, c).ready| == |s.ready|
  {
  }

  lemma BagMoves(s: State, r: Ref, c: CallId)
    ensures CanDequeue(s, c, r) ==> |Dequeue(s, c, r).ready| == |s.ready| - 1
    ensures r in s.purging ==> |TryDelete(s, r).ready| == |s.ready|
  {
  }

  lemma SubmissionMoves(s: State, t: TaskId, c: CallId)
    requires CanSubmit(s, t)
    ensures |Submit(s, t).ready| == |s.ready| + 1 && (c !in s.calls ==> |CallDirectly(s, c, t).ready| == |s.ready|)
  {
  }

  lemma ReadyMoves(s: State, a: Action)
    requires Enabled(s, a)
    ensures |Apply(s, a).ready| == |s.ready| + Arrivals(a) - Departures(a)
  {
    match a
    case Creates(slot) =>
    case AddsAdjacency(x, y) =>
    case AddsLatch(e) =>
    case Submits(t) => SubmissionMoves(s, t, 0);
    case CallsDirectly(c, t) => SubmissionMoves(s, t, c);
    case Dequeues(c, r) => BagMoves(s, r, c);
    case Begins(c) => CallMoves(s, c);
    case Returns(c) => CallMoves(s, c);
    case Notifies(c) => CallMoves(s, c);
    case Enqueues(c) => CallMoves(s, c);
    case Retires(c) => CallMoves(s, c);
    case Takes(r) =>
    case TriesDelete(r) => BagMoves(s, r, 0);
    case Retains(r) =>
  }

  lemma QueueAgrees(s: State, k: Counter, a: Action, x: State)
    requires Agrees(s, k) && Enabled(s, a) && x == Apply(s, a)
    ensures Agrees(x, Queued(k, a))
  {
    ReadyMoves(s, a);
    Shifted(Value(k), |s.ready|, Arrivals(a) - Departures(a));
  }

  lemma StepAgrees(s: State, k: Counter, a: CounterAction)
    requires Agrees(s, k) && Possible(s, k, a)
    ensures Agrees(Moved(s, a), Counted(s, k, a))
  {
    match a
    case Queue(a) => QueueAgrees(s, k, a, Apply(s, a));
    case AddSize(n) => Wrapped(k.size + n, k.uncountedIn - n - k.uncountedOut, |s.ready|);
    case SubSize =>
      Turned(Value(k), |s.ready|);
      Wrapped(k.size + COUNTER_SIZE - 1, k.uncountedIn - (k.uncountedOut - 1), |s.ready|);
  }

  predicate IsRun(s: State, k: Counter, run: seq<CounterAction>)
    decreases |run|
  {
    run == [] || (Possible(s, k, run[0]) && IsRun(Moved(s, run[0]), Counted(s, k, run[0]), run[1..]))
  }

  function After(s: State, k: Counter, run: seq<CounterAction>): (State, Counter)
    requires IsRun(s, k, run)
    decreases |run|
  {
    if run == [] then (s, k) else After(Moved(s, run[0]), Counted(s, k, run[0]), run[1..])
  }

  lemma {:induction false} RunAgrees(s: State, k: Counter, run: seq<CounterAction>)
    requires Agrees(s, k) && IsRun(s, k, run)
    ensures Agrees(After(s, k, run).0, After(s, k, run).1)
    decreases |run|
  {
    if run != [] {
      StepAgrees(s, k, run[0]);
      RunAgrees(Moved(s, run[0]), Counted(s, k, run[0]), run[1..]);
    }
  }

  /** Two values in range that agree up to turns are equal. */
  lemma CongruentInRange(x: int, y: int)
    requires Congruent(x, y) && 0 <= x < COUNTER_SIZE && 0 <= y < COUNTER_SIZE
    ensures x == y
  {
    var q :| Turns(x, y, q);
  }

  lemma Same(x: int, y: int)
    requires x == y
    ensures Congruent(x, y)
  {
    assert Turns(x, y, 0);
  }

  /** An empty queue and a counter of 0 agree. */
  lemma StartAgrees(s: State, k: Counter)
    requires |s.ready| == 0 && k.size == k.uncountedIn == k.uncountedOut == 0
    ensures Agrees(s, k)
  {
    Same(Value(k), |s.ready|);
  }

  lemma SettledAgrees(s: State, k: Counter)
    requires Agrees(s, k) && k.uncountedIn == k.uncountedOut == 0 && k.size < COUNTER_SIZE && |s.ready| < COUNTER_SIZE
    ensures k.size == |s.ready|
  {
    CongruentInRange(k.size, |s.ready|);
  }

  /** In every run from agreement, once each enqueue and dequeue has been counted the counter is the queue's length. */
  lemma AgreementSettles(s: State, start: Counter, run: seq<CounterAction>, e: State, k: Counter)
    requires Agrees(s, start) && IsRun(s, start, run) && After(s, start, run) == (e, k)
    requires k.uncountedIn == k.uncountedOut == 0 && k.size < COUNTER_SIZE && |e.ready| < COUNTER_SIZE
    ensures k.size == |e.ready|
  {
    RunAgrees(s, start, run);
    SettledAgrees(e, k);
  }

  /** In every run that starts with an empty queue and a counter of 0 it is so, although the counter may wrap on the
      way. */
  lemma CounterSettles(s: State, start: Counter, run: seq<CounterAction>, e: State, k: Counter)
    requires |s.ready| == 0 && start.size == start.uncountedIn == start.uncountedOut == 0
    requires IsRun(s, start, run) && After(s, start, run) == (e, k)
    requires k.uncountedIn == k.uncountedOut == 0 && k.size < COUNTER_SIZE && |e.ready| < COUNTER_SIZE
    ensures k.size == |e.ready|
  {
    StartAgrees(s, start);
    AgreementSettles(s, start, run, e, k);
  }
}
