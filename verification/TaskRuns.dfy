/** Whole runs of the task executor: what holds in every state any interleaving reaches, that the executor's own
    steps always come to an end, and what is left then. */
module TaskRuns {
  import opened TaskExecutor

  datatype Action =
    // the client
    | Creates(slot: Slot)
    | AddsAdjacency(a: TaskId, b: TaskId)
    | AddsLatch(edge: Edge)
    | Submits(t: TaskId)
    | CallsDirectly(c: CallId, t: TaskId)
    // the executor
    | Dequeues(c: CallId, ref: Ref)
    | Begins(c: CallId)
    | Returns(c: CallId)
    | Notifies(c: CallId)
    | Enqueues(c: CallId)
    | Retires(c: CallId)
    | Takes(ref: Ref)
    | TriesDelete(ref: Ref)
    | Retains(ref: Ref)

  predicate ByExecutor(a: Action) {
    !(a.Creates? || a.AddsAdjacency? || a.AddsLatch? || a.Submits? || a.CallsDirectly?)
  }

  predicate Enabled(s: State, a: Action) {
    match a
    case Creates(slot) => CanCreate(s, slot)
    case AddsAdjacency(a, b) => CanAddAdjacency(s, a, b)
    case AddsLatch(e) => CanAddLatch(s, e)
    case Submits(t) => CanSubmit(s, t)
    case CallsDirectly(c, t) => CanSubmit(s, t) && c !in s.calls
    case Dequeues(c, r) => CanDequeue(s, c, r)
    case Begins(c) => CanBegin(s, c)
    case Returns(c) => CanReturn(s, c)
    case Notifies(c) => CanNotify(s, c)
    case Enqueues(c) => CanEnqueue(s, c)
    case Retires(c) => CanRetire(s, c)
    case Takes(r) => r in s.deletion
    case TriesDelete(r) => r in s.purging
    case Retains(r) => r in s.retained
  }

  function Apply(s: State, a: Action): State
    requires Enabled(s, a)
  {
    match a
    case Creates(slot) => Create(s, slot)
    case AddsAdjacency(a, b) => AddAdjacency(s, a, b)
    case AddsLatch(e) => AddLatch(s, e)
    case Submits(t) => Submit(s, t)
    case CallsDirectly(c, t) => CallDirectly(s, c, t)
    case Dequeues(c, r) => Dequeue(s, c, r)
    case Begins(c) => Begin(s, c)
    case Returns(c) => Return(s, c)
    case Notifies(c) => Notify(s, c)
    case Enqueues(c) => Enqueue(s, c)
    case Retires(c) => Retire(s, c)
    case Takes(r) => Take(s, r)
    case TriesDelete(r) => TryDelete(s, r)
    case Retains(r) => Retain(s, r)
  }

  predicate Valid(s: State, run: seq<Action>)
    decreases |run|
  {
    run == [] || (Enabled(s, run[0]) && Valid(Apply(s, run[0]), run[1..]))
  }

  function Run(s: State, run: seq<Action>): State
    requires Valid(s, run)
    decreases |run|
  {
    if run == [] then s else Run(Apply(s, run[0]), run[1..])
  }

  /** An executor without tasks. */
  ghost predicate Initial(s: State) {
    && (forall x :: x in s.free <==> 0 <= x < POOL_SIZE)
    && s == State(s.free, map[], map[], {}, multiset{}, map[], multiset{}, multiset{}, multiset{}, false)
  }

  lemma StepKeeps(s: State, a: Action)
    requires Inv(s) && Enabled(s, a)
    ensures Inv(Apply(s, a))
  {
    match a
    case Creates(slot) => CreateKeeps(s, slot);
    case AddsAdjacency(a, b) => AddAdjacencyKeeps(s, a, b);
    case AddsLatch(e) => AddLatchKeeps(s, e);
    case Submits(t) => SubmitKeeps(s, t);
    case CallsDirectly(c, t) => CallDirectlyKeeps(s, c, t);
    case Dequeues(c, r) => DequeueKeeps(s, c, r);
    case Begins(c) => BeginKeeps(s, c);
    case Returns(c) => ReturnKeeps(s, c);
    case Notifies(c) => NotifyKeeps(s, c);
    case Enqueues(c) => EnqueueKeeps(s, c);
    case Retires(c) => RetireKeeps(s, c);
    case Takes(r) => TakeKeeps(s, r);
    case TriesDelete(r) => TryDeleteKeeps(s, r);
    case Retains(r) =>
  }

  lemma {:induction false} RunKeeps(s: State, run: seq<Action>)
    requires Inv(s) && Valid(s, run)
    ensures Inv(Run(s, run))
    decreases |run|
  {
    if run != [] {
      StepKeeps(s, run[0]);
      RunKeeps(Apply(s, run[0]), run[1..]);
    }
  }

  lemma RunFromInitial(s: State, run: seq<Action>)
    requires Initial(s) && Valid(s, run)
    ensures Inv(Run(s, run))
  {
    assert Inv(s);
    RunKeeps(s, run);
  }

  /** No ENSURE of the executor ever fails, in any interleaving. */
  lemma NeverTraps(s: State, run: seq<Action>)
    requires Initial(s) && Valid(s, run)
    ensures !Run(s, run).trapped
  {
    RunFromInitial(s, run);
  }

  /** The handles the executor still has to follow. */
  ghost predicate Pending(s: State, r: Ref) {
    || r in s.ready || r in s.deletion || r in s.purging || r in s.retained
    || (exists c :: c in s.calls && (s.calls[c].ref == r || (s.calls[c].pc.Enqueueing? && s.calls[c].pc.target == r)))
    || (exists a, i :: a in s.tasks && s.tasks[a].notified <= i < |s.tasks[a].adj| && s.tasks[a].adj[i] == r)
  }

  /** Although slots are reused, every handle the executor still has to follow leads to the task it was stored for. */
  lemma HandlesNeverStale(s: State, run: seq<Action>, r: Ref)
    requires Initial(s) && Valid(s, run) && Pending(Run(s, run), r)
    ensures var e := Run(s, run); Resolves(e, r) && At(e, r) == r.task
  {
    RunFromInitial(s, run);
    var e := Run(s, run);
    if r in e.ready {
      assert e.ready[Ref(e.tasks[r.task].slot, r.task)] > 0;
    } else if r in e.deletion + e.purging {
      assert (e.deletion + e.purging)[Ref(e.tasks[r.task].slot, r.task)] > 0;
    } else if c :| c in e.calls && (e.calls[c].ref == r || (e.calls[c].pc.Enqueueing? && e.calls[c].pc.target == r)) {
      assert CallOK(c, e.calls[c], e.tasks);
    } else {
      var a, i :| a in e.tasks && e.tasks[a].notified <= i < |e.tasks[a].adj| && e.tasks[a].adj[i] == r;
      assert EdgeOK(e.tasks, a, i);
    }
    NeverStale(e, r);
  }

  /** A callable is invoked at most once; it has been exactly once when the task's slot is given back, and then its
      latch is 0 and all its successors are notified. */
  lemma RunsAtMostOnce(s: State, run: seq<Action>, t: TaskId)
    requires Initial(s) && Valid(s, run) && t in Run(s, run).tasks
    ensures var task := Run(s, run).tasks[t];
            task.runs <= 1
            && (task.phase.Freed? ==> task.runs == 1 && task.latch == 0 && task.notified == |task.adj|)
  {
    RunFromInitial(s, run);
    var e := Run(s, run);
    assert TaskOK(e.tasks[t]) && PhaseHasCall(t, e.tasks[t].phase, e.calls);
    if e.tasks[t].phase.Called? {
      assert CallOK(e.tasks[t].phase.caller, e.calls[e.tasks[t].phase.caller], e.tasks);
    }
  }

  /** A task is invoked only after the callables of all its predecessors have returned. */
  lemma PredecessorsFirst(s: State, run: seq<Action>, a: TaskId, b: TaskId)
    requires Initial(s) && Valid(s, run)
    requires var e := Run(s, run); HasEdge(e.tasks, a, b) && b in e.tasks && e.tasks[b].runs > 0
    ensures var e := Run(s, run); e.tasks[a].runs == 1 && e.tasks[a].latch == 0 && !Unfinished(e.tasks[a].phase)
  {
    RunFromInitial(s, run);
    var e := Run(s, run);
    assert TaskOK(e.tasks[a]) && TaskOK(e.tasks[b]);
    var i :| 0 <= i < |e.tasks[a].adj| && e.tasks[a].adj[i].task == b;
    assert e.tasks[a].notified <= i ==> EdgeOK(e.tasks, a, i);
  }

  /** Deletion never has to be retried: nothing is ever kept in a nextDeletionQueue, and every handle waiting for
      deletion belongs to a task with latch 0. */
  lemma DeletionNeverRetries(s: State, run: seq<Action>, r: Ref)
    requires Initial(s) && Valid(s, run)
    ensures Run(s, run).retained == multiset{}
    ensures r in Run(s, run).purging ==> Resolves(Run(s, run), r) && Run(s, run).tasks[At(Run(s, run), r)].latch == 0
  {
    RunFromInitial(s, run);
    if r in Run(s, run).purging {
      PurgedTask(Run(s, run), r);
    }
  }

  // ----- The executor's own steps come to an end

  function Rank(task: Task): nat {
    match task.phase
    case Created => 7
    case Released(_) => 6
    case Queued => 5
    case Called(_) => if task.runs == 0 then 4 else 3
    case Returned(_) => 2
    case Retired => 1
    case Freed => 0
  }

  function Work(task: Task): nat { 2 * Rank(task) + (if task.notified <= |task.adj| then |task.adj| - task.notified else 0) }

  function TotalWork(tasks: Tasks, n: nat): nat
    requires forall t | 0 <= t < n :: t in tasks
  {
    if n == 0 then 0 else Work(tasks[n - 1]) + TotalWork(tasks, n - 1)
  }

  lemma {:induction false} WorkChanges(tasks: Tasks, n: nat, t: TaskId, x: Task)
    requires (forall u | 0 <= u < n :: u in tasks) && t in tasks
    ensures TotalWork(tasks[t := x], n) == TotalWork(tasks, n) + (if t < n then Work(x) - Work(tasks[t]) else 0)
  {
    if n > 0 {
      WorkChanges(tasks, n - 1, t, x);
    }
  }

  ghost predicate Numbered(tasks: Tasks) { forall t :: t in tasks <==> 0 <= t < |tasks| }

  /** What is left to do: for every task the phases ahead of it and the successors to notify, and the handles that
      wait for deletion. */
  ghost function Measure(s: State): nat {
    (if Numbered(s.tasks) then TotalWork(s.tasks, |s.tasks|) else 0) + |s.deletion|
  }

  lemma SameSize(tasks: Tasks, t: TaskId, x: Task)
    requires t in tasks
    ensures |tasks[t := x]| == |tasks|
  {
    assert tasks[t := x].Keys == tasks.Keys;
    assert |tasks[t := x]| == |tasks[t := x].Keys|;
  }

  lemma OneTaskWorked(s: State, s': State, t: TaskId, x: Task)
    requires Numbered(s.tasks) && t in s.tasks && s'.tasks == s.tasks[t := x]
    requires Work(x) + |s'.deletion| < Work(s.tasks[t]) + |s.deletion|
    ensures Measure(s') < Measure(s)
  {
    SameSize(s.tasks, t, x);
    WorkChanges(s.tasks, |s.tasks|, t, x);
  }

  lemma NotifyWorks(s: State, c: CallId)
    requires Inv(s) && CanNotify(s, c)
    ensures Measure(Notify(s, c)) < Measure(s)
  {
    NotifiedTask(s, c);
    var t := s.calls[c].ref.task;
    NotifyForm(s, c, t);
    var b, tasks1 := Next(s.tasks, t), Passed(s.tasks, t);
    assert TaskOK(s.tasks[t]);
    SameSize(s.tasks, t, tasks1[t]);
    SameSize(tasks1, b, Lowered(s.tasks[b], c));
    WorkChanges(s.tasks, |s.tasks|, t, tasks1[t]);
    WorkChanges(tasks1, |s.tasks|, b, Lowered(s.tasks[b], c));
  }

  lemma QueuedTask(ready: multiset<Ref>, tasks: Tasks, r: Ref)
    requires BagInv(ready, tasks, Queued) && r in ready
    ensures RefOK(tasks, r) && tasks[r.task].phase.Queued?
  {
    assert ready[Ref(tasks[r.task].slot, r.task)] > 0;
  }

  lemma CalledWorks(task: Task, x: Task, c: CallId)
    requires TaskOK(task) && task.phase.Queued? && x == task.(phase := Called(c))
    ensures Work(x) < Work(task)
  {
  }

  lemma DequeueWorks(s: State, c: CallId, r: Ref)
    requires Inv(s) && CanDequeue(s, c, r)
    ensures Measure(Dequeue(s, c, r)) < Measure(s)
  {
    QueuedTask(s.ready, s.tasks, r);
    assert TaskOK(s.tasks[r.task]);
    var x := s.tasks[r.task].(phase := Called(c));
    CalledWorks(s.tasks[r.task], x, c);
    OneTaskWorked(s, Dequeue(s, c, r), r.task, x);
  }

  lemma BeginWorks(s: State, c: CallId)
    requires Inv(s) && CanBegin(s, c)
    ensures Measure(Begin(s, c)) < Measure(s)
  {
    CalledTask(s, c);
    BeginForm(s, c, s.calls[c].ref);
    OneTaskWorked(s, Begin(s, c), s.calls[c].ref.task, s.tasks[s.calls[c].ref.task].(runs := 1));
  }

  lemma ReturnWorks(s: State, c: CallId)
    requires Inv(s) && CanReturn(s, c)
    ensures Measure(Return(s, c)) < Measure(s)
  {
    CalledTask(s, c);
    OneTaskWorked(s, Return(s, c), s.calls[c].ref.task, s.tasks[s.calls[c].ref.task].(latch := 0, phase := Returned(c)));
  }

  lemma EnqueueWorks(s: State, c: CallId)
    requires Inv(s) && CanEnqueue(s, c)
    ensures Measure(Enqueue(s, c)) < Measure(s)
  {
    EnqueuedTask(s.calls, s.tasks, c);
    var r := s.calls[c].pc.target;
    EnqueueForm(s, c, r, s.calls[c].pc.i);
    OneTaskWorked(s, Enqueue(s, c), r.task, s.tasks[r.task].(phase := Queued));
  }

  lemma RetireWorks(s: State, c: CallId)
    requires Inv(s) && CanRetire(s, c)
    ensures Measure(Retire(s, c)) < Measure(s)
  {
    assert CallOK(c, s.calls[c], s.tasks);
    NeverStale(s, s.calls[c].ref);
    OneTaskWorked(s, Retire(s, c), s.calls[c].ref.task, s.tasks[s.calls[c].ref.task].(phase := Retired));
  }

  lemma TryDeleteWorks(s: State, r: Ref)
    requires Inv(s) && r in s.purging
    ensures Measure(TryDelete(s, r)) < Measure(s)
  {
    PurgedTask(s, r);
    OneTaskWorked(s, TryDelete(s, r), r.task, s.tasks[r.task].(phase := Freed));
  }

  /** Every step of the executor takes away some of what is left to do. */
  lemma StepWorks(s: State, a: Action)
    requires Inv(s) && Enabled(s, a) && ByExecutor(a)
    ensures Inv(Apply(s, a)) && Measure(Apply(s, a)) < Measure(s)
  {
    StepKeeps(s, a);
    match a
    case Dequeues(c, r) => DequeueWorks(s, c, r);
    case Begins(c) => BeginWorks(s, c);
    case Returns(c) => ReturnWorks(s, c);
    case Notifies(c) => NotifyWorks(s, c);
    case Enqueues(c) => EnqueueWorks(s, c);
    case Retires(c) => RetireWorks(s, c);
    case Takes(r) =>
    case TriesDelete(r) => TryDeleteWorks(s, r);
    case Retains(r) =>
  }

  predicate OnlyExecutor(run: seq<Action>) { forall i | 0 <= i < |run| :: ByExecutor(run[i]) }

  /** Once the clients are idle, no run of the executor is longer than what was left to do. */
  lemma {:induction false} ExecutorRunsEnd(s: State, run: seq<Action>)
    requires Inv(s) && Valid(s, run) && OnlyExecutor(run)
    ensures Inv(Run(s, run)) && |run| + Measure(Run(s, run)) <= Measure(s)
    decreases |run|
  {
    if run != [] {
      StepWorks(s, run[0]);
      ExecutorRunsEnd(Apply(s, run[0]), run[1..]);
    }
  }

  // ----- What is left at the end

  ghost predicate Delivered(tasks: Tasks, t: TaskId) {
    exists a, i :: a in tasks && 0 <= i < tasks[a].notified && i < |tasks[a].adj| && tasks[a].adj[i].task == t
  }

  /** A task one of whose edges has been notified, and which is not released, has another one outstanding. */
  ghost predicate DeliveredInv(tasks: Tasks, adding: set<Edge>) {
    && (forall a, i | a in tasks && 0 <= i < |tasks[a].adj| :: tasks[a].adj[i].task in tasks)
    && (forall t | t in tasks && tasks[t].phase.Created? && Delivered(tasks, t) :: Counted(tasks, adding, t) != {})
  }

  lemma DeliveredFrame(tasks: Tasks, adding: set<Edge>, t: TaskId, x: Task)
    requires DeliveredInv(tasks, adding) && t in tasks && x.adj == tasks[t].adj && x.notified == tasks[t].notified
    requires x.phase.Created? ==> tasks[t].phase.Created?
    ensures DeliveredInv(tasks[t := x], adding)
  {
    var tasks' := tasks[t := x];
    forall u | u in tasks' && tasks'[u].phase.Created? && Delivered(tasks', u) ensures Counted(tasks', adding, u) != {} {
      CountedFrame(tasks, adding, t, x, u);
      assert Delivered(tasks, u);
    }
  }

  lemma DeliveredCreate(tasks: Tasks, adding: set<Edge>, n: TaskId, x: Task)
    requires DeliveredInv(tasks, adding) && n !in tasks && x.adj == []
    ensures DeliveredInv(tasks[n := x], adding)
  {
    var tasks' := tasks[n := x];
    forall u | u in tasks' && tasks'[u].phase.Created? && Delivered(tasks', u) ensures Counted(tasks', adding, u) != {} {
      assert Delivered(tasks, u);
      assert Counted(tasks', adding, u) == Counted(tasks, adding, u);
    }
  }

  lemma DeliveredAdjacency(tasks: Tasks, adding: set<Edge>, a: TaskId, r: Ref)
    requires DeliveredInv(tasks, adding) && AddingInv(tasks, adding) && TaskInv(tasks) && a in tasks && r.task in tasks
    ensures var x := tasks[a].(adj := tasks[a].adj + [r]);
            DeliveredInv(tasks[a := x], adding + {(a, |tasks[a].adj|)})
  {
    var tasks', adding' := tasks[a := tasks[a].(adj := tasks[a].adj + [r])], adding + {(a, |tasks[a].adj|)};
    assert TaskOK(tasks[a]);
    forall u | u in tasks' && tasks'[u].phase.Created? && Delivered(tasks', u) ensures Counted(tasks', adding', u) != {} {
      AdjacencyCounts(tasks, adding, a, r, u);
      assert Delivered(tasks, u);
    }
  }

  lemma DeliveredShrinks(tasks: Tasks, adding: set<Edge>, e: Edge)
    requires DeliveredInv(tasks, adding)
    ensures DeliveredInv(tasks, adding - {e})
  {
    forall u | u in tasks && tasks[u].phase.Created? && Delivered(tasks, u) ensures Counted(tasks, adding - {e}, u) != {} {
      assert Counted(tasks, adding, u) <= Counted(tasks, adding - {e}, u);
    }
  }

  lemma DeliveredNotify(tasks: Tasks, adding: set<Edge>, t: TaskId, c: CallId)
    requires DeliveredInv(tasks, adding) && LatchInv(tasks, adding) && AddingInv(tasks, adding) && TaskExecutor.Notifies(tasks, t)
    requires LatchInv(Notified(tasks, t, c), adding)
    ensures DeliveredInv(Notified(tasks, t, c), adding)
  {
    var b, tasks1, tasks' := Next(tasks, t), Passed(tasks, t), Notified(tasks, t, c);
    assert (t, tasks[t].notified) !in adding;
    forall u | u in tasks' && tasks'[u].phase.Created? && Delivered(tasks', u) ensures Counted(tasks', adding, u) != {} {
      if u == b {
        assert LatchOK(b, tasks', adding);
      } else {
        NotifyCounts(tasks, adding, t, u);
        CountedFrame(tasks1, adding, b, Lowered(tasks[b], c), u);
        assert Delivered(tasks, u);
      }
    }
  }

  ghost predicate AllDelivered(s: State) { DeliveredInv(s.tasks, s.adding) }

  lemma ClientKeepsDelivered(s: State, a: Action)
    requires Inv(s) && AllDelivered(s) && Enabled(s, a) && !ByExecutor(a)
    ensures AllDelivered(Apply(s, a))
  {
    match a
    case Creates(slot) => DeliveredCreate(s.tasks, s.adding, NewTask(s), Task(slot, 1, [], 0, 0, Created));
    case AddsAdjacency(a, b) => DeliveredAdjacency(s.tasks, s.adding, a, RefOf(s, b));
    case AddsLatch(e) =>
      AddLatchTarget(s, e);
      var b := s.tasks[e.0].adj[e.1].task;
      var x := s.tasks[b].(latch := s.tasks[b].latch + 1);
      DeliveredFrame(s.tasks, s.adding, b, x);
      DeliveredShrinks(s.tasks[b := x], s.adding, e);
    case Submits(t) => DeliveredFrame(s.tasks, s.adding, t, s.tasks[t].(phase := Queued));
    case CallsDirectly(c, t) => DeliveredFrame(s.tasks, s.adding, t, s.tasks[t].(phase := Called(c)));
  }

  lemma BodyKeepsDelivered(s: State, c: CallId)
    requires Inv(s) && AllDelivered(s)
    ensures CanBegin(s, c) ==> AllDelivered(Begin(s, c))
    ensures CanReturn(s, c) ==> AllDelivered(Return(s, c))
  {
    if CanBegin(s, c) || CanReturn(s, c) {
      CalledTask(s, c);
      var t := s.calls[c].ref.task;
      DeliveredFrame(s.tasks, s.adding, t, s.tasks[t].(runs := s.tasks[t].runs + 1));
      DeliveredFrame(s.tasks, s.adding, t, s.tasks[t].(latch := 0, phase := Returned(c)));
    }
  }

  lemma TailKeepsDelivered(s: State, c: CallId)
    requires Inv(s) && AllDelivered(s)
    ensures CanEnqueue(s, c) ==> AllDelivered(Enqueue(s, c))
    ensures CanRetire(s, c) ==> AllDelivered(Retire(s, c))
  {
    if CanEnqueue(s, c) {
      EnqueuedTask(s.calls, s.tasks, c);
      DeliveredFrame(s.tasks, s.adding, s.calls[c].pc.target.task, s.tasks[s.calls[c].pc.target.task].(phase := Queued));
    } else if CanRetire(s, c) {
      var t := At(s, s.calls[c].ref);
      DeliveredFrame(s.tasks, s.adding, t, s.tasks[t].(phase := Retired));
    }
  }

  lemma NotifyKeepsDelivered(s: State, c: CallId)
    requires Inv(s) && AllDelivered(s) && CanNotify(s, c)
    ensures AllDelivered(Notify(s, c))
  {
    NotifiedTask(s, c);
    NotifyForm(s, c, s.calls[c].ref.task);
    NotifiedLatches(s.tasks, s.adding, s.calls[c].ref.task, c);
    DeliveredNotify(s.tasks, s.adding, s.calls[c].ref.task, c);
  }

  lemma DequeueKeepsDelivered(s: State, c: CallId, r: Ref)
    requires Inv(s) && AllDelivered(s) && CanDequeue(s, c, r)
    ensures AllDelivered(Dequeue(s, c, r))
  {
    DeliveredFrame(s.tasks, s.adding, r.task, s.tasks[r.task].(phase := Called(c)));
  }

  lemma PurgeKeepsDelivered(s: State, r: Ref)
    requires Inv(s) && AllDelivered(s) && r in s.purging
    ensures AllDelivered(TryDelete(s, r))
  {
    PurgedTask(s, r);
    DeliveredFrame(s.tasks, s.adding, r.task, s.tasks[r.task].(phase := Freed));
  }

  lemma ExecutorKeepsDelivered(s: State, a: Action)
    requires Inv(s) && AllDelivered(s) && Enabled(s, a) && ByExecutor(a)
    ensures AllDelivered(Apply(s, a))
  {
    match a
    case Dequeues(c, r) => DequeueKeepsDelivered(s, c, r);
    case Begins(c) => BodyKeepsDelivered(s, c);
    case Returns(c) => BodyKeepsDelivered(s, c);
    case Notifies(c) => NotifyKeepsDelivered(s, c);
    case Enqueues(c) => TailKeepsDelivered(s, c);
    case Retires(c) => TailKeepsDelivered(s, c);
    case Takes(r) =>
    case TriesDelete(r) => PurgeKeepsDelivered(s, r);
    case Retains(r) =>
  }

  lemma StepKeepsDelivered(s: State, a: Action)
    requires Inv(s) && AllDelivered(s) && Enabled(s, a)
    ensures AllDelivered(Apply(s, a))
  {
    if ByExecutor(a) {
      ExecutorKeepsDelivered(s, a);
    } else {
      ClientKeepsDelivered(s, a);
    }
  }

  lemma {:induction false} RunKeepsDelivered(s: State, run: seq<Action>)
    requires Inv(s) && AllDelivered(s) && Valid(s, run)
    ensures AllDelivered(Run(s, run))
    decreases |run|
  {
    if run != [] {
      StepKeeps(s, run[0]);
      StepKeepsDelivered(s, run[0]);
      RunKeepsDelivered(Apply(s, run[0]), run[1..]);
    }
  }

  ghost predicate Quiescent(s: State) { forall a | ByExecutor(a) :: !Enabled(s, a) }

  lemma CallCanMove(s: State, c: CallId)
    requires Inv(s) && s.adding == {} && c in s.calls
    ensures CanBegin(s, c) || CanReturn(s, c) || CanNotify(s, c) || CanRetire(s, c) || CanEnqueue(s, c)
  {
    assert CallOK(c, s.calls[c], s.tasks);
    NeverStale(s, s.calls[c].ref);
  }

  lemma QuiescentCalls(s: State, c: CallId)
    requires Quiescent(s)
    ensures !CanBegin(s, c) && !CanReturn(s, c) && !CanNotify(s, c) && !CanRetire(s, c) && !CanEnqueue(s, c)
  {
    assert !Enabled(s, Begins(c)) && !Enabled(s, Returns(c)) && !Enabled(s, Enqueues(c));
    assert !Enabled(s, Notifies(c)) && !Enabled(s, Retires(c));
  }

  lemma QuiescentQueues(s: State, c: CallId, r: Ref)
    requires Quiescent(s) && c !in s.calls
    ensures r !in s.ready && r !in s.deletion && r !in s.purging
  {
    assert !Enabled(s, Dequeues(c, r)) && !Enabled(s, Takes(r)) && !Enabled(s, TriesDelete(r));
  }

  /** When the executor has nothing to do and no client is inside AddDependency, no call is in progress. */
  lemma QuiescentIsEmpty(s: State)
    requires Inv(s) && Quiescent(s) && s.adding == {}
    ensures forall c :: c !in s.calls
    ensures forall r :: r !in s.ready && r !in s.deletion + s.purging
  {
    forall c ensures c !in s.calls {
      QuiescentCalls(s, c);
      if c in s.calls {
        CallCanMove(s, c);
      }
    }
    forall r ensures r !in s.ready && r !in s.deletion + s.purging {
      QuiescentQueues(s, r.task, r);
    }
  }

  ghost predicate RootsSubmitted(tasks: Tasks) {
    forall t | t in tasks && tasks[t].phase.Created? :: exists a :: HasEdge(tasks, a, t)
  }

  ghost predicate Ordered(tasks: Tasks, order: TaskId -> nat) {
    forall a, b | a in tasks && b in tasks && HasEdge(tasks, a, b) :: order(a) < order(b)
  }

  lemma QuiescentPhases(s: State, t: TaskId)
    requires Inv(s) && Quiescent(s) && s.adding == {} && t in s.tasks
    ensures s.tasks[t].phase.Created? || s.tasks[t].phase.Freed?
  {
    QuiescentIsEmpty(s);
    assert PhaseHasCall(t, s.tasks[t].phase, s.calls);
    assert Ref(s.tasks[t].slot, t) !in s.ready;
    assert Ref(s.tasks[t].slot, t) !in s.deletion + s.purging;
  }

  /** A task whose predecessors have all notified their successors has been released. */
  lemma NotifiedByAll(tasks: Tasks, t: TaskId)
    requires DeliveredInv(tasks, {}) && t in tasks
    requires exists a :: HasEdge(tasks, a, t)
    requires forall a | a in tasks && HasEdge(tasks, a, t) :: tasks[a].notified == |tasks[a].adj|
    ensures !tasks[t].phase.Created?
  {
    var a :| HasEdge(tasks, a, t);
    var i :| 0 <= i < |tasks[a].adj| && tasks[a].adj[i].task == t;
    assert Delivered(tasks, t);
    forall b, j | Awaits(tasks, b, j, t) ensures HasEdge(tasks, b, t) {
    }
    assert forall e | e in Counted(tasks, {}, t) :: Awaits(tasks, e.0, e.1, t);
    assert Counted(tasks, {}, t) == {};
  }

  lemma {:induction false} QuiescentFreed(s: State, order: TaskId -> nat, t: TaskId)
    requires Inv(s) && DeliveredInv(s.tasks, s.adding) && Quiescent(s) && s.adding == {}
    requires RootsSubmitted(s.tasks) && Ordered(s.tasks, order) && t in s.tasks
    ensures s.tasks[t].phase.Freed?
    decreases order(t)
  {
    QuiescentPhases(s, t);
    forall a | a in s.tasks && HasEdge(s.tasks, a, t) ensures s.tasks[a].notified == |s.tasks[a].adj| {
      QuiescentFreed(s, order, a);
      assert TaskOK(s.tasks[a]);
    }
    if exists a :: HasEdge(s.tasks, a, t) {
      NotifiedByAll(s.tasks, t);
    }
  }

  /** For an acyclic graph whose roots were submitted, when the executor has nothing left to do every task has run
      exactly once and has given its slot back. */
  lemma AllTasksRunOnce(s: State, run: seq<Action>, order: TaskId -> nat, t: TaskId)
    requires Initial(s) && Valid(s, run)
    requires var e := Run(s, run); Quiescent(e) && e.adding == {} && RootsSubmitted(e.tasks) && Ordered(e.tasks, order)
    requires t in Run(s, run).tasks
    ensures Run(s, run).tasks[t].runs == 1 && Run(s, run).tasks[t].phase.Freed?
  {
    RunFromInitial(s, run);
    RunKeepsDelivered(s, run);
    QuiescentFreed(Run(s, run), order, t);
    assert TaskOK(Run(s, run).tasks[t]);
  }
}
