/** The loops of src/core/taskexecutor.cpp and src/core/taskexecutor.inl as one thread runs them: each round is made
    of steps of TaskExecutor's state machine, and a drain leaves nothing undone. */
module ExecutorLoops {
  import opened TaskExecutor
  import opened TaskRuns

  lemma {:induction false} RunSnoc(s: State, run: seq<Action>, a: Action)
    requires Valid(s, run) && Enabled(Run(s, run), a)
    ensures Valid(s, run + [a]) && Run(s, run + [a]) == Apply(Run(s, run), a)
    decreases |run|
  {
    if run == [] {
      assert run + [a] == [a] && [a][1..] == [];
    } else {
      RunSnoc(Apply(s, run[0]), run[1..], a);
      assert (run + [a])[1..] == run[1..] + [a];
    }
  }

  /** The executor's steps neither add tasks or edges nor take a submission back. */
  ghost predicate SameGraph(tasks: Tasks, was: Tasks) {
    && tasks.Keys == was.Keys
    && forall t | t in was :: tasks[t].adj == was[t].adj && (tasks[t].phase.Created? ==> was[t].phase.Created?)
  }

  lemma UpdateKeepsGraph(tasks: Tasks, t: TaskId, x: Task)
    requires t in tasks && x.adj == tasks[t].adj && !x.phase.Created?
    ensures SameGraph(tasks[t := x], tasks)
  {
  }

  lemma NotifyKeepsGraph(s: State, c: CallId)
    requires Inv(s) && CanNotify(s, c)
    ensures SameGraph(Notify(s, c).tasks, s.tasks)
  {
    NotifiedTask(s, c);
    NotifyForm(s, c, s.calls[c].ref.task);
  }

  lemma DequeueKeepsGraph(s: State, c: CallId, r: Ref)
    requires CanDequeue(s, c, r)
    ensures SameGraph(Dequeue(s, c, r).tasks, s.tasks)
  {
    if r.task in s.tasks { UpdateKeepsGraph(s.tasks, r.task, s.tasks[r.task].(phase := Called(c))); }
  }

  lemma BeginKeepsGraph(s: State, c: CallId)
    requires Inv(s) && CanBegin(s, c)
    ensures SameGraph(Begin(s, c).tasks, s.tasks)
  {
    CalledTask(s, c);
    BeginForm(s, c, s.calls[c].ref);
    UpdateKeepsGraph(s.tasks, s.calls[c].ref.task, s.tasks[s.calls[c].ref.task].(runs := 1));
  }

  lemma ReturnKeepsGraph(s: State, c: CallId)
    requires Inv(s) && CanReturn(s, c)
    ensures SameGraph(Return(s, c).tasks, s.tasks)
  {
    CalledTask(s, c);
    var t := s.calls[c].ref.task;
    UpdateKeepsGraph(s.tasks, t, s.tasks[t].(latch := 0, phase := Returned(c)));
  }

  lemma EnqueueKeepsGraph(s: State, c: CallId)
    requires Inv(s) && CanEnqueue(s, c)
    ensures SameGraph(Enqueue(s, c).tasks, s.tasks)
  {
    EnqueuedTask(s.calls, s.tasks, c);
    EnqueueForm(s, c, s.calls[c].pc.target, s.calls[c].pc.i);
    var t := s.calls[c].pc.target.task;
    UpdateKeepsGraph(s.tasks, t, s.tasks[t].(phase := Queued));
  }

  lemma RetireKeepsGraph(s: State, c: CallId)
    requires CanRetire(s, c)
    ensures SameGraph(Retire(s, c).tasks, s.tasks)
  {
    var t := At(s, s.calls[c].ref);
    UpdateKeepsGraph(s.tasks, t, s.tasks[t].(phase := Retired));
  }

  lemma TryDeleteKeepsGraph(s: State, r: Ref)
    requires r in s.purging
    ensures SameGraph(TryDelete(s, r).tasks, s.tasks)
  {
    if Resolves(s, r) { UpdateKeepsGraph(s.tasks, At(s, r), s.tasks[At(s, r)].(phase := Freed)); }
  }

  lemma StepKeepsGraph(s: State, a: Action)
    requires Inv(s) && Enabled(s, a) && ByExecutor(a)
    ensures SameGraph(Apply(s, a).tasks, s.tasks)
  {
    match a
    case Dequeues(c, r) => DequeueKeepsGraph(s, c, r);
    case Begins(c) => BeginKeepsGraph(s, c);
    case Returns(c) => ReturnKeepsGraph(s, c);
    case Notifies(c) => NotifyKeepsGraph(s, c);
    case Enqueues(c) => EnqueueKeepsGraph(s, c);
    case Retires(c) => RetireKeepsGraph(s, c);
    case Takes(r) =>
    case TriesDelete(r) => TryDeleteKeepsGraph(s, r);
    case Retains(r) =>
  }

  lemma GraphJoins(a: Tasks, b: Tasks, c: Tasks)
    requires SameGraph(a, b) && SameGraph(b, c)
    ensures SameGraph(a, c)
  {
  }

  /** Roots stay submitted and the order stays one. */
  lemma GraphKeepsRoots(tasks: Tasks, was: Tasks, order: TaskId -> nat)
    requires SameGraph(tasks, was) && RootsSubmitted(was) && Ordered(was, order)
    ensures RootsSubmitted(tasks) && Ordered(tasks, order)
  {
    forall a, b ensures HasEdge(tasks, a, b) == HasEdge(was, a, b) {
    }
    forall t | t in tasks && tasks[t].phase.Created? ensures exists a :: HasEdge(tasks, a, t) {
      var a :| HasEdge(was, a, t);
      assert HasEdge(tasks, a, t);
    }
  }

  // ----- What a thread sees after each of its steps

  /** s is reached from an executor without tasks. */
  ghost predicate Reached(start: State, trace: seq<Action>, s: State) {
    Initial(start) && TaskRuns.Valid(start, trace) && s == Run(start, trace)
  }

  /** Less is left to do on the same graph. */
  ghost predicate Less(s: State, was: State) { Measure(s) < Measure(was) && SameGraph(s.tasks, was.tasks) }

  lemma ReachedStep(start: State, trace: seq<Action>, s: State, a: Action)
    requires Reached(start, trace, s) && Enabled(s, a)
    ensures Reached(start, trace + [a], Apply(s, a))
    ensures ByExecutor(a) ==> Less(Apply(s, a), s)
  {
    RunSnoc(start, trace, a);
    RunFromInitial(start, trace);
    if ByExecutor(a) {
      StepWorks(s, a);
      StepKeepsGraph(s, a);
    }
  }

  lemma LessJoins(a: State, b: State, c: State)
    requires Less(a, b) && Less(b, c)
    ensures Less(a, c)
  {
    GraphJoins(a.tasks, b.tasks, c.tasks);
  }

  ghost predicate AtMost(s: State, was: State) { s == was || Less(s, was) }

  lemma AtMostJoins(a: State, b: State, c: State)
    requires AtMost(a, b) && AtMost(b, c)
    ensures AtMost(a, c) && (Less(a, b) || Less(b, c) ==> Less(a, c))
  {
    if a != b && b != c { LessJoins(a, b, c); }
  }

  lemma AfterDequeue(s: State, c: CallId, r: Ref)
    requires CanDequeue(s, c, r)
    ensures var e := Dequeue(s, c, r); CanBegin(e, c) && e.calls.Keys == s.calls.Keys + {c} && e.purging == s.purging && e.adding == s.adding
  {
  }

  lemma AfterBegin(start: State, trace: seq<Action>, s: State, c: CallId)
    requires Reached(start, trace, s) && CanBegin(s, c) && s.adding == {}
    ensures var e := Begin(s, c); CanReturn(e, c) && e.calls.Keys == s.calls.Keys && e.purging == s.purging && e.adding == {}
  {
    RunFromInitial(start, trace);
    CalledTask(s, c);
    BeginForm(s, c, s.calls[c].ref);
  }

  lemma AfterReturn(start: State, trace: seq<Action>, s: State, c: CallId)
    requires Reached(start, trace, s) && CanReturn(s, c)
    ensures var e := Return(s, c);
            c in e.calls && e.calls[c].pc.Notifying? && e.calls.Keys == s.calls.Keys && e.purging == s.purging && e.adding == s.adding
  {
    RunFromInitial(start, trace);
    CalledTask(s, c);
  }

  lemma AfterNotify(start: State, trace: seq<Action>, s: State, c: CallId)
    requires Reached(start, trace, s) && CanNotify(s, c)
    ensures var e := Notify(s, c);
            && c in e.calls && (CanEnqueue(e, c) || e.calls[c].pc.Notifying?)
            && e.calls.Keys == s.calls.Keys && e.purging == s.purging && e.adding == s.adding
  {
    RunFromInitial(start, trace);
    NotifiedTask(s, c);
    NotifyForm(s, c, s.calls[c].ref.task);
  }

  lemma AfterEnqueue(s: State, c: CallId)
    requires CanEnqueue(s, c)
    ensures var e := Enqueue(s, c);
            c in e.calls && e.calls[c].pc.Notifying? && e.calls.Keys == s.calls.Keys && e.purging == s.purging && e.adding == s.adding
  {
  }

  /** A call that has no adjacency left to notify can retire its task. */
  lemma AllNotified(start: State, trace: seq<Action>, s: State, c: CallId)
    requires Reached(start, trace, s) && c in s.calls && s.calls[c].pc.Notifying? && !CanNotify(s, c)
    ensures CanRetire(s, c)
  {
    RunFromInitial(start, trace);
    assert CallOK(c, s.calls[c], s.tasks);
    NeverStale(s, s.calls[c].ref);
  }

  lemma AfterTryDelete(start: State, trace: seq<Action>, s: State, r: Ref)
    requires Reached(start, trace, s) && r in s.purging
    ensures var e := TryDelete(s, r);
            e.calls == s.calls && e.purging == s.purging - multiset{r} && e.adding == s.adding && e.ready == s.ready
            && e.deletion == s.deletion
  {
    RunFromInitial(start, trace);
    PurgedTask(s, r);
  }

  // ----- What a callable does with the executor

  datatype ClientOp = Creation | Depend(a: TaskId, b: TaskId) | Submission(t: TaskId)

  /** AddDependency's callers' demands, and room in the latch. */
  predicate CanDepend(s: State, a: TaskId, b: TaskId) {
    CanAddAdjacency(s, a, b) && s.tasks[b].latch + 1 < LATCH_SIZE
  }

  /** The calls and the handles to delete are the same. */
  predicate SameWork(s: State, was: State) { s.calls == was.calls && s.purging == was.purging && s.deletion == was.deletion }

  ghost predicate AllRunOnce(s: State) { forall t | t in s.tasks :: s.tasks[t].runs == 1 && s.tasks[t].phase.Freed? }

  lemma NoSlotBelow(start: State, trace: seq<Action>, s: State, slot: nat)
    requires Reached(start, trace, s) && slot <= POOL_SIZE && forall x | 0 <= x < slot :: x !in s.free
    ensures if slot < POOL_SIZE && slot in s.free then CanCreate(s, slot) else slot == POOL_SIZE ==> forall x :: !CanCreate(s, x)
  {
    RunFromInitial(start, trace);
  }

  /** After the first half, the second one is possible. */
  lemma HalfAdded(start: State, trace: seq<Action>, s: State, a: TaskId, b: TaskId, e: Edge)
    requires Reached(start, trace, s) && CanDepend(s, a, b) && e == (a, |s.tasks[a].adj|)
    ensures CanAddLatch(AddAdjacency(s, a, b), e) && e !in s.adding
  {
    RunFromInitial(start, trace);
    assert TaskOK(s.tasks[b]);
    NeverStale(s, RefOf(s, b));
  }

  lemma HalfHasEdge(s: State, half: State, a: TaskId, b: TaskId, e: Edge)
    requires CanDepend(s, a, b) && half == AddAdjacency(s, a, b) && e == (a, |s.tasks[a].adj|) && e !in s.adding
    ensures HasEdge(half.tasks, a, b) && half.adding - {e} == s.adding && SameWork(half, s)
  {
    assert half.tasks[a].adj[e.1].task == b;
  }

  lemma EdgeAdded(start: State, trace: seq<Action>, s: State, half: State, a: TaskId, b: TaskId, e: Edge)
    requires Reached(start, trace, half) && CanDepend(s, a, b) && half == AddAdjacency(s, a, b)
    requires e == (a, |s.tasks[a].adj|) && CanAddLatch(half, e) && e !in s.adding
    ensures HasEdge(AddLatch(half, e).tasks, a, b) && AddLatch(half, e).adding == s.adding
    ensures SameWork(AddLatch(half, e), s)
  {
    RunFromInitial(start, trace);
    HalfHasEdge(s, half, a, b, e);
    AddLatchTarget(half, e);
    assert AddLatch(half, e).tasks[a].adj == half.tasks[a].adj;
  }

  lemma StillInvoking(s: State, begun: State, c: CallId)
    requires CanReturn(begun, c) && s.calls == begun.calls && s.adding == {}
    ensures CanReturn(s, c)
  {
  }

  function AllSlots(n: nat): (slots: set<Slot>)
    ensures forall x :: x in slots <==> 0 <= x < n
  {
    if n == 0 then {} else AllSlots(n - 1) + {n - 1}
  }

  class Executor {
    var state: State

    /** Where the executor began, and every step since. */
    ghost const start: State
    ghost var trace: seq<Action>

    ghost predicate Valid()
      reads this
    {
      Reached(start, trace, state)
    }

    constructor ()
      ensures Valid() && trace == [] && state.tasks == map[]
      ensures state.calls.Keys == {} && state.purging == state.deletion == multiset{} && state.adding == {}
    {
      var s := State(AllSlots(POOL_SIZE), map[], map[], {}, multiset{}, map[], multiset{}, multiset{}, multiset{}, false);
      state, start, trace := s, s, [];
    }

    /** A step of a client: CreateTask, the halves of AddDependency, Submit, Call. */
    method ClientStep(a: Action)
      requires Valid() && Enabled(state, a) && !ByExecutor(a)
      modifies this
      ensures Valid() && state == Apply(old(state), a) && trace == old(trace) + [a]
    {
      ReachedStep(start, trace, state, a);
      state := Apply(state, a);
      trace := trace + [a];
    }

    /** One atomic step of this thread. */
    method Step(a: Action)
      requires Valid() && Enabled(state, a) && ByExecutor(a)
      modifies this
      ensures Valid() && state == Apply(old(state), a) && trace == old(trace) + [a] && Less(state, old(state))
    {
      ReachedStep(start, trace, state, a);
      state := Apply(state, a);
      trace := trace + [a];
    }

    /** One round of the loop of InternalScheduleAdjacent: an adjacency is notified, and submitted when that
        releases it. */
    method NotifyOne(c: CallId)
      requires Valid() && CanNotify(state, c)
      modifies this
      ensures Valid() && Less(state, old(state)) && c in state.calls && state.calls[c].pc.Notifying?
      ensures state.calls.Keys == old(state).calls.Keys && state.purging == old(state).purging && state.adding == old(state).adding
    {
      ghost var was := state;
      AfterNotify(start, trace, state, c);
      Step(Notifies(c));
      if CanEnqueue(state, c) {
        ghost var between := state;
        AfterEnqueue(state, c);
        Step(Enqueues(c));
        LessJoins(state, between, was);
      }
    }

    /** InternalScheduleAdjacent. */
    method InternalScheduleAdjacent(c: CallId)
      requires Valid() && c in state.calls && state.calls[c].pc.Notifying?
      modifies this
      ensures Valid() && AtMost(state, old(state)) && CanRetire(state, c)
      ensures state.calls.Keys == old(state).calls.Keys && state.purging == old(state).purging && state.adding == old(state).adding
    {
      ghost var was := state;
      while CanNotify(state, c)
        invariant Valid() && AtMost(state, was) && c in state.calls && state.calls[c].pc.Notifying?
        invariant state.calls.Keys == was.calls.Keys && state.purging == was.purging && state.adding == was.adding
        decreases Measure(state)
      {
        ghost var before := state;
        NotifyOne(c);
        AtMostJoins(state, before, was);
      }
      AllNotified(start, trace, state, c);
    }

    /** CreateTask, in the least free slot; none when the pool is full. */
    method CreateTask() returns (created: bool)
      requires Valid()
      modifies this
      ensures Valid() && SameWork(state, old(state)) && state.adding == old(state).adding
      ensures !created ==> state == old(state) && forall slot :: !CanCreate(state, slot)
      ensures created ==> NewTask(old(state)) in state.tasks && state.tasks[NewTask(old(state))].phase.Created?
    {
      var slot := 0;
      while slot < POOL_SIZE && slot !in state.free
        invariant slot <= POOL_SIZE && forall x | 0 <= x < slot :: x !in state.free
      {
        slot := slot + 1;
      }
      created := slot < POOL_SIZE;
      NoSlotBelow(start, trace, state, slot);
      if created {
        ClientStep(Creates(slot));
      }
    }

    /** AddDependency, both halves. */
    method AddDependency(a: TaskId, b: TaskId)
      requires Valid() && CanDepend(state, a, b)
      modifies this
      ensures Valid() && SameWork(state, old(state)) && state.adding == old(state).adding
      ensures HasEdge(state.tasks, a, b)
    {
      ghost var was := state;
      var e := (a, |state.tasks[a].adj|);
      HalfAdded(start, trace, state, a, b, e);
      ClientStep(AddsAdjacency(a, b));
      EdgeAdded(start, trace, was, state, a, b, e);
      ClientStep(AddsLatch(e));
    }

    /** What a callable may do with the executor: the operation is performed if its callers' demands are met. */
    method Perform(op: ClientOp) returns (done: bool)
      requires Valid() && state.adding == {}
      modifies this
      ensures Valid() && SameWork(state, old(state)) && state.adding == {}
      ensures !done ==> state == old(state)
    {
      match op
      case Creation =>
        done := CreateTask();
      case Depend(a, b) =>
        done := CanDepend(state, a, b);
        if done { AddDependency(a, b); }
      case Submission(t) =>
        done := CanSubmit(state, t);
        if done { ClientStep(Submits(t)); }
    }

    /** A callable that extends the graph while it runs. */
    method RunBody(body: seq<ClientOp>)
      requires Valid() && state.adding == {}
      modifies this
      ensures Valid() && SameWork(state, old(state)) && state.adding == {} && (body == [] ==> state == old(state))
    {
      ghost var was := state;
      var i := 0;
      while i < |body|
        invariant i <= |body| && Valid() && SameWork(state, was) && state.adding == {} && (i == 0 ==> state == was)
      {
        var done := Perform(body[i]);
        i := i + 1;
      }
    }

    /** InternalCall: the callable is invoked and may create, link and submit tasks; then its successors are notified,
        and its handle goes to the deletion queue. */
    method InternalCall(c: CallId, body: seq<ClientOp>)
      requires Valid() && CanBegin(state, c) && state.adding == {}
      modifies this
      ensures Valid() && (body == [] ==> Less(state, old(state)))
      ensures state.calls.Keys == old(state).calls.Keys - {c} && state.purging == old(state).purging && state.adding == {}
    {
      ghost var was := state;
      AfterBegin(start, trace, state, c);
      Step(Begins(c));
      ghost var begun := state;
      RunBody(body);
      StillInvoking(state, begun, c);
      ghost var ran := state;
      AfterReturn(start, trace, state, c);
      Step(Returns(c));
      ghost var returned := state;
      InternalScheduleAdjacent(c);
      ghost var notified := state;
      Step(Retires(c));
      if body == [] {
        LessJoins(returned, begun, was);
        AtMostJoins(notified, returned, was);
        LessJoins(state, notified, was);
      }
    }

    /** One round of the purge: a handle taken from the deletion queue is freed, never kept for later. */
    method PurgeOne(r: Ref)
      requires Valid() && r in state.deletion && state.purging == multiset{}
      modifies this
      ensures Valid() && Less(state, old(state))
      ensures state.calls == old(state).calls && state.adding == old(state).adding && state.ready == old(state).ready
      ensures state.purging == multiset{} && state.deletion == old(state).deletion - multiset{r}
    {
      ghost var was := state;
      Step(Takes(r));
      ghost var taken := state;
      AfterTryDelete(start, trace, state, r);
      Step(TriesDelete(r));
      LessJoins(state, taken, was);
    }

    /** InternalPurgeDeletionQueue. */
    method InternalPurgeDeletionQueue()
      requires Valid() && state.purging == multiset{}
      modifies this
      ensures Valid() && AtMost(state, old(state))
      ensures state.calls == old(state).calls && state.adding == old(state).adding && state.ready == old(state).ready
      ensures state.purging == multiset{} && state.deletion == multiset{}
    {
      ghost var was := state;
      while state.deletion != multiset{}
        invariant Valid() && AtMost(state, was) && state.purging == multiset{}
        invariant state.calls == was.calls && state.adding == was.adding && state.ready == was.ready
        decreases Measure(state)
      {
        ghost var before := state;
        var r :| r in state.deletion;
        PurgeOne(r);
        AtMostJoins(state, before, was);
      }
    }

    /** One round of InternalProcessReadyQueue. */
    method ProcessOne(c: CallId, r: Ref, body: seq<ClientOp>)
      requires Valid() && CanDequeue(state, c, r) && state.purging == multiset{} && state.adding == {}
      modifies this
      ensures Valid() && (body == [] ==> Less(state, old(state))) && state.calls.Keys == old(state).calls.Keys
      ensures state.purging == multiset{} && state.deletion == multiset{} && state.adding == {}
    {
      ghost var was := state;
      AfterDequeue(state, c, r);
      Step(Dequeues(c, r));
      ghost var dequeued := state;
      InternalCall(c, body);
      ghost var called := state;
      InternalPurgeDeletionQueue();
      if body == [] {
        LessJoins(called, dequeued, was);
        AtMostJoins(state, called, was);
      }
    }

    /** InternalProcessReadyQueue drains the queue and comes to an end, although the callables of finitely many tasks
        extend the graph while they run. On a graph that ends up without cycles and with its roots submitted, every
        task has then run exactly once and given its slot back. */
    method InternalProcessReadyQueue(c: CallId, bodies: map<TaskId, seq<ClientOp>>, ghost order: TaskId -> nat)
      requires Valid() && state.calls.Keys == {} && state.purging == state.deletion == multiset{} && state.adding == {}
      modifies this
      ensures Valid() && Quiescent(state) && (bodies == map[] ==> AtMost(state, old(state)))
      ensures RootsSubmitted(state.tasks) && Ordered(state.tasks, order) ==> AllRunOnce(state)
      ensures bodies == map[] && RootsSubmitted(old(state).tasks) && Ordered(old(state).tasks, order) ==> AllRunOnce(state)
    {
      ghost var was := state;
      var rest: map<TaskId, seq<ClientOp>> := bodies;
      while state.ready != multiset{}
        invariant Valid() && state.calls.Keys == {} && (bodies == map[] ==> rest == map[] && AtMost(state, was))
        invariant state.purging == state.deletion == multiset{} && state.adding == {}
        decreases |rest|, Measure(state)
      {
        ghost var before := state;
        var r :| r in state.ready;
        var body := if r.task in rest then rest[r.task] else [];
        BodyTaken(rest, r.task);
        rest := rest - {r.task};
        ProcessOne(c, r, body);
        if bodies == map[] { AtMostJoins(state, before, was); }
      }
      NothingLeft(start, trace, state);
      if bodies == map[] && RootsSubmitted(was.tasks) && Ordered(was.tasks, order) && state != was {
        GraphKeepsRoots(state.tasks, was.tasks, order);
      }
      if RootsSubmitted(state.tasks) && Ordered(state.tasks, order) {
        AllRun(start, trace, state, order);
      }
    }
  }

  lemma BodyTaken<T>(bodies: map<TaskId, T>, t: TaskId)
    ensures t in bodies ==> |bodies - {t}| < |bodies|
    ensures t !in bodies ==> bodies - {t} == bodies
  {
    if t in bodies {
      var rest := bodies - {t};
      assert bodies.Keys == rest.Keys + {t};
      assert |bodies| == |bodies.Keys| && |rest| == |rest.Keys|;
    }
  }

  lemma NothingLeft(start: State, trace: seq<Action>, s: State)
    requires Reached(start, trace, s) && s.ready == s.purging == s.deletion == multiset{} && s.calls.Keys == {}
    ensures Quiescent(s)
  {
    RunFromInitial(start, trace);
    assert forall c :: c !in s.calls;
  }

  lemma AllRun(start: State, trace: seq<Action>, s: State, order: TaskId -> nat)
    requires Reached(start, trace, s) && Quiescent(s) && s.adding == {}
    requires RootsSubmitted(s.tasks) && Ordered(s.tasks, order)
    ensures AllRunOnce(s)
  {
    forall t | t in s.tasks ensures s.tasks[t].runs == 1 && s.tasks[t].phase.Freed? {
      AllTasksRunOnce(start, trace, order, t);
    }
  }
}
