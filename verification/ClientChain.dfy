/** The self-continuing tasks of src/client/client.cpp (Tick and Draw) on top of the task executor: every instance
    creates its successor, makes it depend on itself, and puts it into the global handle. Anything else the
    application does with the executor goes on in between. */
module ClientChain {
  import opened TaskExecutor
  import opened TaskRuns
  import Loops = ExecutorLoops

  datatype Status = Running | ShuttingDown | Done

  /** Where an instance is in its body. */
  datatype Where = Checking | Working | Making | Made(n: TaskId) | Linked(n: TaskId) | Raised(n: TaskId) | Leaving

  datatype Body = Outside | Inside(caller: CallId, pc: Where)

  /** instances are the tasks that have been in the global handle, oldest first; works counts the calls of the
      application's Tick or Draw. */
  datatype Chain = Chain(s: State, instances: seq<TaskId>, handle: Ref, status: Status, body: Body, works: nat)

  datatype Step =
    | Other(a: Action)     // any step of the executor or of its other clients
    | Launch               // the first instance is submitted
    | Enter(c: CallId)     // a thread invokes an instance
    | Check                // the body looks at the task state
    | Work                 // the application's own Tick or Draw
    | Make(slot: Slot)     // CreateTask
    | Link                 // AddDependency stores the adjacency
    | Raise                // and raises the latch
    | Assign               // the new task goes into the global handle
    | Leave                // the body returns
    | Shutdown             // ClientDestroy

  // ----- What the rest of the application leaves alone

  /** The action is one on task u that only the chain itself performs. */
  predicate Touches(s: State, a: Action, u: TaskId) {
    match a
    case AddsAdjacency(x, y) => x == u || y == u
    case AddsLatch(e) => e.0 == u
    case Submits(t) => t == u
    case CallsDirectly(_, t) => t == u
    case Begins(c) => c in s.calls && s.calls[c].ref.task == u
    case Returns(c) => c in s.calls && s.calls[c].ref.task == u
    case _ => false
  }

  /** What nobody else changes about a task: its successors, how often it ran, that it is running, that it is done. */
  predicate Steady(x: Task, was: Task) {
    && x.slot == was.slot && x.adj == was.adj && x.runs == was.runs
    && (was.phase.Called? ==> x.phase == was.phase)
    && (!Unfinished(was.phase) ==> !Unfinished(x.phase))
  }

  lemma SteadyUpdate(tasks: Tasks, t: TaskId, x: Task, u: TaskId)
    requires t in tasks && u in tasks && (t == u ==> Steady(x, tasks[t]))
    ensures u in tasks[t := x] && Steady(tasks[t := x][u], tasks[u])
  {
  }

  lemma CreateUntouched(s: State, slot: Slot, u: TaskId)
    requires Inv(s) && CanCreate(s, slot) && u in s.tasks
    ensures u in Create(s, slot).tasks && Steady(Create(s, slot).tasks[u], s.tasks[u])
  {
    assert NewTask(s) !in s.tasks;
  }

  lemma AddUntouched(s: State, e: Edge, u: TaskId)
    requires Inv(s) && CanAddLatch(s, e) && u in s.tasks
    ensures u in AddLatch(s, e).tasks && Steady(AddLatch(s, e).tasks[u], s.tasks[u])
  {
    AddLatchTarget(s, e);
    var b := s.tasks[e.0].adj[e.1].task;
    SteadyUpdate(s.tasks, b, s.tasks[b].(latch := s.tasks[b].latch + 1), u);
  }

  lemma SubmitUntouched(s: State, c: CallId, t: TaskId, u: TaskId)
    requires CanSubmit(s, t) && u in s.tasks && u != t
    ensures u in Submit(s, t).tasks && Steady(Submit(s, t).tasks[u], s.tasks[u])
    ensures c !in s.calls ==> u in CallDirectly(s, c, t).tasks && Steady(CallDirectly(s, c, t).tasks[u], s.tasks[u])
  {
  }

  lemma AdjacencyUntouched(s: State, a: TaskId, b: TaskId, u: TaskId)
    requires CanAddAdjacency(s, a, b) && u in s.tasks && u != a
    ensures u in AddAdjacency(s, a, b).tasks && Steady(AddAdjacency(s, a, b).tasks[u], s.tasks[u])
  {
  }

  lemma ClientUntouched(s: State, a: Action, u: TaskId)
    requires Inv(s) && Enabled(s, a) && !ByExecutor(a) && u in s.tasks && !Touches(s, a, u)
    ensures u in Apply(s, a).tasks && Steady(Apply(s, a).tasks[u], s.tasks[u])
  {
    match a
    case Creates(slot) => CreateUntouched(s, slot, u);
    case AddsAdjacency(x, y) => AdjacencyUntouched(s, x, y, u);
    case AddsLatch(e) => AddUntouched(s, e, u);
    case Submits(t) => SubmitUntouched(s, 0, t, u);
    case CallsDirectly(c, t) => SubmitUntouched(s, c, t, u);
  }

  lemma CallUntouched(s: State, c: CallId, u: TaskId)
    requires Inv(s) && u in s.tasks && c in s.calls && s.calls[c].ref.task != u
    ensures CanBegin(s, c) ==> u in Begin(s, c).tasks && Steady(Begin(s, c).tasks[u], s.tasks[u])
    ensures CanReturn(s, c) ==> u in Return(s, c).tasks && Steady(Return(s, c).tasks[u], s.tasks[u])
  {
    if CanBegin(s, c) || CanReturn(s, c) { CalledTask(s, c); }
  }

  lemma NotifyUntouched(s: State, c: CallId, u: TaskId)
    requires Inv(s) && CanNotify(s, c) && u in s.tasks
    ensures u in Notify(s, c).tasks && Steady(Notify(s, c).tasks[u], s.tasks[u])
  {
    NotifiedTask(s, c);
    var t := s.calls[c].ref.task;
    NotifyForm(s, c, t);
    var tasks1 := TaskExecutor.Passed(s.tasks, t);
    SteadyUpdate(s.tasks, t, tasks1[t], u);
    SteadyUpdate(tasks1, Next(s.tasks, t), Lowered(s.tasks[Next(s.tasks, t)], c), u);
  }

  lemma DequeueUntouched(s: State, c: CallId, r: Ref, u: TaskId)
    requires Inv(s) && CanDequeue(s, c, r) && u in s.tasks
    ensures u in Dequeue(s, c, r).tasks && Steady(Dequeue(s, c, r).tasks[u], s.tasks[u])
  {
    QueuedTask(s.ready, s.tasks, r);
    SteadyUpdate(s.tasks, r.task, s.tasks[r.task].(phase := Called(c)), u);
  }

  lemma EnqueueUntouched(s: State, c: CallId, u: TaskId)
    requires Inv(s) && CanEnqueue(s, c) && u in s.tasks
    ensures u in Enqueue(s, c).tasks && Steady(Enqueue(s, c).tasks[u], s.tasks[u])
  {
    EnqueuedTask(s.calls, s.tasks, c);
    var r := s.calls[c].pc.target;
    EnqueueForm(s, c, r, s.calls[c].pc.i);
    SteadyUpdate(s.tasks, r.task, s.tasks[r.task].(phase := Queued), u);
  }

  lemma RetireUntouched(s: State, c: CallId, u: TaskId)
    requires Inv(s) && CanRetire(s, c) && u in s.tasks
    ensures u in Retire(s, c).tasks && Steady(Retire(s, c).tasks[u], s.tasks[u])
  {
    assert CallOK(c, s.calls[c], s.tasks);
    NeverStale(s, s.calls[c].ref);
    var t := s.calls[c].ref.task;
    SteadyUpdate(s.tasks, t, s.tasks[t].(phase := Retired), u);
  }

  lemma TryDeleteUntouched(s: State, r: Ref, u: TaskId)
    requires Inv(s) && r in s.purging && u in s.tasks
    ensures u in TryDelete(s, r).tasks && Steady(TryDelete(s, r).tasks[u], s.tasks[u])
  {
    PurgedTask(s, r);
    SteadyUpdate(s.tasks, r.task, s.tasks[r.task].(phase := Freed), u);
  }

  lemma Untouched(s: State, a: Action, u: TaskId)
    requires Inv(s) && Enabled(s, a) && u in s.tasks && !Touches(s, a, u)
    ensures u in Apply(s, a).tasks && Steady(Apply(s, a).tasks[u], s.tasks[u])
  {
    if !ByExecutor(a) {
      ClientUntouched(s, a, u);
    } else {
      match a
      case Dequeues(c, r) => DequeueUntouched(s, c, r, u);
      case Begins(c) => CallUntouched(s, c, u);
      case Returns(c) => CallUntouched(s, c, u);
      case Notifies(c) => NotifyUntouched(s, c, u);
      case Enqueues(c) => EnqueueUntouched(s, c, u);
      case Retires(c) => RetireUntouched(s, c, u);
      case Takes(r) =>
      case TriesDelete(r) => TryDeleteUntouched(s, r, u);
      case Retains(r) =>
    }
  }

  // ----- What every run keeps

  type Instances = seq<TaskId>

  /** Each instance leads to the next one by a dependency. */
  ghost predicate Chained(tasks: Tasks, inst: Instances) {
    && inst != []
    && (forall i | 0 <= i < |inst| :: inst[i] in tasks)
    && (forall i, j | 0 <= i < j < |inst| :: inst[i] != inst[j])
    && (forall i | 0 <= i < |inst| - 1 :: HasEdge(tasks, inst[i], inst[i + 1]))
  }

  /** The bodies of the first m instances have returned. */
  predicate Over(tasks: Tasks, inst: Instances, m: int) {
    forall i | 0 <= i < |inst| && i < m :: inst[i] in tasks && !Unfinished(tasks[inst[i]].phase)
  }

  /** Not run yet, and without successors. */
  predicate Fresh(tasks: Tasks, t: TaskId) { t in tasks && tasks[t].runs == 0 && tasks[t].adj == [] }

  predicate Active(tasks: Tasks, t: TaskId, c: CallId) { t in tasks && tasks[t].phase == Called(c) && tasks[t].runs == 1 }

  predicate Unlinked(tasks: Tasks, t: TaskId, n: TaskId) { t in tasks && tasks[t].adj == [] && t != n }

  predicate LinkedTo(tasks: Tasks, t: TaskId, n: TaskId) {
    t in tasks && |tasks[t].adj| == 1 && tasks[t].adj[0].task == n && t != n
  }

  ghost predicate BodyOK(tasks: Tasks, inst: Instances, status: Status, body: Body)
    requires inst != []
  {
    var last := |inst| - 1;
    var t := inst[last];
    match body
    case Outside => Over(tasks, inst, last) && if status.Done? then Over(tasks, inst, last + 1) else Fresh(tasks, t)
    case Inside(c, pc) =>
      match pc
      case Made(n) =>
        !status.Done? && Over(tasks, inst, last) && Active(tasks, t, c)
        && Unlinked(tasks, t, n) && Fresh(tasks, n) && n !in inst
      case Linked(n) =>
        !status.Done? && Over(tasks, inst, last) && Active(tasks, t, c)
        && LinkedTo(tasks, t, n) && Fresh(tasks, n) && n !in inst
      case Raised(n) =>
        !status.Done? && Over(tasks, inst, last) && Active(tasks, t, c)
        && LinkedTo(tasks, t, n) && Fresh(tasks, n) && n !in inst
      case Leaving =>
        if status.Done? then Over(tasks, inst, last) && Active(tasks, t, c) && tasks[t].adj == []
        else |inst| >= 2 && Over(tasks, inst, last - 1) && Active(tasks, inst[last - 1], c) && Fresh(tasks, t)
             && LinkedTo(tasks, inst[last - 1], t)
      case _ => !status.Done? && Over(tasks, inst, last) && Active(tasks, t, c) && tasks[t].adj == []
  }

  /** The chain's invariant, beside the executor's own. */
  ghost predicate OnTasks(k: Chain, tasks: Tasks) {
    && Chained(tasks, k.instances)
    && RefOK(tasks, k.handle) && k.handle.task == k.instances[|k.instances| - 1]
    && BodyOK(tasks, k.instances, k.status, k.body)
  }

  ghost predicate ChainInv(k: Chain) { Inv(k.s) && OnTasks(k, k.s.tasks) }

  // ----- The steps

  /** The tasks only the chain itself may touch. */
  predicate Own(k: Chain, u: TaskId) {
    u in k.instances || (k.body.Inside? && (k.body.pc.Made? || k.body.pc.Linked? || k.body.pc.Raised?) && k.body.pc.n == u)
  }

  ghost predicate Foreign(k: Chain, a: Action) { Enabled(k.s, a) && forall u | Own(k, u) :: !Touches(k.s, a, u) }

  predicate At(k: Chain, pc: Where) { k.body.Inside? && k.body.pc == pc }

  ghost predicate Possible(k: Chain, step: Step) {
    match step
    case Other(a) => Foreign(k, a)
    case Launch => |k.instances| == 1 && k.body.Outside? && CanSubmit(k.s, k.instances[0])
    case Enter(c) => CanBegin(k.s, c) && k.s.calls[c].ref.task in k.instances
    case Check => At(k, Checking)
    case Work => At(k, Working)
    case Make(slot) => At(k, Making) && CanCreate(k.s, slot)
    case Link => k.body.Inside? && k.body.pc.Made? && Resolves(k.s, k.handle)
                 && CanAddAdjacency(k.s, TaskExecutor.At(k.s, k.handle), k.body.pc.n)
    case Raise => k.body.Inside? && k.body.pc.Linked? && Resolves(k.s, k.handle)
                  && CanAddLatch(k.s, (TaskExecutor.At(k.s, k.handle), 0))
    case Assign => k.body.Inside? && k.body.pc.Raised? && k.body.pc.n in k.s.tasks
    case Leave => At(k, Leaving) && CanReturn(k.s, k.body.caller)
    case Shutdown => k.status.Running?
  }

  function In(k: Chain, pc: Where): Chain
    requires k.body.Inside?
  {
    k.(body := Inside(k.body.caller, pc))
  }

  ghost function Do(k: Chain, step: Step): Chain
    requires Possible(k, step)
  {
    match step
    case Other(a) => k.(s := Apply(k.s, a))
    case Launch => k.(s := Submit(k.s, k.instances[0]))
    case Enter(c) => k.(s := Begin(k.s, c), body := Inside(c, Checking))
    case Check => if k.status.ShuttingDown? then In(k, Leaving).(status := Done) else In(k, Working)
    case Work => In(k, Making).(works := k.works + 1)
    case Make(slot) => In(k, Made(NewTask(k.s))).(s := Create(k.s, slot))
    case Link => In(k, Linked(k.body.pc.n)).(s := AddAdjacency(k.s, TaskExecutor.At(k.s, k.handle), k.body.pc.n))
    case Raise => In(k, Raised(k.body.pc.n)).(s := AddLatch(k.s, (TaskExecutor.At(k.s, k.handle), 0)))
    case Assign => In(k, Leaving).(instances := k.instances + [k.body.pc.n], handle := RefOf(k.s, k.body.pc.n))
    case Leave => k.(s := Return(k.s, k.body.caller), body := Outside)
    case Shutdown => k.(status := ShuttingDown)
  }

  // ----- Each of them keeps the invariant

  lemma EdgeStays(x: Tasks, was: Tasks, a: TaskId, b: TaskId)
    requires a in was && a in x && x[a].adj == was[a].adj
    ensures HasEdge(was, a, b) ==> HasEdge(x, a, b)
  {
  }

  /** Steadiness of the instances keeps the chain of edges. */
  lemma ChainedSteady(x: Tasks, was: Tasks, inst: Instances)
    requires Chained(was, inst)
    requires forall i | 0 <= i < |inst| :: inst[i] in x && x[inst[i]].adj == was[inst[i]].adj
    ensures Chained(x, inst)
  {
    forall i | 0 <= i < |inst| - 1 ensures HasEdge(x, inst[i], inst[i + 1]) {
      EdgeStays(x, was, inst[i], inst[i + 1]);
    }
  }

  lemma BodySteady(x: Tasks, was: Tasks, inst: Instances, status: Status, body: Body)
    requires inst != [] && BodyOK(was, inst, status, body)
    requires forall i | 0 <= i < |inst| :: inst[i] in was && inst[i] in x && Steady(x[inst[i]], was[inst[i]])
    requires body.Inside? && (body.pc.Made? || body.pc.Linked? || body.pc.Raised?) ==>
               body.pc.n in was && body.pc.n in x && Steady(x[body.pc.n], was[body.pc.n])
    ensures BodyOK(x, inst, status, body)
  {
  }

  ghost predicate AllSteady(k: Chain, x: Tasks, was: Tasks) {
    forall u | Own(k, u) :: u in was && u in x && Steady(x[u], was[u])
  }

  lemma SteadyKeeps(k: Chain, x: Tasks, was: Tasks)
    requires OnTasks(k, was) && AllSteady(k, x, was)
    ensures OnTasks(k, x)
  {
    forall i | 0 <= i < |k.instances| ensures k.instances[i] in x && Steady(x[k.instances[i]], was[k.instances[i]]) {
      assert Own(k, k.instances[i]);
    }
    ChainedSteady(x, was, k.instances);
    BodySteady(x, was, k.instances, k.status, k.body);
  }

  lemma OwnExists(k: Chain, tasks: Tasks, u: TaskId)
    requires OnTasks(k, tasks) && Own(k, u)
    ensures u in tasks
  {
  }

  lemma ForeignSteady(k: Chain, a: Action)
    requires Inv(k.s) && OnTasks(k, k.s.tasks) && Foreign(k, a)
    ensures AllSteady(k, Apply(k.s, a).tasks, k.s.tasks)
  {
    forall u | Own(k, u) ensures u in k.s.tasks && u in Apply(k.s, a).tasks && Steady(Apply(k.s, a).tasks[u], k.s.tasks[u]) {
      OwnExists(k, k.s.tasks, u);
      Untouched(k.s, a, u);
    }
  }

  lemma OtherKeeps(k: Chain, a: Action)
    requires ChainInv(k) && Foreign(k, a)
    ensures ChainInv(Do(k, Other(a)))
  {
    StepKeeps(k.s, a);
    ForeignSteady(k, a);
    SteadyKeeps(k, Apply(k.s, a).tasks, k.s.tasks);
  }

  // ----- Entering a body

  /** While a task's callable has not returned, its successors wait. */
  lemma SuccessorWaits(tasks: Tasks, a: TaskId, b: TaskId)
    requires EdgeInv(tasks) && TaskInv(tasks) && HasEdge(tasks, a, b) && Unfinished(tasks[a].phase)
    ensures b in tasks && tasks[b].phase.Created?
  {
    assert TaskOK(tasks[a]);
    var i: nat :| i < |tasks[a].adj| && tasks[a].adj[i].task == b;
    assert EdgeOK(tasks, a, i);
  }

  /** The newest instance waits while the one before it is leaving its body. */
  lemma NewestWaits(k: Chain)
    requires ChainInv(k) && k.body.Inside? && k.body.pc.Leaving? && !k.status.Done?
    ensures k.s.tasks[k.instances[|k.instances| - 1]].phase.Created?
  {
    var i := |k.instances| - 2;
    assert HasEdge(k.s.tasks, k.instances[i], k.instances[i + 1]);
    SuccessorWaits(k.s.tasks, k.instances[i], k.instances[i + 1]);
  }

  lemma AloneOnTasks(k: Chain, tasks: Tasks, c: CallId, i: nat)
    requires OnTasks(k, tasks) && i < |k.instances|
    requires tasks[k.instances[i]].phase == Called(c) && tasks[k.instances[i]].runs == 0
    requires k.body.Inside? && k.body.pc.Leaving? && !k.status.Done? ==> tasks[k.instances[|k.instances| - 1]].phase.Created?
    ensures k.body.Outside? && !k.status.Done? && i == |k.instances| - 1
  {
  }

  /** Only the newest instance can be entered, and only when no body is running and the chain is not done. */
  lemma EnteredAlone(k: Chain, c: CallId, i: nat)
    requires ChainInv(k) && CanBegin(k.s, c) && i < |k.instances| && k.s.calls[c].ref.task == k.instances[i]
    ensures k.body.Outside? && !k.status.Done? && i == |k.instances| - 1
    ensures k.s.tasks[k.instances[i]].phase == Called(c) && k.s.tasks[k.instances[i]].runs == 0
  {
    CalledTask(k.s, c);
    if k.body.Inside? && k.body.pc.Leaving? && !k.status.Done? { NewestWaits(k); }
    AloneOnTasks(k, k.s.tasks, c, i);
  }

  /** One instance, the newest, changes; the others are steady. */
  ghost predicate OthersSteady(k: Chain, x: Tasks, was: Tasks, t: TaskId) {
    forall u | Own(k, u) && u != t :: u in was && u in x && Steady(x[u], was[u])
  }

  lemma EnterOnTasks(k: Chain, x: Tasks, was: Tasks, c: CallId)
    requires OnTasks(k, was) && k.body.Outside? && !k.status.Done?
    requires var t := k.instances[|k.instances| - 1]; OthersSteady(k, x, was, t) && t in x && x[t] == was[t].(runs := 1) && was[t].phase == Called(c)
    ensures OnTasks(k.(body := Inside(c, Checking)), x)
  {
    forall i | 0 <= i < |k.instances|
      ensures k.instances[i] in x && x[k.instances[i]].adj == was[k.instances[i]].adj && x[k.instances[i]].slot == was[k.instances[i]].slot
      ensures i < |k.instances| - 1 ==> Steady(x[k.instances[i]], was[k.instances[i]])
    {
      assert Own(k, k.instances[i]);
    }
    ChainedSteady(x, was, k.instances);
  }

  lemma BeginSteady(k: Chain, c: CallId, t: TaskId)
    requires Inv(k.s) && OnTasks(k, k.s.tasks) && CanBegin(k.s, c) && k.s.calls[c].ref.task == t
    ensures OthersSteady(k, Begin(k.s, c).tasks, k.s.tasks, t)
    ensures t in Begin(k.s, c).tasks && t in k.s.tasks && Begin(k.s, c).tasks[t] == k.s.tasks[t].(runs := 1)
  {
    CalledTask(k.s, c);
    BeginForm(k.s, c, k.s.calls[c].ref);
    forall u | Own(k, u) && u != t ensures u in k.s.tasks && u in Begin(k.s, c).tasks && Steady(Begin(k.s, c).tasks[u], k.s.tasks[u]) {
      OwnExists(k, k.s.tasks, u);
      CallUntouched(k.s, c, u);
    }
  }

  lemma EnterKeeps(k: Chain, c: CallId, i: nat)
    requires ChainInv(k) && CanBegin(k.s, c) && i < |k.instances| && k.s.calls[c].ref.task == k.instances[i]
    ensures OnTasks(k.(s := Begin(k.s, c), body := Inside(c, Checking)), Begin(k.s, c).tasks)
  {
    EnteredAlone(k, c, i);
    BeginSteady(k, c, k.instances[i]);
    EnterOnTasks(k, Begin(k.s, c).tasks, k.s.tasks, c);
  }

  // ----- The body's own steps

  lemma CheckKeeps(k: Chain, tasks: Tasks)
    requires OnTasks(k, tasks) && At(k, Checking)
    ensures OnTasks(In(k, Leaving).(status := Done), tasks) && OnTasks(In(k, Working), tasks)
  {
  }

  lemma WorkKeeps(k: Chain, tasks: Tasks)
    requires OnTasks(k, tasks) && At(k, Working)
    ensures OnTasks(In(k, Making).(works := k.works + 1), tasks)
  {
  }

  lemma ShutdownKeeps(k: Chain, tasks: Tasks)
    requires OnTasks(k, tasks) && k.status.Running?
    ensures OnTasks(k.(status := ShuttingDown), tasks)
  {
  }

  lemma MakeOnTasks(k: Chain, x: Tasks, was: Tasks, n: TaskId)
    requires OnTasks(k, was) && At(k, Making) && AllSteady(k, x, was) && n !in was && Fresh(x, n)
    ensures OnTasks(In(k, Made(n)), x)
  {
    SteadyKeeps(k, x, was);
  }

  lemma MakeKeeps(k: Chain, slot: Slot)
    requires ChainInv(k) && At(k, Making) && CanCreate(k.s, slot)
    ensures OnTasks(In(k, Made(NewTask(k.s))).(s := Create(k.s, slot)), Create(k.s, slot).tasks)
  {
    var x := Create(k.s, slot).tasks;
    forall u | Own(k, u) ensures u in k.s.tasks && u in x && Steady(x[u], k.s.tasks[u]) {
      OwnExists(k, k.s.tasks, u);
      CreateUntouched(k.s, slot, u);
    }
    assert NewTask(k.s) !in k.s.tasks;
    MakeOnTasks(k, x, k.s.tasks, NewTask(k.s));
  }

  /** The global handle leads to the running instance. */
  lemma HandleLeads(k: Chain)
    requires PoolInv(k.s.free, k.s.slots, k.s.tasks) && OnTasks(k, k.s.tasks) && k.body.Inside? && !k.body.pc.Leaving?
    ensures Resolves(k.s, k.handle) && TaskExecutor.At(k.s, k.handle) == k.instances[|k.instances| - 1]
  {
    NeverStale(k.s, k.handle);
  }

  lemma LinkOnTasks(k: Chain, x: Tasks, was: Tasks, n: TaskId)
    requires OnTasks(k, was) && k.body.Inside? && k.body.pc == Made(n)
    requires var t := k.instances[|k.instances| - 1];
             OthersSteady(k, x, was, t) && t in x && LinkedTo(x, t, n) && x[t] == was[t].(adj := x[t].adj)
    ensures OnTasks(In(k, Linked(n)), x)
  {
    assert Own(k, n);
    forall i | 0 <= i < |k.instances| - 1 ensures k.instances[i] in x && Steady(x[k.instances[i]], was[k.instances[i]]) {
      assert Own(k, k.instances[i]);
    }
    forall i | 0 <= i < |k.instances| - 1 ensures HasEdge(x, k.instances[i], k.instances[i + 1]) {
      EdgeStays(x, was, k.instances[i], k.instances[i + 1]);
    }
  }

  lemma LinkSteady(k: Chain, n: TaskId, t: TaskId)
    requires OnTasks(k, k.s.tasks) && CanAddAdjacency(k.s, t, n)
    ensures OthersSteady(k, AddAdjacency(k.s, t, n).tasks, k.s.tasks, t)
  {
    var x := AddAdjacency(k.s, t, n).tasks;
    forall u | Own(k, u) && u != t ensures u in k.s.tasks && u in x && Steady(x[u], k.s.tasks[u]) {
      OwnExists(k, k.s.tasks, u);
      AdjacencyUntouched(k.s, t, n, u);
    }
  }

  lemma LinkKeeps(k: Chain, n: TaskId, t: TaskId)
    requires OnTasks(k, k.s.tasks) && k.body.Inside? && k.body.pc == Made(n) && t == k.instances[|k.instances| - 1]
    requires CanAddAdjacency(k.s, t, n)
    ensures OnTasks(In(k, Linked(n)), AddAdjacency(k.s, t, n).tasks)
  {
    LinkSteady(k, n, t);
    LinkOnTasks(k, AddAdjacency(k.s, t, n).tasks, k.s.tasks, n);
  }

  lemma RaiseOnTasks(k: Chain, x: Tasks, was: Tasks, n: TaskId)
    requires OnTasks(k, was) && k.body.Inside? && k.body.pc == Linked(n) && AllSteady(k, x, was)
    ensures OnTasks(In(k, Raised(n)), x)
  {
    SteadyKeeps(k, x, was);
  }

  lemma AddSteady(k: Chain, e: Edge)
    requires Inv(k.s) && OnTasks(k, k.s.tasks) && CanAddLatch(k.s, e)
    ensures AllSteady(k, AddLatch(k.s, e).tasks, k.s.tasks)
  {
    var x := AddLatch(k.s, e).tasks;
    forall u | Own(k, u) ensures u in k.s.tasks && u in x && Steady(x[u], k.s.tasks[u]) {
      OwnExists(k, k.s.tasks, u);
      AddUntouched(k.s, e, u);
    }
  }

  lemma RaiseKeeps(k: Chain, n: TaskId, e: Edge)
    requires ChainInv(k) && k.body.Inside? && k.body.pc == Linked(n) && CanAddLatch(k.s, e)
    ensures OnTasks(In(k, Raised(n)), AddLatch(k.s, e).tasks)
  {
    AddSteady(k, e);
    RaiseOnTasks(k, AddLatch(k.s, e).tasks, k.s.tasks, n);
  }

  lemma AssignChained(inst: Instances, tasks: Tasks, n: TaskId)
    requires Chained(tasks, inst) && n in tasks && n !in inst && LinkedTo(tasks, inst[|inst| - 1], n)
    ensures Chained(tasks, inst + [n])
  {
    var more := inst + [n];
    forall i | 0 <= i < |more| - 1 ensures HasEdge(tasks, more[i], more[i + 1]) {
      if i < |inst| - 1 { assert HasEdge(tasks, inst[i], inst[i + 1]); }
    }
  }

  lemma AssignBody(inst: Instances, tasks: Tasks, n: TaskId, status: Status, c: CallId)
    requires inst != [] && BodyOK(tasks, inst, status, Inside(c, Raised(n)))
    ensures BodyOK(tasks, inst + [n], status, Inside(c, Leaving))
  {
    var more := inst + [n];
    forall i | 0 <= i < |more| && i < |inst| - 1 ensures more[i] in tasks && !Unfinished(tasks[more[i]].phase) {
      assert more[i] == inst[i];
    }
  }

  lemma AssignKeeps(k: Chain, tasks: Tasks, n: TaskId, r: Ref)
    requires OnTasks(k, tasks) && k.body.Inside? && k.body.pc == Raised(n) && r.task == n && RefOK(tasks, r)
    ensures OnTasks(In(k, Leaving).(instances := k.instances + [n], handle := r), tasks)
  {
    AssignChained(k.instances, tasks, n);
    AssignBody(k.instances, tasks, n, k.status, k.body.caller);
  }

  // ----- Leaving the body

  /** The instance whose body is running. */
  predicate IsRunner(k: Chain, i: nat) {
    k.body.Inside? && i < |k.instances| && i == |k.instances| - (if k.body.pc.Leaving? && !k.status.Done? then 2 else 1)
  }

  lemma RunnerActive(k: Chain, tasks: Tasks)
    requires OnTasks(k, tasks) && k.body.Inside?
    ensures exists i: nat :: IsRunner(k, i) && Active(tasks, k.instances[i], k.body.caller)
  {
    var last := |k.instances| - 1;
    if k.body.pc.Leaving? && !k.status.Done? {
      assert IsRunner(k, last - 1) && Active(tasks, k.instances[last - 1], k.body.caller);
    } else {
      assert IsRunner(k, last) && Active(tasks, k.instances[last], k.body.caller);
    }
  }

  lemma LeaveOnTasks(k: Chain, x: Tasks, was: Tasks, i: nat)
    requires OnTasks(k, was) && At(k, Leaving) && IsRunner(k, i)
    requires var t := k.instances[i];
             OthersSteady(k, x, was, t) && t in x && t in was && !Unfinished(x[t].phase) && x[t].adj == was[t].adj && x[t].slot == was[t].slot
    ensures OnTasks(k.(body := Outside), x)
  {
    forall j | 0 <= j < |k.instances|
      ensures k.instances[j] in x && x[k.instances[j]].adj == was[k.instances[j]].adj && x[k.instances[j]].slot == was[k.instances[j]].slot
      ensures j != i ==> Steady(x[k.instances[j]], was[k.instances[j]])
    {
      assert Own(k, k.instances[j]);
    }
    ChainedSteady(x, was, k.instances);
  }

  /** The running instance's call is the one that runs its body. */
  lemma CallerRuns(s: State, c: CallId, t: TaskId)
    requires CallInv(s.calls, s.tasks) && Active(s.tasks, t, c)
    ensures c in s.calls && s.calls[c].ref.task == t
  {
    assert PhaseHasCall(t, s.tasks[t].phase, s.calls);
  }

  lemma ReturnSteady(k: Chain, c: CallId, t: TaskId)
    requires Inv(k.s) && OnTasks(k, k.s.tasks) && CanReturn(k.s, c) && k.s.calls[c].ref.task == t
    ensures OthersSteady(k, Return(k.s, c).tasks, k.s.tasks, t)
    ensures t in k.s.tasks && Return(k.s, c).tasks == k.s.tasks[t := k.s.tasks[t].(latch := 0, phase := Returned(c))]
  {
    CalledTask(k.s, c);
    forall u | Own(k, u) && u != t ensures u in k.s.tasks && u in Return(k.s, c).tasks && Steady(Return(k.s, c).tasks[u], k.s.tasks[u]) {
      OwnExists(k, k.s.tasks, u);
      CallUntouched(k.s, c, u);
    }
  }

  lemma RunnerCalled(k: Chain) returns (i: nat)
    requires CallInv(k.s.calls, k.s.tasks) && OnTasks(k, k.s.tasks) && k.body.Inside?
    ensures IsRunner(k, i) && Active(k.s.tasks, k.instances[i], k.body.caller)
    ensures k.body.caller in k.s.calls && k.s.calls[k.body.caller].ref.task == k.instances[i]
  {
    RunnerActive(k, k.s.tasks);
    i :| IsRunner(k, i) && Active(k.s.tasks, k.instances[i], k.body.caller);
    CallerRuns(k.s, k.body.caller, k.instances[i]);
  }

  lemma LeaveForm(k: Chain, x: Tasks, c: CallId, i: nat)
    requires OnTasks(k, k.s.tasks) && At(k, Leaving) && IsRunner(k, i) && k.instances[i] in k.s.tasks
    requires x == k.s.tasks[k.instances[i] := k.s.tasks[k.instances[i]].(latch := 0, phase := Returned(c))]
    requires OthersSteady(k, x, k.s.tasks, k.instances[i])
    ensures OnTasks(k.(body := Outside), x)
  {
    LeaveOnTasks(k, x, k.s.tasks, i);
  }

  lemma OnTasksOnly(k: Chain, s: State, tasks: Tasks)
    requires OnTasks(k, tasks)
    ensures OnTasks(k.(s := s), tasks)
  {
  }

  lemma LeaveKeeps(k: Chain, c: CallId)
    requires ChainInv(k) && At(k, Leaving) && c == k.body.caller && CanReturn(k.s, c)
    ensures OnTasks(k.(s := Return(k.s, c), body := Outside), Return(k.s, c).tasks)
  {
    var i := RunnerCalled(k);
    ReturnSteady(k, c, k.instances[i]);
    var x := Return(k.s, c).tasks;
    LeaveForm(k, x, c, i);
    OnTasksOnly(k.(body := Outside), Return(k.s, c), x);
  }

  lemma LaunchKeeps(k: Chain, tasks: Tasks, t: TaskId)
    requires OnTasks(k, tasks) && |k.instances| == 1 && k.body.Outside? && t == k.instances[0] && tasks[t].phase.Created?
    ensures OnTasks(k, tasks[t := tasks[t].(phase := Queued)])
  {
  }

  // ----- Whole runs

  lemma OwnStepsKeep(k: Chain, step: Step)
    requires ChainInv(k) && Possible(k, step) && (step.Make? || step.Link? || step.Raise? || step.Assign?)
    ensures OnTasks(Do(k, step), Do(k, step).s.tasks)
  {
    match step
    case Make(slot) => MakeKeeps(k, slot);
    case Link =>
      HandleLeads(k);
      var n, t := k.body.pc.n, k.instances[|k.instances| - 1];
      LinkKeeps(k, n, t);
      OnTasksOnly(In(k, Linked(n)), AddAdjacency(k.s, t, n), AddAdjacency(k.s, t, n).tasks);
    case Raise =>
      var e := (TaskExecutor.At(k.s, k.handle), 0);
      RaiseKeeps(k, k.body.pc.n, e);
      OnTasksOnly(In(k, Raised(k.body.pc.n)), AddLatch(k.s, e), AddLatch(k.s, e).tasks);
    case Assign => AssignKeeps(k, k.s.tasks, k.body.pc.n, RefOf(k.s, k.body.pc.n));
  }

  lemma StepKeepsChain(k: Chain, step: Step)
    requires ChainInv(k) && Possible(k, step)
    ensures OnTasks(Do(k, step), Do(k, step).s.tasks)
  {
    match step
    case Other(a) => OtherKeeps(k, a);
    case Launch => LaunchKeeps(k, k.s.tasks, k.instances[0]);
    case Enter(c) =>
      var i: nat :| i < |k.instances| && k.s.calls[c].ref.task == k.instances[i];
      EnterKeeps(k, c, i);
    case Check => CheckKeeps(k, k.s.tasks);
    case Work => WorkKeeps(k, k.s.tasks);
    case Leave => LeaveKeeps(k, k.body.caller);
    case Shutdown => ShutdownKeeps(k, k.s.tasks);
    case _ => OwnStepsKeep(k, step);
  }

  /** What the step is for the executor. */
  ghost function AsAction(k: Chain, step: Step): seq<Action>
    requires Possible(k, step)
  {
    match step
    case Other(a) => [a]
    case Launch => [Submits(k.instances[0])]
    case Enter(c) => [Begins(c)]
    case Make(slot) => [Creates(slot)]
    case Link => [AddsAdjacency(TaskExecutor.At(k.s, k.handle), k.body.pc.n)]
    case Raise => [AddsLatch((TaskExecutor.At(k.s, k.handle), 0))]
    case Leave => [Returns(k.body.caller)]
    case _ => []
  }

  /** Every step of the chain is one of the executor's and its clients', or none. */
  lemma StepIsAction(k: Chain, step: Step)
    requires Possible(k, step)
    ensures var a := AsAction(k, step);
            if a == [] then Do(k, step).s == k.s else Enabled(k.s, a[0]) && Do(k, step).s == Apply(k.s, a[0])
  {
  }

  lemma ChainStep(k: Chain, step: Step)
    requires ChainInv(k) && Possible(k, step)
    ensures ChainInv(Do(k, step))
  {
    StepKeepsChain(k, step);
    StepIsAction(k, step);
    if AsAction(k, step) != [] { StepKeeps(k.s, AsAction(k, step)[0]); }
  }

  ghost predicate IsRun(k: Chain, run: seq<Step>)
    decreases |run|
  {
    run == [] || (Possible(k, run[0]) && IsRun(Do(k, run[0]), run[1..]))
  }

  ghost function After(k: Chain, run: seq<Step>): Chain
    requires IsRun(k, run)
    decreases |run|
  {
    if run == [] then k else After(Do(k, run[0]), run[1..])
  }

  lemma {:induction false} ChainRun(k: Chain, run: seq<Step>)
    requires ChainInv(k) && IsRun(k, run)
    ensures ChainInv(After(k, run))
    decreases |run|
  {
    if run != [] {
      ChainStep(k, run[0]);
      ChainRun(Do(k, run[0]), run[1..]);
    }
  }

  /** The client's constructor: the first instance has been created and put into the global handle. */
  ghost predicate Starts(k: Chain) {
    && Inv(k.s) && |k.instances| == 1 && Fresh(k.s.tasks, k.instances[0])
    && RefOK(k.s.tasks, k.handle) && k.handle.task == k.instances[0]
    && !k.status.Done? && k.body.Outside?
  }

  lemma StartsKeeps(k: Chain)
    requires Starts(k)
    ensures ChainInv(k)
  {
  }

  lemma OverlapOnTasks(k: Chain, tasks: Tasks, i: nat, j: nat)
    requires OnTasks(k, tasks) && i < j < |k.instances| && tasks[k.instances[j]].runs > 0
    ensures !Unfinished(tasks[k.instances[i]].phase)
  {
  }

  /** Two instances never overlap: when one has been invoked, the bodies of all before it have returned. */
  lemma NeverOverlap(k: Chain, run: seq<Step>, e: Chain, i: nat, j: nat)
    requires Starts(k) && IsRun(k, run) && e == After(k, run)
    requires i < j < |e.instances| && e.instances[j] in e.s.tasks && e.s.tasks[e.instances[j]].runs > 0
    ensures e.instances[i] in e.s.tasks && !Unfinished(e.s.tasks[e.instances[i]].phase)
  {
    StartsKeeps(k);
    ChainRun(k, run);
    OverlapOnTasks(e, e.s.tasks, i, j);
  }

  lemma HandleOnTasks(k: Chain, tasks: Tasks)
    requires OnTasks(k, tasks)
    ensures k.body.Inside? && !k.body.pc.Leaving? ==> Active(tasks, k.handle.task, k.body.caller)
    ensures !k.status.Done? && (k.body.Outside? || k.body.pc.Leaving?) ==> Fresh(tasks, k.handle.task)
  {
  }

  /** Until the chain is done the global handle names the running instance or, once that has put its successor
      there, the next one. */
  lemma HandleNames(k: Chain, run: seq<Step>, e: Chain)
    requires Starts(k) && IsRun(k, run) && e == After(k, run)
    ensures e.body.Inside? && !e.body.pc.Leaving? ==> Active(e.s.tasks, e.handle.task, e.body.caller)
    ensures !e.status.Done? && (e.body.Outside? || e.body.pc.Leaving?) ==> Fresh(e.s.tasks, e.handle.task)
  {
    StartsKeeps(k);
    ChainRun(k, run);
    HandleOnTasks(e, e.s.tasks);
  }

  lemma DoneOnTasks(k: Chain, tasks: Tasks, i: nat)
    requires OnTasks(k, tasks) && k.status.Done? && i < |k.instances|
    ensures k.body.Outside? || k.body.pc.Leaving?
    ensures Unfinished(tasks[k.instances[i]].phase) ==> k.body.Inside? && tasks[k.instances[i]].phase == Called(k.body.caller)
  {
  }

  lemma DoneStep(k: Chain, step: Step)
    requires ChainInv(k) && Possible(k, step) && k.status.Done?
    ensures Do(k, step).status.Done? && Do(k, step).works == k.works
  {
    DoneOnTasks(k, k.s.tasks, 0);
  }

  /** Once the task state is Done no instance is queued or waiting, and the application's Tick or Draw is never called
      again. */
  lemma {:induction false} DoneForever(k: Chain, run: seq<Step>)
    requires ChainInv(k) && IsRun(k, run) && k.status.Done?
    ensures After(k, run).status.Done? && After(k, run).works == k.works
    ensures forall i | 0 <= i < |After(k, run).instances| && After(k, run).instances[i] in After(k, run).s.tasks ::
              Unfinished(After(k, run).s.tasks[After(k, run).instances[i]].phase) ==>
                After(k, run).s.tasks[After(k, run).instances[i]].phase.Called?
    decreases |run|
  {
    if run == [] {
      forall i | 0 <= i < |k.instances| ensures Unfinished(k.s.tasks[k.instances[i]].phase) ==> k.s.tasks[k.instances[i]].phase.Called? {
        DoneOnTasks(k, k.s.tasks, i);
      }
    } else {
      ChainStep(k, run[0]);
      DoneStep(k, run[0]);
      DoneForever(Do(k, run[0]), run[1..]);
    }
  }

  // ----- The chain asks nothing of the executor that it may not ask

  /** Nobody's successor yet, and not submitted. */
  ghost predicate Apart(tasks: Tasks, n: TaskId) { n in tasks && tasks[n].phase.Created? && forall p :: !HasEdge(tasks, p, n) }

  ghost predicate NewApart(k: Chain) { k.body.Inside? && k.body.pc.Made? ==> Apart(k.s.tasks, k.body.pc.n) }

  lemma ApartUpdate(tasks: Tasks, t: TaskId, x: Task, n: TaskId)
    requires Apart(tasks, n) && t in tasks && t != n && x.adj == tasks[t].adj
    ensures Apart(tasks[t := x], n)
  {
    var after := tasks[t := x];
    forall p ensures !HasEdge(after, p, n) {
      assert !HasEdge(tasks, p, n);
    }
  }

  lemma NewIsApart(tasks: Tasks, adding: set<Edge>, n: TaskId, x: Task)
    requires DeliveredInv(tasks, adding) && n !in tasks && x.adj == [] && x.phase.Created?
    ensures Apart(tasks[n := x], n)
  {
    var after := tasks[n := x];
    forall p ensures !HasEdge(after, p, n) {
      if p in tasks {
        assert forall i | 0 <= i < |tasks[p].adj| :: tasks[p].adj[i].task in tasks;
      }
    }
  }

  lemma ApartDespiteNew(tasks: Tasks, m: TaskId, x: Task, n: TaskId)
    requires Apart(tasks, n) && m !in tasks && x.adj == []
    ensures Apart(tasks[m := x], n)
  {
    var after := tasks[m := x];
    forall p ensures !HasEdge(after, p, n) {
      assert !HasEdge(tasks, p, n);
    }
  }

  lemma ApartDespiteEdge(tasks: Tasks, a: TaskId, r: Ref, n: TaskId)
    requires Apart(tasks, n) && a in tasks && a != n && r.task != n
    ensures Apart(tasks[a := tasks[a].(adj := tasks[a].adj + [r])], n)
  {
    var x := tasks[a := tasks[a].(adj := tasks[a].adj + [r])];
    forall p ensures !HasEdge(x, p, n) {
      assert !HasEdge(tasks, p, n);
      if p == a {
        forall i | 0 <= i < |x[a].adj| ensures x[a].adj[i].task != n {
          assert i < |tasks[a].adj| ==> x[a].adj[i] == tasks[a].adj[i];
        }
      }
    }
  }

  lemma AddKeepsApart(s: State, e: Edge, n: TaskId)
    requires Inv(s) && CanAddLatch(s, e) && Apart(s.tasks, n)
    ensures Apart(AddLatch(s, e).tasks, n)
  {
    AddLatchTarget(s, e);
    var b := s.tasks[e.0].adj[e.1].task;
    assert HasEdge(s.tasks, e.0, b);
    ApartUpdate(s.tasks, b, s.tasks[b].(latch := s.tasks[b].latch + 1), n);
  }

  lemma ClientKeepsApart(s: State, a: Action, n: TaskId)
    requires Inv(s) && Enabled(s, a) && !ByExecutor(a) && Apart(s.tasks, n) && !Touches(s, a, n)
    ensures Apart(Apply(s, a).tasks, n)
  {
    match a
    case Creates(slot) => ApartDespiteNew(s.tasks, NewTask(s), Task(slot, 1, [], 0, 0, Created), n);
    case AddsAdjacency(x, y) => ApartDespiteEdge(s.tasks, x, RefOf(s, y), n);
    case AddsLatch(e) => AddKeepsApart(s, e, n);
    case Submits(t) => ApartUpdate(s.tasks, t, s.tasks[t].(phase := Queued), n);
    case CallsDirectly(c, t) => ApartUpdate(s.tasks, t, s.tasks[t].(phase := Called(c)), n);
  }

  lemma BodyKeepsApart(s: State, c: CallId, n: TaskId)
    requires Inv(s) && Apart(s.tasks, n)
    ensures CanBegin(s, c) ==> Apart(Begin(s, c).tasks, n)
    ensures CanReturn(s, c) ==> Apart(Return(s, c).tasks, n)
  {
    if CanBegin(s, c) {
      CalledTask(s, c);
      BeginForm(s, c, s.calls[c].ref);
      var t := s.calls[c].ref.task;
      ApartUpdate(s.tasks, t, s.tasks[t].(runs := 1), n);
    } else if CanReturn(s, c) {
      CalledTask(s, c);
      var t := s.calls[c].ref.task;
      ApartUpdate(s.tasks, t, s.tasks[t].(latch := 0, phase := Returned(c)), n);
    }
  }

  lemma NotifyKeepsApart(s: State, c: CallId, n: TaskId)
    requires Inv(s) && CanNotify(s, c) && Apart(s.tasks, n)
    ensures Apart(Notify(s, c).tasks, n)
  {
    NotifiedTask(s, c);
    var t := s.calls[c].ref.task;
    NotifyForm(s, c, t);
    var tasks1, b := TaskExecutor.Passed(s.tasks, t), Next(s.tasks, t);
    assert HasEdge(s.tasks, t, b);
    ApartUpdate(s.tasks, t, tasks1[t], n);
    ApartUpdate(tasks1, b, Lowered(s.tasks[b], c), n);
  }

  lemma DequeueKeepsApart(s: State, c: CallId, r: Ref, n: TaskId)
    requires Inv(s) && CanDequeue(s, c, r) && Apart(s.tasks, n)
    ensures Apart(Dequeue(s, c, r).tasks, n)
  {
    QueuedTask(s.ready, s.tasks, r);
    ApartUpdate(s.tasks, r.task, s.tasks[r.task].(phase := Called(c)), n);
  }

  lemma EnqueueKeepsApart(s: State, c: CallId, n: TaskId)
    requires Inv(s) && CanEnqueue(s, c) && Apart(s.tasks, n)
    ensures Apart(Enqueue(s, c).tasks, n)
  {
    EnqueuedTask(s.calls, s.tasks, c);
    var r := s.calls[c].pc.target;
    EnqueueForm(s, c, r, s.calls[c].pc.i);
    ApartUpdate(s.tasks, r.task, s.tasks[r.task].(phase := Queued), n);
  }

  lemma RetireKeepsApart(s: State, c: CallId, n: TaskId)
    requires Inv(s) && CanRetire(s, c) && Apart(s.tasks, n)
    ensures Apart(Retire(s, c).tasks, n)
  {
    assert CallOK(c, s.calls[c], s.tasks);
    NeverStale(s, s.calls[c].ref);
    var t := s.calls[c].ref.task;
    ApartUpdate(s.tasks, t, s.tasks[t].(phase := Retired), n);
  }

  lemma TryDeleteKeepsApart(s: State, r: Ref, n: TaskId)
    requires Inv(s) && r in s.purging && Apart(s.tasks, n)
    ensures Apart(TryDelete(s, r).tasks, n)
  {
    PurgedTask(s, r);
    ApartUpdate(s.tasks, r.task, s.tasks[r.task].(phase := Freed), n);
  }

  lemma KeepsApart(s: State, a: Action, n: TaskId)
    requires Inv(s) && Enabled(s, a) && Apart(s.tasks, n) && !Touches(s, a, n)
    ensures Apart(Apply(s, a).tasks, n)
  {
    if !ByExecutor(a) {
      ClientKeepsApart(s, a, n);
    } else {
      match a
      case Dequeues(c, r) => DequeueKeepsApart(s, c, r, n);
      case Begins(c) => BodyKeepsApart(s, c, n);
      case Returns(c) => BodyKeepsApart(s, c, n);
      case Notifies(c) => NotifyKeepsApart(s, c, n);
      case Enqueues(c) => EnqueueKeepsApart(s, c, n);
      case Retires(c) => RetireKeepsApart(s, c, n);
      case Takes(r) =>
      case TriesDelete(r) => TryDeleteKeepsApart(s, r, n);
      case Retains(r) =>
    }
  }

  lemma StepKeepsApart(k: Chain, step: Step)
    requires ChainInv(k) && AllDelivered(k.s) && NewApart(k) && Possible(k, step)
    ensures NewApart(Do(k, step))
  {
    match step
    case Other(a) =>
      if k.body.Inside? && k.body.pc.Made? {
        assert Own(k, k.body.pc.n);
        KeepsApart(k.s, a, k.body.pc.n);
      }
    case Make(slot) => NewIsApart(k.s.tasks, k.s.adding, NewTask(k.s), Task(slot, 1, [], 0, 0, Created));
    case Enter(c) =>
      var i: nat :| i < |k.instances| && k.s.calls[c].ref.task == k.instances[i];
      EnteredAlone(k, c, i);
    case _ =>
  }

  lemma {:induction false} ApartRun(k: Chain, run: seq<Step>)
    requires ChainInv(k) && AllDelivered(k.s) && NewApart(k) && IsRun(k, run)
    ensures ChainInv(After(k, run)) && NewApart(After(k, run))
    decreases |run|
  {
    if run != [] {
      ChainStep(k, run[0]);
      StepKeepsApart(k, run[0]);
      StepIsAction(k, run[0]);
      if AsAction(k, run[0]) != [] { StepKeepsDelivered(k.s, AsAction(k, run[0])[0]); }
      ApartRun(Do(k, run[0]), run[1..]);
    }
  }

  lemma LinkOnTasksAllowed(k: Chain, n: TaskId)
    requires ChainInv(k) && NewApart(k) && k.body.Inside? && k.body.pc == Made(n)
    ensures Possible(k, Link)
  {
    HandleLeads(k);
  }

  /** In every run, when an instance has created its successor the executor allows the dependency that it adds: the
      instance has not finished, has room for it, and nothing else leads to the successor. */
  lemma LinkAllowed(k: Chain, run: seq<Step>, e: Chain, n: TaskId)
    requires Starts(k) && AllDelivered(k.s) && IsRun(k, run) && e == After(k, run)
    requires e.body.Inside? && e.body.pc == Made(n)
    ensures Possible(e, Link)
  {
    StartsKeeps(k);
    ApartRun(k, run);
    LinkOnTasksAllowed(e, n);
  }
}
