/** The task scheduler of src/core/taskexecutor.* and src/core/task.*: tasks live in reusable pool slots, a
    latch counts what a task still waits for, and any number of threads call, notify and delete tasks.

    One step is one atomic access, queue operation or pool operation of the source.  Queues are bags.  Calls of
    InternalCall are independent of each other (a task may call or join others from inside its callable). */
module TaskExecutor {
  import Pool = MemoryPool

  const POOL_SIZE := 1024
  const MAX_ADJACENCIES := 127
  const LATCH_SIZE := 0x1_0000

  type Slot = nat
  type TaskId = nat
  type CallId = nat
  type Edge = (TaskId, nat)

  /** A stored handle.  The code only ever uses its slot; task records which task it was stored for. */
  datatype Ref = Ref(slot: Slot, task: TaskId)

  /** Where a task is in its life; only used to state what the code achieves. */
  datatype Phase =
    | Created
    | Released(caller: CallId) // its latch reached 1 in a call that has yet to enqueue it
    | Queued
    | Called(caller: CallId)
    | Returned(caller: CallId) // the callable has returned, latch 0
    | Retired              // in the deletion queue
    | Freed

  datatype Task = Task(slot: Slot, latch: nat, adj: seq<Ref>, notified: nat, runs: nat, phase: Phase)

  /** Where a call of InternalCall is. */
  datatype Pc =
    | Entered
    | Invoking
    | Notifying(i: nat)
    | Enqueueing(i: nat, target: Ref)

  datatype Call = Call(ref: Ref, pc: Pc)

  datatype State = State(
    free: set<Slot>,
    slots: map<Slot, TaskId>,
    tasks: map<TaskId, Task>,
    adding: set<Edge>,         // AddDependency has stored the adjacency, not yet raised the latch
    ready: multiset<Ref>,
    calls: map<CallId, Call>,
    deletion: multiset<Ref>,
    purging: multiset<Ref>,    // taken from the deletion queue by some thread
    retained: multiset<Ref>,   // the nextDeletionQueue vectors
    trapped: bool)             // some ENSURE failed

  function RefOf(s: State, t: TaskId): Ref
    requires t in s.tasks
  {
    Ref(s.tasks[t].slot, t)
  }

  /** The task a handle leads to: whatever its slot holds now. */
  predicate Resolves(s: State, r: Ref) { r.slot in s.slots && s.slots[r.slot] in s.tasks }

  function At(s: State, r: Ref): TaskId
    requires Resolves(s, r)
  {
    s.slots[r.slot]
  }

  predicate Unfinished(p: Phase) { p.Created? || p.Released? || p.Queued? || p.Called? }

  predicate HasEdge(tasks: map<TaskId, Task>, a: TaskId, b: TaskId) {
    a in tasks && exists i | 0 <= i < |tasks[a].adj| :: tasks[a].adj[i].task == b
  }

  /** No call of AddDependency that involves task t is in progress. */
  predicate Settled(s: State, t: TaskId) {
    forall e | e in s.adding && e.0 in s.tasks && e.1 < |s.tasks[e.0].adj| ::
      e.0 != t && s.tasks[e.0].adj[e.1].task != t && !HasEdge(s.tasks, t, s.tasks[e.0].adj[e.1].task)
  }

  function Trap(s: State): State { s.(trapped := true) }

  function SetTask(s: State, t: TaskId, task: Task): State { s.(tasks := s.tasks[t := task]) }

  function SetCall(s: State, c: CallId, call: Call): State { s.(calls := s.calls[c := call]) }

  function NewTask(s: State): TaskId { |s.tasks| }

  // ----- The steps of a client.  Their guards are what the source asks of its callers: an edge into b is added,
  // completely, before b is submitted and before any predecessor of b finishes; a task is submitted once, when it
  // waits for nothing.

  predicate CanCreate(s: State, slot: Slot) { Pool.IsLeast(slot, s.free) }

  /** CreateTask: a fresh latch of 1 in the slot the pool hands out. */
  function Create(s: State, slot: Slot): State
    requires CanCreate(s, slot)
  {
    SetTask(s, NewTask(s), Task(slot, 1, [], 0, 0, Created)).(free := s.free - {slot}, slots := s.slots[slot := NewTask(s)])
  }

  predicate CanAddAdjacency(s: State, a: TaskId, b: TaskId) {
    && a in s.tasks && b in s.tasks && a != b
    && Unfinished(s.tasks[a].phase) && s.tasks[b].phase.Created?
    && |s.tasks[a].adj| < MAX_ADJACENCIES
    && forall p | p in s.tasks && HasEdge(s.tasks, p, b) :: Unfinished(s.tasks[p].phase)
  }

  /** The first half of AddDependency. */
  function AddAdjacency(s: State, a: TaskId, b: TaskId): State
    requires CanAddAdjacency(s, a, b)
  {
    SetTask(s, a, s.tasks[a].(adj := s.tasks[a].adj + [RefOf(s, b)])).(adding := s.adding + {(a, |s.tasks[a].adj|)})
  }

  predicate CanAddLatch(s: State, e: Edge) {
    && e in s.adding && e.0 in s.tasks && e.1 < |s.tasks[e.0].adj|
    && Resolves(s, s.tasks[e.0].adj[e.1])
    && s.tasks[At(s, s.tasks[e.0].adj[e.1])].latch + 1 < LATCH_SIZE
  }

  /** The second half of AddDependency. */
  function AddLatch(s: State, e: Edge): State
    requires CanAddLatch(s, e)
  {
    var b := At(s, s.tasks[e.0].adj[e.1]);
    SetTask(s, b, s.tasks[b].(latch := (s.tasks[b].latch + 1) % LATCH_SIZE)).(adding := s.adding - {e})
  }

  predicate CanSubmit(s: State, t: TaskId) {
    t in s.tasks && s.tasks[t].phase.Created? && s.tasks[t].latch == 1 && Settled(s, t)
  }

  function Submit(s: State, t: TaskId): State
    requires CanSubmit(s, t)
  {
    SetTask(s, t, s.tasks[t].(phase := Queued)).(ready := s.ready + multiset{RefOf(s, t)})
  }

  function CallDirectly(s: State, c: CallId, t: TaskId): State
    requires CanSubmit(s, t) && c !in s.calls
  {
    SetCall(SetTask(s, t, s.tasks[t].(phase := Called(c))), c, Call(RefOf(s, t), Entered))
  }

  // ----- The steps of the executor

  predicate CanDequeue(s: State, c: CallId, r: Ref) { c !in s.calls && r in s.ready }

  function Dequeue(s: State, c: CallId, r: Ref): State
    requires CanDequeue(s, c, r)
  {
    var s1 := SetCall(s, c, Call(r, Entered)).(ready := s.ready - multiset{r});
    if r.task in s.tasks then SetTask(s1, r.task, s.tasks[r.task].(phase := Called(c))) else s1
  }

  predicate At1(s: State, r: Ref) { Resolves(s, r) && s.tasks[At(s, r)].latch == 1 }

  predicate CanBegin(s: State, c: CallId) { c in s.calls && s.calls[c].pc.Entered? }

  /** InternalCall checks that the latch is 1 and invokes the callable. */
  function Begin(s: State, c: CallId): State
    requires CanBegin(s, c)
  {
    var r := s.calls[c].ref;
    if !At1(s, r) then Trap(s)
    else SetCall(SetTask(s, At(s, r), s.tasks[At(s, r)].(runs := s.tasks[At(s, r)].runs + 1)), c, Call(r, Invoking))
  }

  predicate CanReturn(s: State, c: CallId) {
    c in s.calls && s.calls[c].pc.Invoking? && (Resolves(s, s.calls[c].ref) ==> Settled(s, At(s, s.calls[c].ref)))
  }

  /** InternalInvoke lowers the latch after the callable, and checks that it is 0 then. */
  function Return(s: State, c: CallId): State
    requires CanReturn(s, c)
  {
    var r := s.calls[c].ref;
    if !At1(s, r) then Trap(s)
    else SetCall(SetTask(s, At(s, r), s.tasks[At(s, r)].(latch := 0, phase := Returned(c))), c, Call(r, Notifying(0)))
  }

  predicate CanNotify(s: State, c: CallId) {
    c in s.calls && s.calls[c].pc.Notifying? && Resolves(s, s.calls[c].ref)
    && s.calls[c].pc.i < |s.tasks[At(s, s.calls[c].ref)].adj|
  }

  /** One turn of the loop in InternalScheduleAdjacent, up to the decision to submit. */
  function Notify(s: State, c: CallId): State
    requires CanNotify(s, c)
  {
    var t, i := At(s, s.calls[c].ref), s.calls[c].pc.i;
    var r := s.tasks[t].adj[i];
    if !Resolves(s, r) || s.tasks[At(s, r)].latch == 0 then Trap(s)
    else
      var s1 := SetTask(s, t, s.tasks[t].(notified := i + 1));
      NotifyTarget(s1, c, At(s, r), Call(s.calls[c].ref, Enqueueing(i, r)), Call(s.calls[c].ref, Notifying(i + 1)))
  }

  function NotifyTarget(s: State, c: CallId, b: TaskId, enqueue: Call, next: Call): State
    requires b in s.tasks && s.tasks[b].latch > 0
  {
    if s.tasks[b].latch - 1 == 1
    then SetCall(SetTask(s, b, s.tasks[b].(latch := 1, phase := Released(c))), c, enqueue)
    else SetCall(SetTask(s, b, s.tasks[b].(latch := s.tasks[b].latch - 1)), c, next)
  }

  predicate CanEnqueue(s: State, c: CallId) { c in s.calls && s.calls[c].pc.Enqueueing? }

  function Enqueue(s: State, c: CallId): State
    requires CanEnqueue(s, c)
  {
    var r, i := s.calls[c].pc.target, s.calls[c].pc.i;
    var s1 := SetCall(s, c, Call(s.calls[c].ref, Notifying(i + 1))).(ready := s.ready + multiset{r});
    if r.task in s.tasks then SetTask(s1, r.task, s.tasks[r.task].(phase := Queued)) else s1
  }

  predicate CanRetire(s: State, c: CallId) {
    c in s.calls && s.calls[c].pc.Notifying? && Resolves(s, s.calls[c].ref)
    && s.calls[c].pc.i >= |s.tasks[At(s, s.calls[c].ref)].adj|
  }

  function Retire(s: State, c: CallId): State
    requires CanRetire(s, c)
  {
    var r := s.calls[c].ref;
    SetTask(s, At(s, r), s.tasks[At(s, r)].(phase := Retired)).(deletion := s.deletion + multiset{r}, calls := s.calls - {c})
  }

  function Take(s: State, r: Ref): State
    requires r in s.deletion
  {
    s.(deletion := s.deletion - multiset{r}, purging := s.purging + multiset{r})
  }

  /** InternalTryDelete: frees the slot if the latch is 0, else keeps the handle for later. */
  function TryDelete(s: State, r: Ref): State
    requires r in s.purging
  {
    if !Resolves(s, r) then Trap(s)
    else
      var t, s1 := At(s, r), s.(purging := s.purging - multiset{r});
      if s.tasks[t].latch == 0
      then SetTask(s1, t, s.tasks[t].(phase := Freed)).(slots := s.slots - {r.slot}, free := s.free + {r.slot})
      else s1.(retained := s.retained + multiset{r})
  }

  function Retain(s: State, r: Ref): State
    requires r in s.retained
  {
    s.(retained := s.retained - multiset{r}, deletion := s.deletion + multiset{r})
  }

  // ----- What every run keeps

  type Tasks = map<TaskId, Task>

  predicate RefOK(tasks: Tasks, r: Ref) { r.task in tasks && r.slot == tasks[r.task].slot }

  /** Free and occupied slots partition the pool; every task that is not freed has its slot to itself. */
  ghost predicate PoolInv(free: set<Slot>, slots: map<Slot, TaskId>, tasks: Tasks) {
    && (forall x :: x in free <==> 0 <= x < POOL_SIZE && x !in slots)
    && (forall x | x in slots :: x < POOL_SIZE && slots[x] in tasks && tasks[slots[x]].slot == x && !tasks[slots[x]].phase.Freed?)
    && (forall t | t in tasks && !tasks[t].phase.Freed? :: tasks[t].slot in slots && slots[tasks[t].slot] == t)
    && (forall t :: t in tasks <==> 0 <= t < |tasks|)
  }

  /** A bag holds the handle of every task in the given phase once, and nothing else. */
  ghost predicate BagInv(bag: multiset<Ref>, tasks: Tasks, p: Phase) {
    && (forall r | r in bag :: RefOK(tasks, r))
    && (forall t | t in tasks :: bag[Ref(tasks[t].slot, t)] == if tasks[t].phase == p then 1 else 0)
  }

  ghost predicate CallOK(c: CallId, call: Call, tasks: Tasks) {
    && RefOK(tasks, call.ref)
    && var task := tasks[call.ref.task];
       match call.pc
       case Entered => task.phase == Called(c) && task.runs == 0
       case Invoking => task.phase == Called(c) && task.runs == 1
       case Notifying(i) => task.phase == Returned(c) && task.notified == i
       case Enqueueing(i, target) =>
         task.phase == Returned(c) && task.notified == i + 1
         && RefOK(tasks, target) && tasks[target.task].phase == Released(c)
  }

  ghost predicate PhaseHasCall(t: TaskId, p: Phase, calls: map<CallId, Call>) {
    match p
    case Released(c) => c in calls && calls[c].pc.Enqueueing? && calls[c].pc.target.task == t
    case Called(c) => c in calls && calls[c].ref.task == t
    case Returned(c) => c in calls && calls[c].ref.task == t
    case _ => true
  }

  /** Every call works on a task of its own, and every task that is being worked on has its call. */
  ghost predicate CallInv(calls: map<CallId, Call>, tasks: Tasks) {
    && (forall c | c in calls :: CallOK(c, calls[c], tasks))
    && (forall t | t in tasks :: PhaseHasCall(t, tasks[t].phase, calls))
  }

  predicate TaskOK(task: Task) {
    && |task.adj| <= MAX_ADJACENCIES
    && task.notified <= |task.adj|
    && (Unfinished(task.phase) ==> task.notified == 0)
    && (!Unfinished(task.phase) ==> task.latch == 0 && task.runs == 1)
    && (task.phase.Retired? || task.phase.Freed? ==> task.notified == |task.adj|)
    && (task.phase.Created? || task.phase.Released? || task.phase.Queued? ==> task.runs == 0)
  }

  predicate TaskInv(tasks: Tasks) { forall t | t in tasks :: TaskOK(tasks[t]) }

  /** The edges into t that have raised its latch and not been notified yet. */
  function Counted(tasks: Tasks, adding: set<Edge>, t: TaskId): set<Edge> {
    set a, i | a in tasks && tasks[a].notified <= i < |tasks[a].adj| && tasks[a].adj[i].task == t && (a, i) !in adding :: (a, i)
  }

  /** The latch of a task that has not finished is one plus its outstanding edges; once released it has none. */
  ghost predicate LatchOK(t: TaskId, tasks: Tasks, adding: set<Edge>)
    requires t in tasks
  {
    Unfinished(tasks[t].phase) ==>
      && tasks[t].latch == 1 + |Counted(tasks, adding, t)| < LATCH_SIZE
      && (!tasks[t].phase.Created? ==> Counted(tasks, adding, t) == {})
  }

  ghost predicate LatchInv(tasks: Tasks, adding: set<Edge>) { forall t | t in tasks :: LatchOK(t, tasks, adding) }

  /** An edge still to be notified leads to a task that waits for it. */
  predicate EdgeOK(tasks: Tasks, a: TaskId, i: nat)
    requires a in tasks && i < |tasks[a].adj|
  {
    var r := tasks[a].adj[i];
    RefOK(tasks, r) && r.task != a && tasks[r.task].phase.Created?
  }

  ghost predicate EdgeInv(tasks: Tasks) {
    forall a, i | a in tasks && tasks[a].notified <= i < |tasks[a].adj| :: EdgeOK(tasks, a, i)
  }

  /** No predecessor of a task finishes while an edge into it is being added. */
  ghost predicate AddingInv(tasks: Tasks, adding: set<Edge>) {
    && (forall e | e in adding :: e.0 in tasks && e.1 < |tasks[e.0].adj| && Unfinished(tasks[e.0].phase))
    && (forall e, p | e in adding && p in tasks && HasEdge(tasks, p, tasks[e.0].adj[e.1].task) :: Unfinished(tasks[p].phase))
  }

  ghost predicate Inv(s: State) {
    && !s.trapped && s.retained == multiset{}
    && PoolInv(s.free, s.slots, s.tasks)
    && BagInv(s.ready, s.tasks, Queued) && BagInv(s.deletion + s.purging, s.tasks, Retired)
    && CallInv(s.calls, s.tasks)
    && TaskInv(s.tasks) && LatchInv(s.tasks, s.adding) && EdgeInv(s.tasks) && AddingInv(s.tasks, s.adding)
  }

  /** Whenever a handle of a task that is not freed is followed, its slot still holds that task. */
  lemma NeverStale(s: State, r: Ref)
    requires PoolInv(s.free, s.slots, s.tasks) && RefOK(s.tasks, r) && !s.tasks[r.task].phase.Freed?
    ensures Resolves(s, r) && At(s, r) == r.task
  {
  }

  // ----- What does not concern an invariant leaves it alone

  lemma PoolFrame(free: set<Slot>, slots: map<Slot, TaskId>, tasks: Tasks, t: TaskId, x: Task)
    requires PoolInv(free, slots, tasks) && t in tasks
    requires x.slot == tasks[t].slot && !x.phase.Freed? && !tasks[t].phase.Freed?
    ensures PoolInv(free, slots, tasks[t := x])
  {
    assert tasks[t := x].Keys == tasks.Keys;
    assert |tasks[t := x]| == |tasks[t := x].Keys|;
  }

  lemma BagFrame(bag: multiset<Ref>, tasks: Tasks, p: Phase, t: TaskId, x: Task)
    requires BagInv(bag, tasks, p) && t in tasks
    requires x.slot == tasks[t].slot && x.phase != p && tasks[t].phase != p
    ensures BagInv(bag, tasks[t := x], p)
  {
  }

  lemma BagKeeps(bag: multiset<Ref>, tasks: Tasks, p: Phase, t: TaskId, x: Task)
    requires BagInv(bag, tasks, p) && t in tasks
    requires x.slot == tasks[t].slot && x.phase == tasks[t].phase
    ensures BagInv(bag, tasks[t := x], p)
  {
  }

  lemma BagAdds(bag: multiset<Ref>, tasks: Tasks, p: Phase, r: Ref, x: Task)
    requires BagInv(bag, tasks, p) && r.task in tasks && r.slot == x.slot
    requires x.slot == tasks[r.task].slot && x.phase == p && tasks[r.task].phase != p
    ensures BagInv(bag + multiset{r}, tasks[r.task := x], p)
  {
  }

  lemma BagRemoves(bag: multiset<Ref>, tasks: Tasks, p: Phase, r: Ref, x: Task)
    requires BagInv(bag, tasks, p) && r.task in tasks && r.slot == x.slot
    requires x.slot == tasks[r.task].slot && x.phase != p && tasks[r.task].phase == p
    ensures BagInv(bag - multiset{r}, tasks[r.task := x], p)
  {
  }

  lemma TaskFrame(tasks: Tasks, t: TaskId, x: Task)
    requires TaskInv(tasks) && TaskOK(x)
    ensures TaskInv(tasks[t := x])
  {
  }

  lemma CountedFrame(tasks: Tasks, adding: set<Edge>, t: TaskId, x: Task, u: TaskId)
    requires t in tasks && x.adj == tasks[t].adj && x.notified == tasks[t].notified
    ensures Counted(tasks[t := x], adding, u) == Counted(tasks, adding, u)
  {
  }

  lemma LatchFrame(tasks: Tasks, adding: set<Edge>, t: TaskId, x: Task)
    requires LatchInv(tasks, adding) && t in tasks && x.adj == tasks[t].adj && x.notified == tasks[t].notified
    requires Unfinished(x.phase) ==>
               x.latch == 1 + |Counted(tasks, adding, t)| < LATCH_SIZE && (x.phase.Created? || Counted(tasks, adding, t) == {})
    ensures LatchInv(tasks[t := x], adding)
  {
    var tasks' := tasks[t := x];
    forall u | u in tasks' ensures LatchOK(u, tasks', adding) {
      CountedFrame(tasks, adding, t, x, u);
      assert LatchOK(u, tasks, adding);
    }
  }

  /** An outstanding edge into t, counted or still being added. */
  predicate Awaits(tasks: Tasks, a: TaskId, i: nat, t: TaskId) {
    a in tasks && tasks[a].notified <= i < |tasks[a].adj| && tasks[a].adj[i].task == t
  }

  lemma EdgeFrame(tasks: Tasks, t: TaskId, x: Task)
    requires EdgeInv(tasks) && t in tasks && x.adj == tasks[t].adj && x.notified == tasks[t].notified && x.slot == tasks[t].slot
    requires x.phase.Created? || forall a: TaskId, i: nat :: !Awaits(tasks, a, i, t)
    ensures EdgeInv(tasks[t := x])
  {
    var tasks' := tasks[t := x];
    forall a, i | a in tasks' && tasks'[a].notified <= i < |tasks'[a].adj| ensures EdgeOK(tasks', a, i) {
      assert EdgeOK(tasks, a, i);
      assert Awaits(tasks, a, i, tasks[a].adj[i].task);
    }
  }

  lemma AddingFrame(tasks: Tasks, adding: set<Edge>, t: TaskId, x: Task)
    requires AddingInv(tasks, adding) && t in tasks && x.adj == tasks[t].adj
    requires Unfinished(x.phase) == Unfinished(tasks[t].phase)
    ensures AddingInv(tasks[t := x], adding)
  {
    var tasks' := tasks[t := x];
    forall e, p | e in adding && p in tasks' && HasEdge(tasks', p, tasks'[e.0].adj[e.1].task) ensures Unfinished(tasks'[p].phase) {
      assert HasEdge(tasks, p, tasks[e.0].adj[e.1].task);
    }
  }

  // ----- The calls

  predicate NoCall(p: Phase) { p.Created? || p.Queued? || p.Retired? || p.Freed? }

  lemma CallFrame(calls: map<CallId, Call>, tasks: Tasks, t: TaskId, x: Task)
    requires CallInv(calls, tasks) && t in tasks && x.slot == tasks[t].slot
    requires (NoCall(x.phase) && NoCall(tasks[t].phase))
             || (x.phase == tasks[t].phase && x.runs == tasks[t].runs && x.notified == tasks[t].notified)
    ensures CallInv(calls, tasks[t := x])
  {
    forall c | c in calls ensures CallOK(c, calls[c], tasks[t := x]) {
      assert CallOK(c, calls[c], tasks);
    }
  }

  lemma CallEnters(calls: map<CallId, Call>, tasks: Tasks, c: CallId, t: TaskId, x: Task)
    requires CallInv(calls, tasks) && t in tasks && x.slot == tasks[t].slot && c !in calls
    requires NoCall(tasks[t].phase) && x.phase == Called(c) && x.runs == 0
    ensures CallInv(calls[c := Call(Ref(x.slot, t), Entered)], tasks[t := x])
  {
    forall d | d in calls ensures CallOK(d, calls[d], tasks[t := x]) {
      assert CallOK(d, calls[d], tasks);
    }
    forall u | u in tasks && u != t ensures PhaseHasCall(u, tasks[u].phase, calls[c := Call(Ref(x.slot, t), Entered)]) {
      assert PhaseHasCall(u, tasks[u].phase, calls);
    }
  }

  /** A call moves on together with its own task. */
  lemma CallAdvances(calls: map<CallId, Call>, tasks: Tasks, c: CallId, x: Task, pc: Pc)
    requires CallInv(calls, tasks) && c in calls && !calls[c].pc.Enqueueing? && !pc.Enqueueing?
    requires var t := calls[c].ref.task;
             t in tasks && x.slot == tasks[t].slot
             && match pc
                case Entered => x.phase == Called(c) && x.runs == 0
                case Invoking => x.phase == Called(c) && x.runs == 1
                case Notifying(i) => x.phase == Returned(c) && x.notified == i
                case Enqueueing(_, _) => false
    ensures CallInv(calls[c := Call(calls[c].ref, pc)], tasks[calls[c].ref.task := x])
  {
    var t := calls[c].ref.task;
    var calls', tasks' := calls[c := Call(calls[c].ref, pc)], tasks[t := x];
    assert CallOK(c, calls[c], tasks);
    forall d | d in calls && d != c ensures CallOK(d, calls[d], tasks') {
      assert CallOK(d, calls[d], tasks);
    }
    forall u | u in tasks && u != t ensures PhaseHasCall(u, tasks[u].phase, calls') {
      assert PhaseHasCall(u, tasks[u].phase, calls);
    }
  }

  /** A call has lowered a latch to 1 and is about to enqueue the task it released. */
  lemma CallReleases(calls: map<CallId, Call>, tasks: Tasks, c: CallId, x: Task, i: nat, r: Ref, y: Task)
    requires CallInv(calls, tasks) && c in calls && calls[c].pc.Notifying? && RefOK(tasks, r)
    requires var t := calls[c].ref.task;
             t in tasks && r.task != t && x == tasks[t].(notified := i + 1)
             && tasks[r.task].phase.Created? && y.slot == r.slot && y.phase == Released(c)
    ensures CallInv(calls[c := Call(calls[c].ref, Enqueueing(i, r))], tasks[calls[c].ref.task := x][r.task := y])
  {
    var t := calls[c].ref.task;
    var calls', tasks' := calls[c := Call(calls[c].ref, Enqueueing(i, r))], tasks[t := x][r.task := y];
    assert CallOK(c, calls[c], tasks);
    forall d | d in calls && d != c ensures CallOK(d, calls[d], tasks') {
      assert CallOK(d, calls[d], tasks);
    }
    forall u | u in tasks && u != t && u != r.task ensures PhaseHasCall(u, tasks[u].phase, calls') {
      assert PhaseHasCall(u, tasks[u].phase, calls);
    }
  }

  lemma CallEnqueues(calls: map<CallId, Call>, tasks: Tasks, c: CallId, r: Ref, call: Call, y: Task)
    requires CallInv(calls, tasks) && c in calls && calls[c].pc.Enqueueing? && r == calls[c].pc.target
    requires call.ref == calls[c].ref && call.pc.Notifying? && call.pc.i == calls[c].pc.i + 1
    requires r.task in tasks && y == tasks[r.task].(phase := Queued)
    ensures CallInv(calls[c := call], tasks[r.task := y])
  {
    var calls', tasks' := calls[c := call], tasks[r.task := y];
    assert CallOK(c, calls[c], tasks);
    forall d | d in calls && d != c ensures CallOK(d, calls[d], tasks') {
      assert CallOK(d, calls[d], tasks);
    }
    forall u | u in tasks && u != r.task ensures PhaseHasCall(u, tasks[u].phase, calls') {
      assert PhaseHasCall(u, tasks[u].phase, calls);
    }
  }

  lemma CallRetires(calls: map<CallId, Call>, tasks: Tasks, c: CallId)
    requires CallInv(calls, tasks) && c in calls && calls[c].pc.Notifying? && calls[c].ref.task in tasks
    ensures CallInv(calls - {c}, tasks[calls[c].ref.task := tasks[calls[c].ref.task].(phase := Retired)])
  {
    var t := calls[c].ref.task;
    var calls', tasks' := calls - {c}, tasks[t := tasks[t].(phase := Retired)];
    assert CallOK(c, calls[c], tasks);
    forall d | d in calls' ensures CallOK(d, calls'[d], tasks') {
      assert CallOK(d, calls[d], tasks);
    }
    forall u | u in tasks && u != t ensures PhaseHasCall(u, tasks[u].phase, calls') {
      assert PhaseHasCall(u, tasks[u].phase, calls);
    }
  }

  // ----- The latches

  lemma NothingAwaits(tasks: Tasks, adding: set<Edge>, t: TaskId)
    requires EdgeInv(tasks) && Counted(tasks, adding, t) == {}
    requires forall e | e in adding && e.0 in tasks && e.1 < |tasks[e.0].adj| :: tasks[e.0].adj[e.1].task != t
    ensures forall a: TaskId, i: nat :: !Awaits(tasks, a, i, t)
  {
    forall a: TaskId, i: nat ensures !Awaits(tasks, a, i, t) {
      var e := (a, i);
      assert Awaits(tasks, a, i, t) ==> e in Counted(tasks, adding, t) || e in adding;
    }
  }

  lemma AdjacencyCounts(tasks: Tasks, adding: set<Edge>, a: TaskId, r: Ref, u: TaskId)
    requires a in tasks && tasks[a].notified <= |tasks[a].adj|
    requires forall e | e in adding && e.0 == a :: e.1 < |tasks[a].adj|
    ensures var x := tasks[a].(adj := tasks[a].adj + [r]);
            Counted(tasks[a := x], adding + {(a, |tasks[a].adj|)}, u) == Counted(tasks, adding, u)
  {
  }

  lemma LatchCounts(tasks: Tasks, adding: set<Edge>, e: Edge, u: TaskId)
    requires e in adding && e.0 in tasks && tasks[e.0].notified <= e.1 < |tasks[e.0].adj|
    ensures Counted(tasks, adding - {e}, u) ==
            if tasks[e.0].adj[e.1].task == u then Counted(tasks, adding, u) + {e} else Counted(tasks, adding, u)
    ensures e !in Counted(tasks, adding, u)
  {
  }

  lemma NotifyCounts(tasks: Tasks, adding: set<Edge>, t: TaskId, u: TaskId)
    requires t in tasks && tasks[t].notified < |tasks[t].adj| && (t, tasks[t].notified) !in adding
    ensures var i := tasks[t].notified;
            var counted' := Counted(tasks[t := tasks[t].(notified := i + 1)], adding, u);
            if tasks[t].adj[i].task == u
            then (t, i) in Counted(tasks, adding, u) && counted' == Counted(tasks, adding, u) - {(t, i)}
            else counted' == Counted(tasks, adding, u)
  {
    var i := tasks[t].notified;
    var tasks' := tasks[t := tasks[t].(notified := i + 1)];
    assert (t, i) in Counted(tasks, adding, u) <==> tasks[t].adj[i].task == u;
  }

  // ----- Every step keeps the invariant

  lemma NewTaskPool(free: set<Slot>, slots: map<Slot, TaskId>, tasks: Tasks, x: Task)
    requires PoolInv(free, slots, tasks) && x.slot in free && !x.phase.Freed?
    ensures |tasks| !in tasks
    ensures PoolInv(free - {x.slot}, slots[x.slot := |tasks|], tasks[|tasks| := x])
  {
    OneMore(tasks, x);
    var tasks', slots' := tasks[|tasks| := x], slots[x.slot := |tasks|];
    forall t | t in tasks' && !tasks'[t].phase.Freed? ensures tasks'[t].slot in slots' && slots'[tasks'[t].slot] == t {
    }
  }

  lemma OneMore(tasks: Tasks, x: Task)
    requires forall t :: t in tasks <==> 0 <= t < |tasks|
    ensures |tasks[|tasks| := x]| == |tasks| + 1
  {
    assert tasks[|tasks| := x].Keys == tasks.Keys + {|tasks|};
    assert |tasks[|tasks| := x]| == |tasks[|tasks| := x].Keys|;
  }

  lemma NewTaskLatches(tasks: Tasks, adding: set<Edge>, n: TaskId, x: Task)
    requires LatchInv(tasks, adding) && EdgeInv(tasks) && n !in tasks && x.adj == [] && x.latch == 1 && x.phase.Created?
    ensures LatchInv(tasks[n := x], adding) && EdgeInv(tasks[n := x])
  {
    var tasks' := tasks[n := x];
    forall u | u in tasks' ensures LatchOK(u, tasks', adding) {
      assert Counted(tasks', adding, u) == Counted(tasks, adding, u);
      if u == n {
        assert forall e | e in Counted(tasks, adding, n) :: EdgeOK(tasks, e.0, e.1);
        assert Counted(tasks, adding, n) == {};
      } else {
        assert LatchOK(u, tasks, adding);
      }
    }
    forall a, i | a in tasks' && tasks'[a].notified <= i < |tasks'[a].adj| ensures EdgeOK(tasks', a, i) {
      assert EdgeOK(tasks, a, i);
    }
  }

  lemma NewTaskAdding(tasks: Tasks, adding: set<Edge>, n: TaskId, x: Task)
    requires AddingInv(tasks, adding) && n !in tasks && x.adj == []
    ensures AddingInv(tasks[n := x], adding)
  {
    var tasks' := tasks[n := x];
    forall e, p | e in adding && p in tasks' && HasEdge(tasks', p, tasks'[e.0].adj[e.1].task) ensures Unfinished(tasks'[p].phase) {
      assert HasEdge(tasks, p, tasks[e.0].adj[e.1].task);
    }
  }

  lemma NewTaskQueues(bag: multiset<Ref>, calls: map<CallId, Call>, tasks: Tasks, p: Phase, n: TaskId, x: Task)
    requires n !in tasks && x.phase.Created? && !p.Created?
    ensures BagInv(bag, tasks, p) ==> BagInv(bag, tasks[n := x], p)
    ensures CallInv(calls, tasks) ==> CallInv(calls, tasks[n := x])
  {
    if CallInv(calls, tasks) {
      forall c | c in calls ensures CallOK(c, calls[c], tasks[n := x]) {
        assert CallOK(c, calls[c], tasks);
      }
    }
  }

  lemma CreateKeeps(s: State, slot: Slot)
    requires Inv(s) && CanCreate(s, slot)
    ensures Inv(Create(s, slot))
  {
    var n, x := NewTask(s), Task(slot, 1, [], 0, 0, Created);
    NewTaskPool(s.free, s.slots, s.tasks, x);
    NewTaskLatches(s.tasks, s.adding, n, x);
    NewTaskAdding(s.tasks, s.adding, n, x);
    NewTaskQueues(s.ready, s.calls, s.tasks, Queued, n, x);
    NewTaskQueues(s.deletion + s.purging, s.calls, s.tasks, Retired, n, x);
    TaskFrame(s.tasks, n, x);
  }

  lemma SubmitFrames(s: State, t: TaskId, p: Phase)
    requires Inv(s) && CanSubmit(s, t) && Unfinished(p) && !p.Created?
    ensures var x := s.tasks[t].(phase := p); var tasks' := s.tasks[t := x];
            PoolInv(s.free, s.slots, tasks') && TaskOK(s.tasks[t])
            && LatchInv(tasks', s.adding) && EdgeInv(tasks') && AddingInv(tasks', s.adding)
  {
    var x := s.tasks[t].(phase := p);
    assert LatchOK(t, s.tasks, s.adding);
    PoolFrame(s.free, s.slots, s.tasks, t, x);
    LatchFrame(s.tasks, s.adding, t, x);
    NothingAwaits(s.tasks, s.adding, t);
    EdgeFrame(s.tasks, t, x);
    AddingFrame(s.tasks, s.adding, t, x);
  }

  lemma SubmitKeeps(s: State, t: TaskId)
    requires Inv(s) && CanSubmit(s, t)
    ensures Inv(Submit(s, t))
  {
    var x := s.tasks[t].(phase := Queued);
    SubmitFrames(s, t, Queued);
    BagAdds(s.ready, s.tasks, Queued, RefOf(s, t), x);
    BagFrame(s.deletion + s.purging, s.tasks, Retired, t, x);
    CallFrame(s.calls, s.tasks, t, x);
    TaskFrame(s.tasks, t, x);
  }

  lemma CallDirectlyKeeps(s: State, c: CallId, t: TaskId)
    requires Inv(s) && CanSubmit(s, t) && c !in s.calls
    ensures Inv(CallDirectly(s, c, t))
  {
    var x := s.tasks[t].(phase := Called(c));
    SubmitFrames(s, t, Called(c));
    BagFrame(s.ready, s.tasks, Queued, t, x);
    BagFrame(s.deletion + s.purging, s.tasks, Retired, t, x);
    CallEnters(s.calls, s.tasks, c, t, x);
    TaskFrame(s.tasks, t, x);
  }

  lemma AdjacencyEdges(tasks: Tasks, adding: set<Edge>, a: TaskId, b: TaskId)
    requires LatchInv(tasks, adding) && EdgeInv(tasks) && AddingInv(tasks, adding)
    requires a in tasks && b in tasks && a != b && tasks[b].phase.Created? && tasks[a].notified <= |tasks[a].adj|
    ensures var x := tasks[a].(adj := tasks[a].adj + [Ref(tasks[b].slot, b)]);
            LatchInv(tasks[a := x], adding + {(a, |tasks[a].adj|)}) && EdgeInv(tasks[a := x])
  {
    var r := Ref(tasks[b].slot, b);
    var tasks', adding' := tasks[a := tasks[a].(adj := tasks[a].adj + [r])], adding + {(a, |tasks[a].adj|)};
    forall u | u in tasks' ensures LatchOK(u, tasks', adding') {
      AdjacencyCounts(tasks, adding, a, r, u);
      assert LatchOK(u, tasks, adding);
    }
    forall p, i | p in tasks' && tasks'[p].notified <= i < |tasks'[p].adj| ensures EdgeOK(tasks', p, i) {
      assert i < |tasks[p].adj| ==> EdgeOK(tasks, p, i);
    }
  }

  lemma AdjacencyAdding(s: State, a: TaskId, b: TaskId)
    requires AddingInv(s.tasks, s.adding) && CanAddAdjacency(s, a, b)
    ensures AddingInv(AddAdjacency(s, a, b).tasks, AddAdjacency(s, a, b).adding)
  {
    var s' := AddAdjacency(s, a, b);
    forall e, p | e in s'.adding && p in s'.tasks && HasEdge(s'.tasks, p, s'.tasks[e.0].adj[e.1].task)
      ensures Unfinished(s'.tasks[p].phase)
    {
      assert p != a ==> HasEdge(s.tasks, p, s'.tasks[e.0].adj[e.1].task);
    }
  }

  lemma AddAdjacencyKeeps(s: State, a: TaskId, b: TaskId)
    requires Inv(s) && CanAddAdjacency(s, a, b)
    ensures Inv(AddAdjacency(s, a, b))
  {
    var x := s.tasks[a].(adj := s.tasks[a].adj + [RefOf(s, b)]);
    PoolFrame(s.free, s.slots, s.tasks, a, x);
    BagKeeps(s.ready, s.tasks, Queued, a, x);
    BagKeeps(s.deletion + s.purging, s.tasks, Retired, a, x);
    CallFrame(s.calls, s.tasks, a, x);
    TaskFrame(s.tasks, a, x);
    AdjacencyEdges(s.tasks, s.adding, a, b);
    AdjacencyAdding(s, a, b);
  }

  lemma LatchRises(tasks: Tasks, adding: set<Edge>, e: Edge, b: TaskId)
    requires LatchInv(tasks, adding) && AddingInv(tasks, adding) && EdgeInv(tasks)
    requires e in adding && e.0 in tasks && tasks[e.0].notified <= e.1 < |tasks[e.0].adj| && b == tasks[e.0].adj[e.1].task
    requires b in tasks && tasks[b].latch + 1 < LATCH_SIZE
    ensures var x := tasks[b].(latch := tasks[b].latch + 1); LatchInv(tasks[b := x], adding - {e})
  {
    var x := tasks[b].(latch := tasks[b].latch + 1);
    var tasks', adding' := tasks[b := x], adding - {e};
    assert EdgeOK(tasks, e.0, e.1);
    forall u | u in tasks' ensures LatchOK(u, tasks', adding') {
      LatchCounts(tasks, adding, e, u);
      CountedFrame(tasks, adding', b, x, u);
      assert LatchOK(u, tasks, adding);
    }
  }

  /** The task that an edge still being added leads to. */
  lemma AddingTarget(tasks: Tasks, adding: set<Edge>, e: Edge)
    requires TaskInv(tasks) && EdgeInv(tasks) && AddingInv(tasks, adding) && e in adding
    ensures e.0 in tasks && tasks[e.0].notified <= e.1 < |tasks[e.0].adj|
    ensures RefOK(tasks, tasks[e.0].adj[e.1]) && tasks[tasks[e.0].adj[e.1].task].phase.Created?
  {
    assert TaskOK(tasks[e.0]) && EdgeOK(tasks, e.0, e.1);
  }

  lemma AddLatchForm(s: State, e: Edge, b: TaskId)
    requires CanAddLatch(s, e) && At(s, s.tasks[e.0].adj[e.1]) == b
    ensures b in s.tasks && s.tasks[b].latch + 1 < LATCH_SIZE
    ensures AddLatch(s, e) == s.(tasks := s.tasks[b := s.tasks[b].(latch := s.tasks[b].latch + 1)], adding := s.adding - {e})
  {
  }

  lemma AddLatchTarget(s: State, e: Edge)
    requires Inv(s) && CanAddLatch(s, e)
    ensures var b := s.tasks[e.0].adj[e.1].task;
            s.tasks[e.0].notified <= e.1 && b in s.tasks && s.tasks[b].phase.Created? && s.tasks[b].latch + 1 < LATCH_SIZE
            && AddLatch(s, e) == s.(tasks := s.tasks[b := s.tasks[b].(latch := s.tasks[b].latch + 1)], adding := s.adding - {e})
  {
    AddingTarget(s.tasks, s.adding, e);
    NeverStale(s, s.tasks[e.0].adj[e.1]);
    AddLatchForm(s, e, s.tasks[e.0].adj[e.1].task);
  }

  /** What concerns the raised task alone. */
  lemma RaisedFrames(s: State, b: TaskId, x: Task)
    requires PoolInv(s.free, s.slots, s.tasks) && CallInv(s.calls, s.tasks) && TaskInv(s.tasks)
    requires BagInv(s.ready, s.tasks, Queued) && BagInv(s.deletion + s.purging, s.tasks, Retired)
    requires b in s.tasks && s.tasks[b].phase.Created? && x == s.tasks[b].(latch := x.latch)
    ensures var tasks' := s.tasks[b := x];
            PoolInv(s.free, s.slots, tasks') && CallInv(s.calls, tasks') && TaskInv(tasks')
            && BagInv(s.ready, tasks', Queued) && BagInv(s.deletion + s.purging, tasks', Retired)
  {
    PoolFrame(s.free, s.slots, s.tasks, b, x);
    BagKeeps(s.ready, s.tasks, Queued, b, x);
    BagKeeps(s.deletion + s.purging, s.tasks, Retired, b, x);
    CallFrame(s.calls, s.tasks, b, x);
    assert TaskOK(s.tasks[b]);
    TaskFrame(s.tasks, b, x);
  }

  /** What concerns the edges. */
  lemma RaisedEdges(tasks: Tasks, adding: set<Edge>, e: Edge, b: TaskId, x: Task)
    requires LatchInv(tasks, adding) && AddingInv(tasks, adding) && EdgeInv(tasks)
    requires e in adding && e.0 in tasks && tasks[e.0].notified <= e.1 < |tasks[e.0].adj| && b == tasks[e.0].adj[e.1].task
    requires b in tasks && tasks[b].phase.Created? && tasks[b].latch + 1 < LATCH_SIZE && x == tasks[b].(latch := tasks[b].latch + 1)
    ensures LatchInv(tasks[b := x], adding - {e}) && EdgeInv(tasks[b := x]) && AddingInv(tasks[b := x], adding - {e})
  {
    LatchRises(tasks, adding, e, b);
    EdgeFrame(tasks, b, x);
    AddingFrame(tasks, adding, b, x);
    AddingShrinks(tasks[b := x], adding, e);
  }

  lemma RaisedKeeps(s: State, e: Edge, b: TaskId, x: Task)
    requires Inv(s) && e in s.adding && e.0 in s.tasks && s.tasks[e.0].notified <= e.1 < |s.tasks[e.0].adj|
    requires b == s.tasks[e.0].adj[e.1].task && b in s.tasks && s.tasks[b].phase.Created?
    requires s.tasks[b].latch + 1 < LATCH_SIZE && x == s.tasks[b].(latch := s.tasks[b].latch + 1)
    ensures Inv(s.(tasks := s.tasks[b := x], adding := s.adding - {e}))
  {
    RaisedFrames(s, b, x);
    RaisedEdges(s.tasks, s.adding, e, b, x);
  }

  lemma AddLatchKeeps(s: State, e: Edge)
    requires Inv(s) && CanAddLatch(s, e)
    ensures Inv(AddLatch(s, e))
  {
    AddLatchTarget(s, e);
    var b := s.tasks[e.0].adj[e.1].task;
    RaisedKeeps(s, e, b, s.tasks[b].(latch := s.tasks[b].latch + 1));
  }

  lemma AddingShrinks(tasks: Tasks, adding: set<Edge>, e: Edge)
    requires AddingInv(tasks, adding)
    ensures AddingInv(tasks, adding - {e})
  {
  }

  /** A task that is released but not finished may change anything but what its latch and its edges depend on. */
  lemma WorkFrames(s: State, t: TaskId, x: Task)
    requires Inv(s) && t in s.tasks && Unfinished(s.tasks[t].phase) && !s.tasks[t].phase.Created?
    requires x == s.tasks[t].(runs := x.runs, phase := x.phase) && Unfinished(x.phase) && !x.phase.Created? && TaskOK(x)
    ensures var tasks' := s.tasks[t := x];
            PoolInv(s.free, s.slots, tasks') && TaskInv(tasks')
            && LatchInv(tasks', s.adding) && EdgeInv(tasks') && AddingInv(tasks', s.adding)
            && BagInv(s.deletion + s.purging, tasks', Retired)
  {
    assert LatchOK(t, s.tasks, s.adding);
    PoolFrame(s.free, s.slots, s.tasks, t, x);
    TaskFrame(s.tasks, t, x);
    LatchFrame(s.tasks, s.adding, t, x);
    NotCreatedNotAwaited(s.tasks, t);
    EdgeFrame(s.tasks, t, x);
    AddingFrame(s.tasks, s.adding, t, x);
    BagFrame(s.deletion + s.purging, s.tasks, Retired, t, x);
  }

  lemma DequeueKeeps(s: State, c: CallId, r: Ref)
    requires Inv(s) && CanDequeue(s, c, r)
    ensures Inv(Dequeue(s, c, r))
  {
    var t := r.task;
    assert s.tasks[t].phase == Queued && r == Ref(s.tasks[t].slot, t);
    var x := s.tasks[t].(phase := Called(c));
    assert TaskOK(s.tasks[t]);
    WorkFrames(s, t, x);
    BagRemoves(s.ready, s.tasks, Queued, r, x);
    CallEnters(s.calls, s.tasks, c, t, x);
  }

  lemma NotCreatedNotAwaited(tasks: Tasks, t: TaskId)
    requires EdgeInv(tasks) && t in tasks && !tasks[t].phase.Created?
    ensures forall a: TaskId, i: nat :: !Awaits(tasks, a, i, t)
  {
    forall a: TaskId, i: nat ensures !Awaits(tasks, a, i, t) {
      assert Awaits(tasks, a, i, t) ==> EdgeOK(tasks, a, i);
    }
  }

  /** What InternalCall checks before it invokes a callable, and InternalInvoke after it: the handle leads to the
      task it was stored for, whose latch is 1. */
  lemma CalledTask(s: State, c: CallId)
    requires Inv(s) && c in s.calls && (s.calls[c].pc.Entered? || s.calls[c].pc.Invoking?)
    ensures At1(s, s.calls[c].ref) && At(s, s.calls[c].ref) == s.calls[c].ref.task
    ensures RefOK(s.tasks, s.calls[c].ref) && s.tasks[s.calls[c].ref.task].phase == Called(c)
    ensures s.tasks[s.calls[c].ref.task].runs == if s.calls[c].pc.Invoking? then 1 else 0
  {
    assert CallOK(c, s.calls[c], s.tasks);
    assert LatchOK(s.calls[c].ref.task, s.tasks, s.adding);
    NeverStale(s, s.calls[c].ref);
  }

  lemma BeginForm(s: State, c: CallId, r: Ref)
    requires CanBegin(s, c) && r == s.calls[c].ref && At1(s, r) && At(s, r) == r.task && s.tasks[r.task].runs == 0
    ensures Begin(s, c) == s.(tasks := s.tasks[r.task := s.tasks[r.task].(runs := 1)], calls := s.calls[c := Call(r, Invoking)])
  {
  }

  lemma BeginKeeps(s: State, c: CallId)
    requires Inv(s) && CanBegin(s, c)
    ensures Inv(Begin(s, c))
  {
    CalledTask(s, c);
    BeginForm(s, c, s.calls[c].ref);
    var t := s.calls[c].ref.task;
    var x := s.tasks[t].(runs := 1);
    assert TaskOK(s.tasks[t]);
    WorkFrames(s, t, x);
    BagFrame(s.ready, s.tasks, Queued, t, x);
    CallAdvances(s.calls, s.tasks, c, x, Invoking);
  }

  lemma FinishedAdding(s: State, t: TaskId, x: Task)
    requires AddingInv(s.tasks, s.adding) && t in s.tasks && Settled(s, t) && x.adj == s.tasks[t].adj
    ensures AddingInv(s.tasks[t := x], s.adding)
  {
    var tasks' := s.tasks[t := x];
    forall e, p | e in s.adding && p in tasks' && HasEdge(tasks', p, tasks'[e.0].adj[e.1].task) ensures Unfinished(tasks'[p].phase) {
      assert HasEdge(s.tasks, p, s.tasks[e.0].adj[e.1].task);
    }
  }

  lemma ReturnKeeps(s: State, c: CallId)
    requires Inv(s) && CanReturn(s, c)
    ensures Inv(Return(s, c))
  {
    CalledTask(s, c);
    var t := s.calls[c].ref.task;
    var x := s.tasks[t].(latch := 0, phase := Returned(c));
    assert TaskOK(s.tasks[t]);
    PoolFrame(s.free, s.slots, s.tasks, t, x);
    BagFrame(s.ready, s.tasks, Queued, t, x);
    BagFrame(s.deletion + s.purging, s.tasks, Retired, t, x);
    CallAdvances(s.calls, s.tasks, c, x, Notifying(0));
    TaskFrame(s.tasks, t, x);
    LatchFrame(s.tasks, s.adding, t, x);
    NotCreatedNotAwaited(s.tasks, t);
    EdgeFrame(s.tasks, t, x);
    FinishedAdding(s, t, x);
  }

  /** The notified task: its latch lowered, and released when that makes it 1. */
  function Lowered(b: Task, c: CallId): Task
    requires b.latch > 0
  {
    if b.latch == 2 then b.(latch := 1, phase := Released(c)) else b.(latch := b.latch - 1)
  }

  /** t is going through its adjacencies, and the next one waits for it. */
  predicate Notifies(tasks: Tasks, t: TaskId) {
    t in tasks && !Unfinished(tasks[t].phase) && !tasks[t].phase.Freed? && tasks[t].notified < |tasks[t].adj| &&
    var r := tasks[t].adj[tasks[t].notified];
    RefOK(tasks, r) && r.task != t && tasks[r.task].phase.Created? && 2 <= tasks[r.task].latch < LATCH_SIZE
  }

  function Next(tasks: Tasks, t: TaskId): TaskId
    requires Notifies(tasks, t)
  {
    tasks[t].adj[tasks[t].notified].task
  }

  function Passed(tasks: Tasks, t: TaskId): Tasks
    requires Notifies(tasks, t)
  {
    tasks[t := tasks[t].(notified := tasks[t].notified + 1)]
  }

  /** Both tasks changed: t is past the edge, its target's latch is lowered. */
  function Notified(tasks: Tasks, t: TaskId, c: CallId): Tasks
    requires Notifies(tasks, t)
  {
    Passed(tasks, t)[Next(tasks, t) := Lowered(tasks[Next(tasks, t)], c)]
  }

  /** The loop in InternalScheduleAdjacent finds, at its index, the task the edge was added for, still waiting. */
  lemma NotifiedTask(s: State, c: CallId)
    requires Inv(s) && CanNotify(s, c)
    ensures var t, i := s.calls[c].ref.task, s.calls[c].pc.i;
            && At(s, s.calls[c].ref) == t && s.tasks[t].phase == Returned(c) && s.tasks[t].notified == i
            && Notifies(s.tasks, t)
            && Resolves(s, s.tasks[t].adj[i]) && At(s, s.tasks[t].adj[i]) == Next(s.tasks, t)
  {
    assert CallOK(c, s.calls[c], s.tasks);
    NeverStale(s, s.calls[c].ref);
    var t, i := s.calls[c].ref.task, s.calls[c].pc.i;
    var r := s.tasks[t].adj[i];
    assert EdgeOK(s.tasks, t, i) && LatchOK(r.task, s.tasks, s.adding);
    NeverStale(s, r);
    assert (t, i) in Counted(s.tasks, s.adding, r.task);
  }

  lemma NotifiedLatches(tasks: Tasks, adding: set<Edge>, t: TaskId, c: CallId)
    requires LatchInv(tasks, adding) && AddingInv(tasks, adding) && Notifies(tasks, t)
    ensures LatchInv(Notified(tasks, t, c), adding)
    ensures tasks[Next(tasks, t)].latch == 2 ==> Counted(Passed(tasks, t), adding, Next(tasks, t)) == {}
  {
    var b, tasks1 := Next(tasks, t), Passed(tasks, t);
    var y := Lowered(tasks[b], c);
    assert (t, tasks[t].notified) !in adding;
    forall u | u in tasks ensures LatchOK(u, Notified(tasks, t, c), adding) {
      NotifyCounts(tasks, adding, t, u);
      CountedFrame(tasks1, adding, b, y, u);
      assert LatchOK(u, tasks, adding);
    }
    NotifyCounts(tasks, adding, t, b);
    assert LatchOK(b, tasks, adding);
  }

  lemma NotifiedEdges(tasks: Tasks, adding: set<Edge>, t: TaskId, c: CallId)
    requires EdgeInv(tasks) && AddingInv(tasks, adding) && Notifies(tasks, t)
    requires tasks[Next(tasks, t)].latch == 2 ==> Counted(Passed(tasks, t), adding, Next(tasks, t)) == {}
    ensures EdgeInv(Notified(tasks, t, c)) && AddingInv(Notified(tasks, t, c), adding)
  {
    var b, tasks1 := Next(tasks, t), Passed(tasks, t);
    forall a, j | a in tasks1 && tasks1[a].notified <= j < |tasks1[a].adj| ensures EdgeOK(tasks1, a, j) {
      assert EdgeOK(tasks, a, j);
    }
    AddingFrame(tasks, adding, t, tasks1[t]);
    AddingFrame(tasks1, adding, b, Lowered(tasks[b], c));
    assert HasEdge(tasks, t, b);
    if tasks[b].latch == 2 {
      NothingAwaits(tasks1, adding, b);
    }
    EdgeFrame(tasks1, b, Lowered(tasks[b], c));
  }

  lemma NotifiedRest(s: State, t: TaskId, c: CallId)
    requires PoolInv(s.free, s.slots, s.tasks) && TaskInv(s.tasks)
    requires BagInv(s.ready, s.tasks, Queued) && BagInv(s.deletion + s.purging, s.tasks, Retired)
    requires Notifies(s.tasks, t) && s.tasks[t].phase.Returned?
    ensures var tasks' := Notified(s.tasks, t, c);
            PoolInv(s.free, s.slots, tasks') && TaskInv(tasks')
            && BagInv(s.ready, tasks', Queued) && BagInv(s.deletion + s.purging, tasks', Retired)
  {
    var b, tasks1 := Next(s.tasks, t), Passed(s.tasks, t);
    var x, y := tasks1[t], Lowered(s.tasks[b], c);
    assert TaskOK(s.tasks[t]) && TaskOK(s.tasks[b]);
    PoolFrame(s.free, s.slots, s.tasks, t, x);
    PoolFrame(s.free, s.slots, tasks1, b, y);
    BagFrame(s.ready, s.tasks, Queued, t, x);
    BagFrame(s.ready, tasks1, Queued, b, y);
    BagFrame(s.deletion + s.purging, s.tasks, Retired, t, x);
    BagFrame(s.deletion + s.purging, tasks1, Retired, b, y);
    TaskFrame(s.tasks, t, x);
    TaskFrame(tasks1, b, y);
  }

  function NotifiedCall(call: Call, tasks: Tasks): Call
    requires call.pc.Notifying? && Notifies(tasks, call.ref.task)
  {
    var i := call.pc.i;
    Call(call.ref, if tasks[Next(tasks, call.ref.task)].latch == 2 then Enqueueing(i, tasks[call.ref.task].adj[tasks[call.ref.task].notified])
                   else Notifying(i + 1))
  }

  lemma NotifiedCalls(calls: map<CallId, Call>, tasks: Tasks, c: CallId)
    requires CallInv(calls, tasks) && c in calls && calls[c].pc.Notifying? && Notifies(tasks, calls[c].ref.task)
    ensures CallInv(calls[c := NotifiedCall(calls[c], tasks)], Notified(tasks, calls[c].ref.task, c))
  {
    assert CallOK(c, calls[c], tasks);
    var t, i := calls[c].ref.task, calls[c].pc.i;
    var b := Next(tasks, t);
    var x, y := tasks[t].(notified := i + 1), Lowered(tasks[b], c);
    if tasks[b].latch == 2 {
      CallReleases(calls, tasks, c, x, i, tasks[t].adj[i], y);
    } else {
      CallAdvances(calls, tasks, c, x, Notifying(i + 1));
      CallFrame(calls[c := Call(calls[c].ref, Notifying(i + 1))], tasks[t := x], b, y);
    }
  }

  lemma NotifyForm(s: State, c: CallId, t: TaskId)
    requires CanNotify(s, c) && At(s, s.calls[c].ref) == t == s.calls[c].ref.task
    requires Notifies(s.tasks, t) && s.tasks[t].notified == s.calls[c].pc.i
    requires Resolves(s, s.tasks[t].adj[s.calls[c].pc.i]) && At(s, s.tasks[t].adj[s.calls[c].pc.i]) == Next(s.tasks, t)
    ensures Notify(s, c) == s.(tasks := Notified(s.tasks, t, c), calls := s.calls[c := NotifiedCall(s.calls[c], s.tasks)])
  {
  }

  lemma NotifyKeeps(s: State, c: CallId)
    requires Inv(s) && CanNotify(s, c)
    ensures Inv(Notify(s, c))
  {
    NotifiedTask(s, c);
    var t := s.calls[c].ref.task;
    NotifyForm(s, c, t);
    NotifiedRest(s, t, c);
    NotifiedLatches(s.tasks, s.adding, t, c);
    NotifiedEdges(s.tasks, s.adding, t, c);
    NotifiedCalls(s.calls, s.tasks, c);
  }

  lemma EnqueueForm(s: State, c: CallId, r: Ref, i: nat)
    requires CanEnqueue(s, c) && r == s.calls[c].pc.target && i == s.calls[c].pc.i && r.task in s.tasks
    ensures Enqueue(s, c) == s.(
                 tasks := s.tasks[r.task := s.tasks[r.task].(phase := Queued)],
                 calls := s.calls[c := Call(s.calls[c].ref, Notifying(i + 1))],
                 ready := s.ready + multiset{r})
  {
  }

  lemma EnqueuedTask(calls: map<CallId, Call>, tasks: Tasks, c: CallId)
    requires CallInv(calls, tasks) && c in calls && calls[c].pc.Enqueueing?
    ensures RefOK(tasks, calls[c].pc.target) && tasks[calls[c].pc.target.task].phase == Released(c)
  {
    assert CallOK(c, calls[c], tasks);
  }

  lemma EnqueuedKeeps(s: State, c: CallId, r: Ref, call: Call, y: Task)
    requires Inv(s) && c in s.calls && s.calls[c].pc.Enqueueing? && r == s.calls[c].pc.target
    requires RefOK(s.tasks, r) && s.tasks[r.task].phase == Released(c) && y == s.tasks[r.task].(phase := Queued)
    requires call.ref == s.calls[c].ref && call.pc.Notifying? && call.pc.i == s.calls[c].pc.i + 1
    ensures Inv(s.(tasks := s.tasks[r.task := y], calls := s.calls[c := call], ready := s.ready + multiset{r}))
  {
    assert TaskOK(s.tasks[r.task]);
    WorkFrames(s, r.task, y);
    BagAdds(s.ready, s.tasks, Queued, r, y);
    CallEnqueues(s.calls, s.tasks, c, r, call, y);
  }

  lemma EnqueueKeeps(s: State, c: CallId)
    requires Inv(s) && CanEnqueue(s, c)
    ensures Inv(Enqueue(s, c))
  {
    EnqueuedTask(s.calls, s.tasks, c);
    var r, i := s.calls[c].pc.target, s.calls[c].pc.i;
    EnqueueForm(s, c, r, i);
    EnqueuedKeeps(s, c, r, Call(s.calls[c].ref, Notifying(i + 1)), s.tasks[r.task].(phase := Queued));
  }

  lemma RetireKeeps(s: State, c: CallId)
    requires Inv(s) && CanRetire(s, c)
    ensures Inv(Retire(s, c))
  {
    assert CallOK(c, s.calls[c], s.tasks);
    NeverStale(s, s.calls[c].ref);
    var r := s.calls[c].ref;
    var x := s.tasks[r.task].(phase := Retired);
    assert TaskOK(s.tasks[r.task]);
    PoolFrame(s.free, s.slots, s.tasks, r.task, x);
    BagFrame(s.ready, s.tasks, Queued, r.task, x);
    BagAdds(s.deletion + s.purging, s.tasks, Retired, r, x);
    assert s.deletion + multiset{r} + s.purging == s.deletion + s.purging + multiset{r};
    CallRetires(s.calls, s.tasks, c);
    TaskFrame(s.tasks, r.task, x);
    LatchFrame(s.tasks, s.adding, r.task, x);
    NotCreatedNotAwaited(s.tasks, r.task);
    EdgeFrame(s.tasks, r.task, x);
    AddingFrame(s.tasks, s.adding, r.task, x);
  }

  lemma TakeKeeps(s: State, r: Ref)
    requires Inv(s) && r in s.deletion
    ensures Inv(Take(s, r))
  {
    assert s.deletion - multiset{r} + (s.purging + multiset{r}) == s.deletion + s.purging;
  }

  /** A handle taken for deletion leads to the task it was stored for, whose latch is 0: it is never kept for later. */
  lemma PurgedTask(s: State, r: Ref)
    requires Inv(s) && r in s.purging
    ensures RefOK(s.tasks, r) && s.tasks[r.task].phase.Retired? && s.tasks[r.task].latch == 0
    ensures Resolves(s, r) && At(s, r) == r.task
    ensures (s.deletion + s.purging)[r] == 1
  {
    assert r in s.deletion + s.purging;
    assert r == Ref(s.tasks[r.task].slot, r.task);
    assert (s.deletion + s.purging)[r] > 0;
    assert TaskOK(s.tasks[r.task]);
    NeverStale(s, r);
  }

  lemma FreesSlot(free: set<Slot>, slots: map<Slot, TaskId>, tasks: Tasks, t: TaskId)
    requires PoolInv(free, slots, tasks) && t in tasks && !tasks[t].phase.Freed?
    ensures PoolInv(free + {tasks[t].slot}, slots - {tasks[t].slot}, tasks[t := tasks[t].(phase := Freed)])
  {
    var tasks' := tasks[t := tasks[t].(phase := Freed)];
    assert tasks'.Keys == tasks.Keys && |tasks'| == |tasks'.Keys|;
  }

  lemma TryDeleteKeeps(s: State, r: Ref)
    requires Inv(s) && r in s.purging
    ensures Inv(TryDelete(s, r))
  {
    PurgedTask(s, r);
    var x := s.tasks[r.task].(phase := Freed);
    assert TaskOK(s.tasks[r.task]);
    FreesSlot(s.free, s.slots, s.tasks, r.task);
    BagFrame(s.ready, s.tasks, Queued, r.task, x);
    BagRemoves(s.deletion + s.purging, s.tasks, Retired, r, x);
    assert s.deletion + (s.purging - multiset{r}) == s.deletion + s.purging - multiset{r};
    CallFrame(s.calls, s.tasks, r.task, x);
    TaskFrame(s.tasks, r.task, x);
    LatchFrame(s.tasks, s.adding, r.task, x);
    NotCreatedNotAwaited(s.tasks, r.task);
    EdgeFrame(s.tasks, r.task, x);
    AddingFrame(s.tasks, s.adding, r.task, x);
  }
}
