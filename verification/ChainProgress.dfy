/** An instance of the client's self-continuing tasks is never stuck in its body: whatever else the application does
    with the executor, the executor allows the instance's next step. */
module ChainProgress {
  import opened TaskExecutor
  import opened TaskRuns
  import opened ClientChain
  import Loops = ExecutorLoops

  // ----- What a step does to adjacencies and to the edges being added

  /** The adjacencies of task p after the action. */
  function AdjAfter(s: State, a: Action, p: TaskId): seq<Ref>
    requires Enabled(s, a) && p in s.tasks
  {
    if a.AddsAdjacency? && a.a == p then s.tasks[p].adj + [RefOf(s, a.b)] else s.tasks[p].adj
  }

  function AddingAfter(s: State, a: Action): set<Edge>
    requires Enabled(s, a)
  {
    match a
    case AddsAdjacency(x, y) => s.adding + {(x, |s.tasks[x].adj|)}
    case AddsLatch(e) => s.adding - {e}
    case _ => s.adding
  }

  lemma CreateAdj(s: State, slot: Slot, p: TaskId)
    requires Inv(s) && CanCreate(s, slot)
    ensures p in s.tasks ==> p in Create(s, slot).tasks && Create(s, slot).tasks[p].adj == s.tasks[p].adj
    ensures p !in s.tasks && p in Create(s, slot).tasks ==> Create(s, slot).tasks[p].adj == []
  {
    assert NewTask(s) !in s.tasks;
  }

  lemma AddLatchAdj(s: State, e: Edge, p: TaskId)
    requires Inv(s) && CanAddLatch(s, e)
    ensures p in s.tasks <==> p in AddLatch(s, e).tasks
    ensures p in s.tasks ==> AddLatch(s, e).tasks[p].adj == s.tasks[p].adj
  {
    AddLatchTarget(s, e);
  }

  lemma SubmitAdj(s: State, c: CallId, t: TaskId, p: TaskId)
    requires CanSubmit(s, t)
    ensures p in s.tasks <==> p in Submit(s, t).tasks
    ensures p in s.tasks ==> Submit(s, t).tasks[p].adj == s.tasks[p].adj
    ensures c !in s.calls ==> CallDirectly(s, c, t).tasks.Keys == s.tasks.Keys
    ensures c !in s.calls && p in s.tasks ==> CallDirectly(s, c, t).tasks[p].adj == s.tasks[p].adj
  {
  }

  lemma AddAdj(s: State, a: TaskId, b: TaskId, p: TaskId)
    requires CanAddAdjacency(s, a, b)
    ensures p in s.tasks <==> p in AddAdjacency(s, a, b).tasks
    ensures p in s.tasks ==>
              AddAdjacency(s, a, b).tasks[p].adj == if p == a then s.tasks[p].adj + [RefOf(s, b)] else s.tasks[p].adj
  {
  }

  lemma ClientAdj(s: State, a: Action, p: TaskId)
    requires Inv(s) && Enabled(s, a) && !ByExecutor(a)
    ensures p in s.tasks ==> p in Apply(s, a).tasks && Apply(s, a).tasks[p].adj == AdjAfter(s, a, p)
    ensures p !in s.tasks && p in Apply(s, a).tasks ==> Apply(s, a).tasks[p].adj == []
  {
    match a
    case Creates(slot) => CreateAdj(s, slot, p);
    case AddsAdjacency(x, y) => AddAdj(s, x, y, p);
    case AddsLatch(e) => AddLatchAdj(s, e, p);
    case Submits(t) => SubmitAdj(s, 0, t, p);
    case CallsDirectly(c, t) => SubmitAdj(s, c, t, p);
  }

  lemma StepAdj(s: State, a: Action, p: TaskId)
    requires Inv(s) && Enabled(s, a)
    ensures p in s.tasks ==> p in Apply(s, a).tasks && Apply(s, a).tasks[p].adj == AdjAfter(s, a, p)
    ensures p !in s.tasks && p in Apply(s, a).tasks ==> Apply(s, a).tasks[p].adj == []
  {
    if ByExecutor(a) {
      Loops.StepKeepsGraph(s, a);
    } else {
      ClientAdj(s, a, p);
    }
  }

  lemma CallAdding(s: State, c: CallId)
    ensures CanBegin(s, c) ==> Begin(s, c).adding == s.adding
    ensures CanReturn(s, c) ==> Return(s, c).adding == s.adding
    ensures CanEnqueue(s, c) ==> Enqueue(s, c).adding == s.adding
    ensures CanRetire(s, c) ==> Retire(s, c).adding == s.adding
  {
  }

  lemma NotifyAdding(s: State, c: CallId)
    requires CanNotify(s, c)
    ensures Notify(s, c).adding == s.adding
  {
  }

  lemma QueueAdding(s: State, r: Ref, c: CallId)
    ensures CanDequeue(s, c, r) ==> Dequeue(s, c, r).adding == s.adding
    ensures r in s.purging ==> TryDelete(s, r).adding == s.adding
  {
  }

  lemma SubmitAdding(s: State, c: CallId, t: TaskId)
    requires CanSubmit(s, t)
    ensures Submit(s, t).adding == s.adding && (c !in s.calls ==> CallDirectly(s, c, t).adding == s.adding)
  {
  }

  lemma StepAdding(s: State, a: Action)
    requires Enabled(s, a)
    ensures Apply(s, a).adding == AddingAfter(s, a)
  {
    match a
    case Creates(slot) =>
    case AddsAdjacency(x, y) =>
    case AddsLatch(e) =>
    case Submits(t) => SubmitAdding(s, 0, t);
    case CallsDirectly(c, t) => SubmitAdding(s, c, t);
    case Dequeues(c, r) => QueueAdding(s, r, c);
    case Begins(c) => CallAdding(s, c);
    case Returns(c) => CallAdding(s, c);
    case Notifies(c) => NotifyAdding(s, c);
    case Enqueues(c) => CallAdding(s, c);
    case Retires(c) => CallAdding(s, c);
    case Takes(r) =>
    case TriesDelete(r) => QueueAdding(s, r, 0);
    case Retains(r) =>
  }

  // ----- The chain's tasks have no edges under way but the one it is adding itself

  /** No edge under way, but the excepted ones, leaves or enters task u. */
  ghost predicate Clear(tasks: Tasks, adding: set<Edge>, u: TaskId, except: set<Edge>) {
    forall e | e in adding && e !in except && e.0 in tasks && e.1 < |tasks[e.0].adj| ::
      e.0 != u && tasks[e.0].adj[e.1].task != u
  }

  lemma AddingBounds(tasks: Tasks, adding: set<Edge>, e: Edge)
    requires AddingInv(tasks, adding) && e in adding
    ensures e.0 in tasks && e.1 < |tasks[e.0].adj|
  {
  }

  /** An edge under way after the step was so before, leading to the same task, or is the one the step began. */
  lemma AddingFrom(s: State, a: Action, e: Edge)
    requires Inv(s) && Enabled(s, a) && e in Apply(s, a).adding
    ensures e in s.adding ==> e.0 in s.tasks && e.0 in Apply(s, a).tasks && e.1 < |s.tasks[e.0].adj|
    ensures e in s.adding ==> e.1 < |Apply(s, a).tasks[e.0].adj| && Apply(s, a).tasks[e.0].adj[e.1] == s.tasks[e.0].adj[e.1]
    ensures e !in s.adding ==> a.AddsAdjacency? && e == (a.a, |s.tasks[a.a].adj|) && e.0 in Apply(s, a).tasks
                               && Apply(s, a).tasks[e.0].adj == s.tasks[a.a].adj + [RefOf(s, a.b)]
  {
    StepAdding(s, a);
    StepAdj(s, a, e.0);
    if e in s.adding { AddingBounds(s.tasks, s.adding, e); }
  }

  lemma ClearStep(s: State, a: Action, u: TaskId, except: set<Edge>, x: State)
    requires Inv(s) && Enabled(s, a) && x == Apply(s, a) && !Touches(s, a, u) && Clear(s.tasks, s.adding, u, except)
    ensures Clear(x.tasks, x.adding, u, except)
  {
    forall e | e in x.adding && e !in except && e.0 in x.tasks && e.1 < |x.tasks[e.0].adj|
      ensures e.0 != u && x.tasks[e.0].adj[e.1].task != u
    {
      AddingFrom(s, a, e);
    }
  }

  /** Only the given task leads to n. */
  ghost predicate OnlyFrom(tasks: Tasks, t: TaskId, n: TaskId) { forall p | HasEdge(tasks, p, n) :: p == t }

  lemma EdgeFrom(s: State, a: Action, p: TaskId, n: TaskId, x: State)
    requires Inv(s) && Enabled(s, a) && x == Apply(s, a) && HasEdge(x.tasks, p, n)
    ensures HasEdge(s.tasks, p, n) || (a.AddsAdjacency? && a.a == p && a.b == n)
  {
    StepAdj(s, a, p);
    var i :| 0 <= i < |x.tasks[p].adj| && x.tasks[p].adj[i].task == n;
  }

  lemma OnlyFromStep(s: State, a: Action, t: TaskId, n: TaskId, x: State)
    requires Inv(s) && Enabled(s, a) && x == Apply(s, a) && OnlyFrom(s.tasks, t, n) && (a.AddsAdjacency? ==> a.b != n || a.a == t)
    ensures OnlyFrom(x.tasks, t, n)
  {
    forall p | HasEdge(x.tasks, p, n) ensures p == t {
      EdgeFrom(s, a, p, n, x);
    }
  }

  // ----- What every run of the chain keeps

  function Newest(k: Chain): TaskId
    requires k.instances != []
  {
    k.instances[|k.instances| - 1]
  }

  /** The edge that the running instance is adding. */
  function OwnEdge(k: Chain): set<Edge>
    requires k.instances != []
  {
    if k.body.Inside? && k.body.pc.Linked? then {(Newest(k), 0)} else {}
  }

  predicate HasLocal(k: Chain) { k.body.Inside? && (k.body.pc.Made? || k.body.pc.Linked? || k.body.pc.Raised?) }

  ghost predicate AllClear(k: Chain, tasks: Tasks, adding: set<Edge>, except: set<Edge>) {
    forall u | Own(k, u) :: Clear(tasks, adding, u, except)
  }

  ghost predicate LocalOnly(k: Chain, tasks: Tasks)
    requires k.instances != []
  {
    HasLocal(k) ==> OnlyFrom(tasks, Newest(k), k.body.pc.n)
  }

  ghost predicate Undisturbed(k: Chain, s: State)
    requires k.instances != []
  {
    AllClear(k, s.tasks, s.adding, OwnEdge(k)) && OwnEdge(k) <= s.adding && LocalOnly(k, s.tasks)
  }

  lemma OtherClear(k: Chain, s: State, a: Action, x: State, except: set<Edge>)
    requires Inv(s) && Enabled(s, a) && x == Apply(s, a) && (forall u | Own(k, u) :: !Touches(s, a, u))
    requires AllClear(k, s.tasks, s.adding, except)
    ensures AllClear(k, x.tasks, x.adding, except)
  {
    forall u | Own(k, u) ensures Clear(x.tasks, x.adding, u, except) {
      ClearStep(s, a, u, except, x);
    }
  }

  lemma OtherLocal(k: Chain, s: State, a: Action, x: State)
    requires Inv(s) && Enabled(s, a) && x == Apply(s, a) && (forall u | Own(k, u) :: !Touches(s, a, u))
    requires k.instances != [] && LocalOnly(k, s.tasks)
    ensures LocalOnly(k, x.tasks)
  {
    if HasLocal(k) {
      assert Own(k, k.body.pc.n);
      OnlyFromStep(s, a, Newest(k), k.body.pc.n, x);
    }
  }

  lemma OtherEdge(k: Chain, s: State, a: Action, x: State)
    requires Enabled(s, a) && x == Apply(s, a) && (forall u | Own(k, u) :: !Touches(s, a, u))
    requires k.instances != [] && OwnEdge(k) <= s.adding
    ensures OwnEdge(k) <= x.adding
  {
    StepAdding(s, a);
    assert Own(k, Newest(k));
  }

  lemma OtherUndisturbed(k: Chain, s: State, a: Action, x: State)
    requires Inv(s) && Enabled(s, a) && x == Apply(s, a) && (forall u | Own(k, u) :: !Touches(s, a, u))
    requires k.instances != [] && Undisturbed(k, s)
    ensures Undisturbed(k, x)
  {
    OtherClear(k, s, a, x, OwnEdge(k));
    OtherEdge(k, s, a, x);
    OtherLocal(k, s, a, x);
  }

  // The chain's own steps.

  /** The same edges, the same edges under way. */
  lemma GraphUndisturbed(k: Chain, s: State, x: State)
    requires k.instances != [] && Undisturbed(k, s) && Loops.SameGraph(x.tasks, s.tasks) && x.adding == s.adding
    ensures Undisturbed(k, x)
  {
    forall u | Own(k, u) ensures Clear(x.tasks, x.adding, u, OwnEdge(k)) {
      assert Clear(s.tasks, s.adding, u, OwnEdge(k));
    }
    forall p, n | HasEdge(x.tasks, p, n) ensures HasEdge(s.tasks, p, n) {
    }
  }

  /** The body moves on without a local task or an edge of its own. */
  lemma SameTasksUndisturbed(k: Chain, j: Chain, s: State)
    requires k.instances != [] && j.instances == k.instances && Undisturbed(k, s)
    requires !HasLocal(k) && !HasLocal(j)
    ensures Undisturbed(j, s)
  {
    forall u | Own(j, u) ensures Clear(s.tasks, s.adding, u, OwnEdge(j)) {
      assert Own(k, u);
    }
  }

  lemma NewClear(s: State, slot: Slot, x: State)
    requires Inv(s) && AllDelivered(s) && CanCreate(s, slot) && x == Create(s, slot)
    ensures Clear(x.tasks, x.adding, NewTask(s), {})
  {
    assert NewTask(s) !in s.tasks;
    forall e | e in x.adding && e.0 in x.tasks && e.1 < |x.tasks[e.0].adj|
      ensures e.0 != NewTask(s) && x.tasks[e.0].adj[e.1].task != NewTask(s)
    {
      AddingBounds(s.tasks, s.adding, e);
      assert s.tasks[e.0].adj[e.1].task in s.tasks;
    }
  }

  lemma MakeClear(k: Chain, s: State, slot: Slot, x: State, n: TaskId)
    requires Inv(s) && AllDelivered(s) && CanCreate(s, slot) && x == Create(s, slot) && n == NewTask(s)
    requires ClientChain.At(k, Making) && AllClear(k, s.tasks, s.adding, {})
    ensures AllClear(In(k, Made(n)), x.tasks, x.adding, {})
  {
    OtherClear(k, s, Creates(slot), x, {});
    NewClear(s, slot, x);
    forall u | Own(In(k, Made(n)), u) ensures Clear(x.tasks, x.adding, u, {}) {
      assert u == n || Own(k, u);
    }
  }

  lemma MakeLocal(s: State, slot: Slot, t: TaskId, x: State)
    requires Inv(s) && AllDelivered(s) && CanCreate(s, slot) && x == Create(s, slot)
    ensures OnlyFrom(x.tasks, t, NewTask(s))
  {
    assert NewTask(s) !in s.tasks;
    NewIsApart(s.tasks, s.adding, NewTask(s), Task(slot, 1, [], 0, 0, Created));
    assert Apart(x.tasks, NewTask(s));
  }

  lemma MakingParts(k: Chain, s: State)
    requires k.instances != [] && ClientChain.At(k, Making) && Undisturbed(k, s)
    ensures AllClear(k, s.tasks, s.adding, {})
  {
  }

  lemma MadeWhole(k: Chain, s: State, n: TaskId)
    requires k.instances != [] && k.body.Inside? && AllClear(In(k, Made(n)), s.tasks, s.adding, {})
    requires OnlyFrom(s.tasks, Newest(k), n)
    ensures Undisturbed(In(k, Made(n)), s)
  {
  }

  lemma MakeUndisturbed(k: Chain, s: State, slot: Slot, x: State, n: TaskId)
    requires Inv(s) && AllDelivered(s) && CanCreate(s, slot) && x == Create(s, slot) && n == NewTask(s)
    requires k.instances != [] && ClientChain.At(k, Making) && Undisturbed(k, s)
    ensures Undisturbed(In(k, Made(n)), x)
  {
    MakingParts(k, s);
    MakeClear(k, s, slot, x, n);
    MakeLocal(s, slot, Newest(k), x);
    MadeWhole(k, x, n);
  }

  lemma LinkClear(s: State, t: TaskId, n: TaskId, u: TaskId, x: State)
    requires Inv(s) && CanAddAdjacency(s, t, n) && x == AddAdjacency(s, t, n) && s.tasks[t].adj == []
    requires Clear(s.tasks, s.adding, u, {})
    ensures Clear(x.tasks, x.adding, u, {(t, 0)})
  {
    forall e | e in x.adding && e !in {(t, 0)} && e.0 in x.tasks && e.1 < |x.tasks[e.0].adj|
      ensures e.0 != u && x.tasks[e.0].adj[e.1].task != u
    {
      AddingFrom(s, AddsAdjacency(t, n), e);
    }
  }

  lemma LinkAllClear(k: Chain, s: State, n: TaskId, t: TaskId, x: State)
    requires Inv(s) && CanAddAdjacency(s, t, n) && x == AddAdjacency(s, t, n) && s.tasks[t].adj == []
    requires ClientChain.At(k, Made(n)) && AllClear(k, s.tasks, s.adding, {})
    ensures AllClear(In(k, Linked(n)), x.tasks, x.adding, {(t, 0)})
  {
    forall u | Own(In(k, Linked(n)), u) ensures Clear(x.tasks, x.adding, u, {(t, 0)}) {
      assert Own(k, u);
      LinkClear(s, t, n, u, x);
    }
  }

  lemma LinkLocal(s: State, n: TaskId, t: TaskId, x: State)
    requires Inv(s) && CanAddAdjacency(s, t, n) && x == AddAdjacency(s, t, n) && s.tasks[t].adj == [] && OnlyFrom(s.tasks, t, n)
    ensures OnlyFrom(x.tasks, t, n) && (t, 0) in x.adding
  {
    OnlyFromStep(s, AddsAdjacency(t, n), t, n, x);
  }

  lemma LocalParts(k: Chain, s: State, n: TaskId)
    requires k.instances != [] && HasLocal(k) && k.body.pc.n == n && Undisturbed(k, s)
    ensures AllClear(k, s.tasks, s.adding, OwnEdge(k)) && OnlyFrom(s.tasks, Newest(k), n)
  {
  }

  lemma LocalWhole(k: Chain, s: State, n: TaskId, edge: set<Edge>)
    requires k.instances != [] && HasLocal(k) && k.body.pc.n == n && edge == OwnEdge(k)
    requires AllClear(k, s.tasks, s.adding, edge) && edge <= s.adding && OnlyFrom(s.tasks, Newest(k), n)
    ensures Undisturbed(k, s)
  {
  }

  lemma LinkUndisturbed(k: Chain, s: State, n: TaskId, t: TaskId, x: State)
    requires Inv(s) && CanAddAdjacency(s, t, n) && x == AddAdjacency(s, t, n) && s.tasks[t].adj == []
    requires k.instances != [] && ClientChain.At(k, Made(n)) && t == Newest(k) && Undisturbed(k, s)
    ensures AllClear(In(k, Linked(n)), x.tasks, x.adding, {(t, 0)}) && OnlyFrom(x.tasks, t, n) && (t, 0) in x.adding
  {
    LocalParts(k, s, n);
    LinkAllClear(k, s, n, t, x);
    LinkLocal(s, n, t, x);
  }

  lemma RaiseClear(s: State, e0: Edge, u: TaskId, x: State)
    requires Inv(s) && CanAddLatch(s, e0) && x == AddLatch(s, e0) && Clear(s.tasks, s.adding, u, {e0})
    ensures Clear(x.tasks, x.adding, u, {})
  {
    forall e | e in x.adding && e.0 in x.tasks && e.1 < |x.tasks[e.0].adj|
      ensures e.0 != u && x.tasks[e.0].adj[e.1].task != u
    {
      AddingFrom(s, AddsLatch(e0), e);
    }
  }

  lemma RaiseAllClear(k: Chain, s: State, n: TaskId, e: Edge, x: State)
    requires Inv(s) && CanAddLatch(s, e) && x == AddLatch(s, e)
    requires ClientChain.At(k, Linked(n)) && AllClear(k, s.tasks, s.adding, {e})
    ensures AllClear(In(k, Raised(n)), x.tasks, x.adding, {})
  {
    forall u | Own(In(k, Raised(n)), u) ensures Clear(x.tasks, x.adding, u, {}) {
      assert Own(k, u);
      RaiseClear(s, e, u, x);
    }
  }

  lemma RaiseUndisturbed(k: Chain, s: State, n: TaskId, t: TaskId, x: State)
    requires Inv(s) && CanAddLatch(s, (t, 0)) && x == AddLatch(s, (t, 0))
    requires k.instances != [] && ClientChain.At(k, Linked(n)) && t == Newest(k) && Undisturbed(k, s)
    ensures AllClear(In(k, Raised(n)), x.tasks, x.adding, {}) && OnlyFrom(x.tasks, t, n)
  {
    LocalParts(k, s, n);
    RaiseAllClear(k, s, n, (t, 0), x);
    OnlyFromStep(s, AddsLatch((t, 0)), t, n, x);
  }

  lemma AssignUndisturbed(k: Chain, j: Chain, s: State, n: TaskId)
    requires k.instances != [] && ClientChain.At(k, Raised(n)) && Undisturbed(k, s)
    requires j.instances == k.instances + [n] && ClientChain.At(j, Leaving)
    ensures Undisturbed(j, s)
  {
    forall u | Own(j, u) ensures Clear(s.tasks, s.adding, u, {}) {
      assert Own(k, u);
    }
  }

  /** Everything the progress of the chain rests on. */
  ghost predicate Sound(k: Chain) {
    ChainInv(k) && AllDelivered(k.s) && NewApart(k) && Undisturbed(k, k.s)
  }

  lemma EnterUndisturbed(k: Chain, c: CallId)
    requires ChainInv(k) && Undisturbed(k, k.s) && Possible(k, Enter(c))
    ensures Undisturbed(k.(body := Inside(c, Checking)), Begin(k.s, c))
  {
    var i: nat :| i < |k.instances| && k.s.calls[c].ref.task == k.instances[i];
    EnteredAlone(k, c, i);
    Loops.BeginKeepsGraph(k.s, c);
    CallAdding(k.s, c);
    GraphUndisturbed(k, k.s, Begin(k.s, c));
    SameTasksUndisturbed(k, k.(body := Inside(c, Checking)), Begin(k.s, c));
  }

  lemma LeaveUndisturbed(k: Chain, c: CallId)
    requires Inv(k.s) && k.instances != [] && Undisturbed(k, k.s) && ClientChain.At(k, Leaving) && CanReturn(k.s, c)
    ensures Undisturbed(k.(body := Outside), Return(k.s, c))
  {
    Loops.ReturnKeepsGraph(k.s, c);
    CallAdding(k.s, c);
    GraphUndisturbed(k, k.s, Return(k.s, c));
    SameTasksUndisturbed(k, k.(body := Outside), Return(k.s, c));
  }

  lemma LaunchUndisturbed(k: Chain, t: TaskId)
    requires k.instances != [] && Undisturbed(k, k.s) && CanSubmit(k.s, t)
    ensures Undisturbed(k, Submit(k.s, t))
  {
    Loops.UpdateKeepsGraph(k.s.tasks, t, k.s.tasks[t].(phase := Queued));
    SubmitAdding(k.s, 0, t);
    GraphUndisturbed(k, k.s, Submit(k.s, t));
  }

  lemma LinkStep(k: Chain, n: TaskId, t: TaskId)
    requires Inv(k.s) && k.instances != [] && Undisturbed(k, k.s) && ClientChain.At(k, Made(n)) && t == Newest(k)
    requires CanAddAdjacency(k.s, t, n) && k.s.tasks[t].adj == []
    ensures Undisturbed(In(k, Linked(n)), AddAdjacency(k.s, t, n))
  {
    LinkUndisturbed(k, k.s, n, t, AddAdjacency(k.s, t, n));
    LocalWhole(In(k, Linked(n)), AddAdjacency(k.s, t, n), n, {(t, 0)});
  }

  lemma RaiseStep(k: Chain, n: TaskId, t: TaskId)
    requires Inv(k.s) && k.instances != [] && Undisturbed(k, k.s) && ClientChain.At(k, Linked(n)) && t == Newest(k)
    requires CanAddLatch(k.s, (t, 0))
    ensures Undisturbed(In(k, Raised(n)), AddLatch(k.s, (t, 0)))
  {
    RaiseUndisturbed(k, k.s, n, t, AddLatch(k.s, (t, 0)));
    LocalWhole(In(k, Raised(n)), AddLatch(k.s, (t, 0)), n, {});
  }

  lemma MadeUnlinked(k: Chain, tasks: Tasks, n: TaskId)
    requires OnTasks(k, tasks) && ClientChain.At(k, Made(n))
    ensures Newest(k) in tasks && tasks[Newest(k)].adj == []
  {
  }

  /** A chain is disturbed neither by its state nor by its count of calls. */
  lemma UndisturbedOnly(k: Chain, j: Chain, s: State)
    requires k.instances != [] && Undisturbed(k, s) && j.instances == k.instances && j.body == k.body
    ensures Undisturbed(j, s)
  {
    forall u | Own(j, u) ensures Clear(s.tasks, s.adding, u, OwnEdge(j)) {
      assert Own(k, u);
    }
  }

  lemma OwnStepUndisturbed(k: Chain, step: Step)
    requires ChainInv(k) && Undisturbed(k, k.s) && Possible(k, step)
    requires step.Link? || step.Raise? || step.Assign? || step.Leave?
    ensures Undisturbed(Do(k, step), Do(k, step).s)
  {
    var j := Do(k, step);
    match step
    case Link =>
      var n := k.body.pc.n;
      HandleLeads(k);
      MadeUnlinked(k, k.s.tasks, n);
      LinkStep(k, n, Newest(k));
      UndisturbedOnly(In(k, Linked(n)), j, j.s);
    case Raise =>
      var n := k.body.pc.n;
      HandleLeads(k);
      RaiseStep(k, n, Newest(k));
      UndisturbedOnly(In(k, Raised(n)), j, j.s);
    case Assign => AssignUndisturbed(k, j, k.s, k.body.pc.n);
    case Leave =>
      LeaveUndisturbed(k, k.body.caller);
      UndisturbedOnly(k.(body := Outside), j, j.s);
  }

  lemma OuterStepUndisturbed(k: Chain, step: Step)
    requires ChainInv(k) && Undisturbed(k, k.s) && Possible(k, step) && (step.Other? || step.Launch? || step.Enter?)
    ensures Undisturbed(Do(k, step), Do(k, step).s)
  {
    var j := Do(k, step);
    match step
    case Other(a) =>
      OtherUndisturbed(k, k.s, a, j.s);
      UndisturbedOnly(k, j, j.s);
    case Launch =>
      LaunchUndisturbed(k, k.instances[0]);
      UndisturbedOnly(k, j, j.s);
    case Enter(c) =>
      EnterUndisturbed(k, c);
      UndisturbedOnly(k.(body := Inside(c, Checking)), j, j.s);
  }

  lemma StateStepUndisturbed(k: Chain, step: Step)
    requires k.instances != [] && Undisturbed(k, k.s) && Possible(k, step) && (step.Shutdown? || step.Check? || step.Work?)
    ensures Undisturbed(Do(k, step), Do(k, step).s)
  {
    var j := Do(k, step);
    if step.Shutdown? {
      UndisturbedOnly(k, j, k.s);
    } else {
      SameTasksUndisturbed(k, j, k.s);
    }
  }

  lemma MakeStepUndisturbed(k: Chain, slot: Slot)
    requires Inv(k.s) && k.instances != [] && AllDelivered(k.s) && Undisturbed(k, k.s) && Possible(k, Make(slot))
    ensures Undisturbed(Do(k, Make(slot)), Create(k.s, slot))
  {
    MakeUndisturbed(k, k.s, slot, Create(k.s, slot), NewTask(k.s));
    UndisturbedOnly(In(k, Made(NewTask(k.s))), Do(k, Make(slot)), Create(k.s, slot));
  }

  lemma StepUndisturbed(k: Chain, step: Step)
    requires ChainInv(k) && AllDelivered(k.s) && Undisturbed(k, k.s) && Possible(k, step)
    ensures Undisturbed(Do(k, step), Do(k, step).s)
  {
    if step.Other? || step.Launch? || step.Enter? {
      OuterStepUndisturbed(k, step);
    } else if step.Shutdown? || step.Check? || step.Work? {
      StateStepUndisturbed(k, step);
    } else if step.Make? {
      MakeStepUndisturbed(k, step.slot);
    } else {
      OwnStepUndisturbed(k, step);
    }
  }

  lemma SoundStep(k: Chain, step: Step)
    requires Sound(k) && Possible(k, step)
    ensures Sound(Do(k, step))
  {
    ChainStep(k, step);
    StepKeepsApart(k, step);
    StepIsAction(k, step);
    if AsAction(k, step) != [] { StepKeepsDelivered(k.s, AsAction(k, step)[0]); }
    StepUndisturbed(k, step);
  }

  lemma {:induction false} SoundRun(k: Chain, run: seq<Step>)
    requires Sound(k) && IsRun(k, run)
    ensures Sound(After(k, run))
    decreases |run|
  {
    if run != [] {
      SoundStep(k, run[0]);
      SoundRun(Do(k, run[0]), run[1..]);
    }
  }

  // ----- The next step is always allowed

  /** The edge being added has not been counted, and no other one leads to the new task. */
  lemma NothingCounted(tasks: Tasks, adding: set<Edge>, t: TaskId, n: TaskId)
    requires LinkedTo(tasks, t, n) && OnlyFrom(tasks, t, n) && (t, 0) in adding
    ensures Counted(tasks, adding, n) == {}
  {
    forall e | e in Counted(tasks, adding, n) ensures e == (t, 0) {
      assert HasEdge(tasks, e.0, n);
    }
  }

  lemma NewLatch(tasks: Tasks, adding: set<Edge>, t: TaskId, n: TaskId)
    requires LatchInv(tasks, adding) && n in tasks && tasks[n].phase.Created?
    requires LinkedTo(tasks, t, n) && OnlyFrom(tasks, t, n) && (t, 0) in adding
    ensures tasks[n].latch == 1
  {
    NothingCounted(tasks, adding, t, n);
    assert LatchOK(n, tasks, adding);
  }

  lemma CanRaise(s: State, t: TaskId, n: TaskId)
    requires Inv(s) && LinkedTo(s.tasks, t, n) && OnlyFrom(s.tasks, t, n) && (t, 0) in s.adding
    ensures CanAddLatch(s, (t, 0))
  {
    AddingTarget(s.tasks, s.adding, (t, 0));
    NeverStale(s, s.tasks[t].adj[0]);
    NewLatch(s.tasks, s.adding, t, n);
  }

  lemma RaiseParts(k: Chain, s: State, n: TaskId)
    requires OnTasks(k, s.tasks) && Undisturbed(k, s) && ClientChain.At(k, Linked(n))
    ensures LinkedTo(s.tasks, Newest(k), n) && OnlyFrom(s.tasks, Newest(k), n) && (Newest(k), 0) in s.adding
  {
    assert (Newest(k), 0) in OwnEdge(k);
  }

  lemma RaiseAllowed(k: Chain, n: TaskId)
    requires ChainInv(k) && Undisturbed(k, k.s) && ClientChain.At(k, Linked(n))
    ensures Possible(k, Raise)
  {
    HandleLeads(k);
    RaiseParts(k, k.s, n);
    CanRaise(k.s, Newest(k), n);
  }

  lemma RunnerSettled(k: Chain, s: State, i: nat)
    requires k.instances != [] && AllClear(k, s.tasks, s.adding, {}) && i < |k.instances|
    requires k.instances[i] in s.tasks
    requires s.tasks[k.instances[i]].adj == [] || LinkedTo(s.tasks, k.instances[i], Newest(k))
    ensures Settled(s, k.instances[i])
  {
    var t := k.instances[i];
    assert Own(k, t) && Own(k, Newest(k));
    assert Clear(s.tasks, s.adding, t, {}) && Clear(s.tasks, s.adding, Newest(k), {});
  }

  lemma RunnerInvoking(s: State, c: CallId, t: TaskId)
    requires CallInv(s.calls, s.tasks) && c in s.calls && s.calls[c].ref.task == t && Active(s.tasks, t, c)
    ensures s.calls[c].pc.Invoking? && RefOK(s.tasks, s.calls[c].ref)
  {
    assert CallOK(c, s.calls[c], s.tasks);
  }

  lemma CanLeave(s: State, c: CallId, t: TaskId)
    requires Inv(s) && c in s.calls && s.calls[c].ref.task == t && Active(s.tasks, t, c) && Settled(s, t)
    ensures CanReturn(s, c)
  {
    RunnerInvoking(s, c, t);
    NeverStale(s, s.calls[c].ref);
  }

  lemma LeaveParts(k: Chain, s: State, i: nat)
    requires OnTasks(k, s.tasks) && Undisturbed(k, s) && ClientChain.At(k, Leaving) && IsRunner(k, i)
    ensures Settled(s, k.instances[i])
  {
    RunnerSettled(k, s, i);
  }

  lemma LeaveAllowed(k: Chain)
    requires ChainInv(k) && Undisturbed(k, k.s) && ClientChain.At(k, Leaving)
    ensures Possible(k, Leave)
  {
    var i := RunnerCalled(k);
    LeaveParts(k, k.s, i);
    CanLeave(k.s, k.body.caller, k.instances[i]);
  }

  /** The step an instance takes next from where it is in its body. */
  ghost predicate CanGoOn(k: Chain, pc: Where) {
    match pc
    case Checking => Possible(k, Check)
    case Working => Possible(k, Work)
    case Making => forall slot | CanCreate(k.s, slot) :: Possible(k, Make(slot))
    case Made(_) => Possible(k, Link)
    case Linked(_) => Possible(k, Raise)
    case Raised(_) => Possible(k, Assign)
    case Leaving => Possible(k, Leave)
  }

  lemma PlainGoesOn(k: Chain, tasks: Tasks)
    requires OnTasks(k, tasks) && k.s.tasks == tasks && k.body.Inside?
    requires k.body.pc.Checking? || k.body.pc.Working? || k.body.pc.Making? || k.body.pc.Raised?
    ensures CanGoOn(k, k.body.pc)
  {
  }

  lemma SoundGoesOn(k: Chain, pc: Where)
    requires ChainInv(k) && NewApart(k) && Undisturbed(k, k.s) && ClientChain.At(k, pc)
    ensures CanGoOn(k, pc)
  {
    match pc
    case Made(n) => LinkOnTasksAllowed(k, n);
    case Linked(n) => RaiseAllowed(k, n);
    case Leaving => LeaveAllowed(k);
    case _ => PlainGoesOn(k, k.s.tasks);
  }

  /** In every run, an instance in its body can take its next step, whatever the application has done in between;
      creating its successor takes a free slot. */
  lemma NeverStuck(k: Chain, run: seq<Step>, e: Chain)
    requires Starts(k) && AllDelivered(k.s) && Clear(k.s.tasks, k.s.adding, k.instances[0], {})
    requires IsRun(k, run) && e == After(k, run) && e.body.Inside?
    ensures CanGoOn(e, e.body.pc)
  {
    StartsKeeps(k);
    SoundRun(k, run);
    SoundGoesOn(e, e.body.pc);
  }
}
