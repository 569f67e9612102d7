/** A device queue with its two command pools, its fences and its timeline callbacks: src/rhi/queue.inl,
    src/rhi/vulkan/queue.cpp and the frame skeleton of src/rhi/vulkan/rhiapplication.cpp. */
module DeviceQueue {
  import opened Options
  import Pool = CommandPool
  import Timeline = TimelineCallbacks

  datatype SubmitInfo = SubmitInfo(callbacks: seq<Timeline.Callback>, timelineValue: nat, buffers: seq<Pool.Buffer>)

  /** The largest of some signal values. */
  function MaxOf(values: seq<nat>): nat {
    if values == [] then 0 else Timeline.Max(MaxOf(values[..|values| - 1]), values[|values| - 1])
  }

  /** Submit's running maximum over the first i entries. */
  function RunningMax(submits: seq<SubmitInfo>, i: nat): (m: nat)
    requires i <= |submits|
  {
    if i == 0 then 0 else Timeline.Max(RunningMax(submits, i - 1), submits[i - 1].timelineValue)
  }

  /** What Submit puts on the callback queue for the first i entries. */
  function Items(submits: seq<SubmitInfo>, i: nat): (items: seq<Timeline.Item>)
    requires i <= |submits|
    ensures |items| == i
    ensures forall k | 0 <= k < i :: items[k] == Timeline.Item(submits[k].callbacks, RunningMax(submits, k + 1))
  {
    if i == 0 then []
    else Items(submits, i - 1) + [Timeline.Item(submits[i - 1].callbacks, RunningMax(submits, i))]
  }

  /** The entries that stay queued when value v is reported: it has not gone beyond theirs. */
  function Kept(items: seq<Timeline.Item>, v: nat): seq<Timeline.Item> {
    if items == [] then []
    else Kept(items[..|items| - 1], v) + if v <= items[|items| - 1].value then [items[|items| - 1]] else []
  }

  /** The entries that are handed over. */
  function Passed(items: seq<Timeline.Item>, v: nat): seq<Timeline.Item> {
    if items == [] then []
    else Passed(items[..|items| - 1], v) + if v <= items[|items| - 1].value then [] else [items[|items| - 1]]
  }

  lemma {:induction false} KeptOrPassed(items: seq<Timeline.Item>, v: nat, item: Timeline.Item)
    ensures item in Kept(items, v) <==> item in items && v <= item.value
    ensures item in Passed(items, v) <==> item in items && item.value < v
  {
    if items != [] {
      KeptOrPassed(items[..|items| - 1], v, item);
      assert items == items[..|items| - 1] + [items[|items| - 1]];
    }
  }

  /** A submission that ends its batch waits for a value beyond the batch's largest: draining with that largest
      value, as the application's destructor does after the device is idle, leaves its callbacks queued. */
  lemma LastOfBatchStays(submits: seq<SubmitInfo>)
    requires submits != []
    ensures Items(submits, |submits|)[|submits| - 1] in Kept(Items(submits, |submits|), RunningMax(submits, |submits|))
  {
    var items := Items(submits, |submits|);
    KeptOrPassed(items, RunningMax(submits, |submits|), items[|submits| - 1]);
  }

  predicate SubmitsTagged(submits: seq<SubmitInfo>) {
    forall i | 0 <= i < |submits| :: forall c | c in submits[i].callbacks :: c.signal <= submits[i].timelineValue
  }

  lemma ReachedJoin(a: seq<Timeline.Item>, b: seq<Timeline.Item>)
    requires Timeline.AllReached(a) && Timeline.AllReached(b)
    ensures Timeline.AllReached(a + b)
  {
  }

  /** Each queued value is at least the one its own submission signals. */
  lemma ItemsReached(submits: seq<SubmitInfo>)
    requires SubmitsTagged(submits)
    ensures Timeline.AllReached(Items(submits, |submits|))
  {
  }

  lemma {:induction false} KeptReached(items: seq<Timeline.Item>, v: nat)
    requires Timeline.AllReached(items)
    ensures Timeline.AllReached(Kept(items, v))
  {
    if items != [] { KeptReached(items[..|items| - 1], v); }
  }

  // ----- What the device may be executing

  ghost predicate Busy<D>(collected: set<(Pool.CommandPool<D>, Pool.Buffer)>,
                          inFlight: map<nat, set<(Pool.CommandPool<D>, Pool.Buffer)>>,
                          use: (Pool.CommandPool<D>, Pool.Buffer)) {
    use in collected || exists f :: f in inFlight && use in inFlight[f]
  }

  /** What the device may execute of a pool is collected for a submission or in flight. */
  ghost predicate Accounted<D>(collected: set<(Pool.CommandPool<D>, Pool.Buffer)>,
                               inFlight: map<nat, set<(Pool.CommandPool<D>, Pool.Buffer)>>,
                               p: Pool.CommandPool<D>, executing: set<Pool.Buffer>) {
    forall b | b in executing :: Busy(collected, inFlight, (p, b))
  }

  lemma AccountedCollected<D>(collected: set<(Pool.CommandPool<D>, Pool.Buffer)>,
                              inFlight: map<nat, set<(Pool.CommandPool<D>, Pool.Buffer)>>,
                              p: Pool.CommandPool<D>, executing: set<Pool.Buffer>, q: Pool.CommandPool<D>,
                              more: set<Pool.Buffer>)
    requires Accounted(collected, inFlight, p, executing)
    ensures Accounted(collected + (set b | b in more :: (q, b)), inFlight, p, executing)
    ensures p == q ==> Accounted(collected + (set b | b in more :: (q, b)), inFlight, p, executing + more)
  {
  }

  lemma AccountedSubmitted<D>(collected: set<(Pool.CommandPool<D>, Pool.Buffer)>,
                              inFlight: map<nat, set<(Pool.CommandPool<D>, Pool.Buffer)>>,
                              p: Pool.CommandPool<D>, executing: set<Pool.Buffer>, fence: nat)
    requires Accounted(collected, inFlight, p, executing) && fence !in inFlight
    ensures Accounted({}, inFlight[fence := collected], p, executing)
  {
    var after := inFlight[fence := collected];
    forall b | b in executing ensures Busy({}, after, (p, b)) {
      if (p, b) in collected {
        assert (p, b) in after[fence];
      } else {
        var f :| f in inFlight && (p, b) in inFlight[f];
        assert (p, b) in after[f];
      }
    }
  }

  class Queue<D(==)> {
    var pool0: Pool.CommandPool<D>
    var pool1: Pool.CommandPool<D>
    var pendingSubmits: seq<SubmitInfo>
    var timelineCallbacks: seq<Timeline.Item>

    /** The queue's host sync info. */
    var fences: seq<nat>
    var maxTimelineValue: nat
    var nextFence: nat

    /** Buffers collected by EnqueueSubmit and not yet given to the device; and those given to it, by the fence
        that is signalled when they are done. */
    ghost var collected: set<(Pool.CommandPool<D>, Pool.Buffer)>
    ghost var inFlight: map<nat, set<(Pool.CommandPool<D>, Pool.Buffer)>>

    ghost predicate Pools()
      reads this, pool0, pool1
    {
      pool0 != pool1 && pool0.Valid() && pool1.Valid()
    }

    ghost predicate Valid()
      reads this, pool0, pool1
    {
      && Pools() && SubmitsTagged(pendingSubmits) && Timeline.AllReached(timelineCallbacks)
      && Accounted(collected, inFlight, pool0, pool0.executing) && Accounted(collected, inFlight, pool1, pool1.executing)
      && (pendingSubmits == [] ==> collected == {})
      && (forall f | f in inFlight :: f in fences)
      && (forall f | f in fences :: f < nextFence)
    }

    constructor ()
      ensures Valid() && fresh(pool0) && fresh(pool1) && pendingSubmits == [] && timelineCallbacks == []
      ensures pool0.refs == map[] && pool1.refs == map[] && pool0.recording == pool1.recording == None
    {
      var p0 := new Pool.CommandPool<D>();
      var p1 := new Pool.CommandPool<D>();
      pool0, pool1 := p0, p1;
      pendingSubmits, timelineCallbacks, fences, maxTimelineValue, nextFence := [], [], [], 0, 0;
      collected, inFlight := {}, map[];
    }

    /** InternalPrepareSubmit and EnqueueSubmit: the buffers begun since the last submission go with the given
        callbacks. Without any such buffer the callbacks are dropped. */
    method EnqueueSubmit(callbacks: seq<Timeline.Callback>, signalValues: seq<nat>)
      requires Valid() && Pool.PoolRecordsOnly(pool0.pending, pool0.recording, pool0.refs)
      requires pool0.begun != [] ==> signalValues != []
      requires forall c | c in callbacks :: c.signal == MaxOf(signalValues)
      modifies this, pool0
      ensures Valid() && pool0 == old(pool0) && pool1 == old(pool1)
      ensures pool0.begun == [] && pool0.recording == None
      ensures pool0.refs == Pool.Released(old(pool0.refs), old(pool0.recording))
      ensures pendingSubmits == old(pendingSubmits) + [if old(pool0.begun) == [] then SubmitInfo([], 0, [])
                                                       else SubmitInfo(callbacks, MaxOf(signalValues), old(pool0.begun))]
      ensures timelineCallbacks == old(timelineCallbacks) && fences == old(fences)
      ensures inFlight == old(inFlight)
    {
      var buffers := pool0.TakePending();
      ghost var more := set b | b in buffers;
      AccountedCollected(collected, inFlight, pool0, old(pool0.executing), pool0, more);
      AccountedCollected(collected, inFlight, pool1, pool1.executing, pool0, more);
      collected := collected + set b | b in more :: (pool0, b);
      if buffers == [] {
        pendingSubmits := pendingSubmits + [SubmitInfo([], 0, [])];
      } else {
        pendingSubmits := pendingSubmits + [SubmitInfo(callbacks, MaxOf(signalValues), buffers)];
      }
    }

    /** Submit's first loop. */
    method EnqueueCallbacks() returns (highest: nat)
      modifies this`timelineCallbacks
      ensures highest == RunningMax(pendingSubmits, |pendingSubmits|)
      ensures timelineCallbacks == old(timelineCallbacks) + Items(pendingSubmits, |pendingSubmits|)
    {
      highest := 0;
      var i := 0;
      while i < |pendingSubmits|
        invariant i <= |pendingSubmits| && highest == RunningMax(pendingSubmits, i)
        invariant timelineCallbacks == old(timelineCallbacks) + Items(pendingSubmits, i)
      {
        highest := Timeline.Max(highest, pendingSubmits[i].timelineValue);
        timelineCallbacks := timelineCallbacks + [Timeline.Item(pendingSubmits[i].callbacks, highest)];
        i := i + 1;
      }
    }

    /** Submit, its fence and value joined to the queue's sync info. */
    method Submit()
      requires Valid()
      modifies this
      ensures Valid() && pool0 == old(pool0) && pool1 == old(pool1) && pendingSubmits == []
      ensures timelineCallbacks == old(timelineCallbacks) + Items(old(pendingSubmits), |old(pendingSubmits)|)
      ensures maxTimelineValue == Timeline.Max(old(maxTimelineValue), RunningMax(old(pendingSubmits), |old(pendingSubmits)|))
      ensures old(pendingSubmits) != [] ==> fences == old(fences) + [old(nextFence)]
                                            && inFlight == old(inFlight)[old(nextFence) := old(collected)]
      ensures old(pendingSubmits) == [] ==> fences == old(fences) && inFlight == old(inFlight)
    {
      if pendingSubmits == [] {
        return;
      }
      ItemsReached(pendingSubmits);
      ReachedJoin(timelineCallbacks, Items(pendingSubmits, |pendingSubmits|));
      var highest := EnqueueCallbacks();
      maxTimelineValue := Timeline.Max(maxTimelineValue, highest);
      SubmitToDevice();
    }

    /** vkQueueSubmit: from now on the new fence answers for the collected buffers. */
    method SubmitToDevice()
      requires Valid()
      modifies this`fences, this`nextFence, this`inFlight, this`collected, this`pendingSubmits
      ensures Valid() && pendingSubmits == [] && fences == old(fences) + [old(nextFence)]
      ensures inFlight == old(inFlight)[old(nextFence) := old(collected)]
    {
      AccountedSubmitted(collected, inFlight, pool0, pool0.executing, nextFence);
      AccountedSubmitted(collected, inFlight, pool1, pool1.executing, nextFence);
      fences := fences + [nextFence];
      inFlight := inFlight[nextFence := collected];
      nextFence, collected, pendingSubmits := nextFence + 1, {}, [];
    }

    /** The device completes the submission of a fence; the host sees it when it waits for the fence. */
    method Complete(f: nat)
      requires Valid()
      modifies this`inFlight, pool0`executing, pool1`executing
      ensures Valid() && inFlight == old(inFlight) - {f}
      ensures pool0.executing <= old(pool0.executing) && pool1.executing <= old(pool1.executing)
    {
      inFlight := inFlight - {f};
      pool0.Finish(set b | b in pool0.executing && !Busy(collected, inFlight, (pool0, b)));
      pool1.Finish(set b | b in pool1.executing && !Busy(collected, inFlight, (pool1, b)));
    }

    /** SwapAndResetPool. No buffer is reset that the device may still execute. */
    method SwapAndResetPool()
      requires Valid() && pendingSubmits == [] && inFlight == map[]
      requires forall b | b in pool1.refs :: b in pool1.begun
      modifies this, pool1
      ensures Valid() && pool0 == old(pool1) && pool1 == old(pool0)
      ensures pool0.submitted == [] && pool0.begun == old(pool1.begun) && pool0.refs == old(pool1.refs)
      ensures pool0.recording == old(pool1.recording)
      ensures pool0.executing == {} && pool1.executing == {}
      ensures inFlight == map[] && fences == old(fences) && pendingSubmits == []
    {
      pool0, pool1 := pool1, pool0;
      pool0.Reset();
    }

    /** How Draw begins a frame on this queue: wait for every fence of its sync info, forget them, swap and reset. */
    method BeginFrame()
      requires Valid() && pendingSubmits == []
      requires forall b | b in pool1.refs :: b in pool1.begun
      modifies this, pool0, pool1
      ensures Valid() && pool0 == old(pool1) && pool1 == old(pool0) && pendingSubmits == []
      ensures fences == [] && inFlight == map[] && pool0.executing == {} && pool1.executing == {}
      ensures pool0.begun == old(pool1.begun) && pool0.refs == old(pool1.refs) && pool0.recording == old(pool1.recording)
      ensures pool1.begun == old(pool0.begun) && pool1.refs == old(pool0.refs) && pool1.recording == old(pool0.recording)
    {
      var i := 0;
      while i < |fences|
        invariant Valid() && i <= |fences|
        invariant forall f | f in inFlight :: f in fences[i..]
        modifies this`inFlight, pool0`executing, pool1`executing
      {
        assert fences[i..] == [fences[i]] + fences[i + 1..];
        Complete(fences[i]);
        i := i + 1;
      }
      fences, maxTimelineValue := [], 0;
      SwapAndResetPool();
    }

    /** The dequeues of SubmitCallbacks by one thread alone. */
    method Dequeue(reported: nat) returns (handed: seq<Timeline.Item>, waiting: seq<Timeline.Item>)
      modifies this`timelineCallbacks
      ensures handed == Passed(old(timelineCallbacks), reported)
      ensures waiting == Kept(old(timelineCallbacks), reported) && timelineCallbacks == []
    {
      ghost var all := timelineCallbacks;
      ghost var taken := 0;
      handed, waiting := [], [];
      while timelineCallbacks != []
        invariant taken <= |all| && timelineCallbacks == all[taken..]
        invariant waiting == Kept(all[..taken], reported) && handed == Passed(all[..taken], reported)
        decreases |timelineCallbacks|
      {
        assert all[..taken + 1] == all[..taken] + [all[taken]];
        var item := timelineCallbacks[0];
        timelineCallbacks := timelineCallbacks[1..];
        if reported <= item.value {
          waiting := waiting + [item];
        } else {
          handed := handed + [item];
        }
        taken := taken + 1;
      }
      assert all[..taken] == all;
    }

    /** SubmitCallbacks: exactly the entries whose value has been passed are handed over. */
    method SubmitCallbacks(reported: nat) returns (handed: seq<Timeline.Item>)
      requires Valid()
      modifies this`timelineCallbacks
      ensures Valid()
      ensures handed == Passed(old(timelineCallbacks), reported)
      ensures timelineCallbacks == Kept(old(timelineCallbacks), reported)
    {
      KeptReached(timelineCallbacks, reported);
      var waiting;
      handed, waiting := Dequeue(reported);
      timelineCallbacks := timelineCallbacks + waiting;
    }

    /** A submission and then the drain of the application's destructor, with the queue's own maximum: the entry of
        the last submission stays queued exactly when its batch reaches that maximum, and is handed over otherwise. */
    method SubmitAndShutDown() returns (handed: seq<Timeline.Item>)
      requires Valid() && pendingSubmits != []
      modifies this
      ensures Valid()
      ensures var batch := old(pendingSubmits);
              var last := Items(batch, |batch|)[|batch| - 1];
              && (last in timelineCallbacks <==> old(maxTimelineValue) <= RunningMax(batch, |batch|))
              && (last in handed <==> RunningMax(batch, |batch|) < old(maxTimelineValue))
    {
      ghost var batch := pendingSubmits;
      ghost var last := Items(batch, |batch|)[|batch| - 1];
      Submit();
      KeptOrPassed(timelineCallbacks, maxTimelineValue, last);
      handed := SubmitCallbacks(maxTimelineValue);
    }
  }

  // ----- Frames

  /** What the application does with a queue within a frame. A scope it has been given is held until it is released;
      held ones are named by their place. */
  datatype Operation<D> =
    | Hold(desc: D)                                        // Commands
    | EndHeld(i: nat)                                      // End of a held scope's buffer
    | Release(i: nat)                                      // a held scope is dropped
    | Enqueue(tasks: seq<nat>, signalValues: seq<nat>)     // EnqueueSubmit
    | SubmitNow
    | Drain(reported: nat)                                 // SubmitCallbacks
    | Completion(fence: nat)                               // the device finishes a submission

  /** The pool's own scope is one of a buffer begun since the last submission. */
  ghost predicate OwnBegun<D>(p: Pool.CommandPool<D>)
    reads p
  {
    p.recording.Some? ==> p.recording.value.buffer in p.begun
  }

  /** The application holds exactly these scopes, all of the pool in use. */
  ghost predicate Holds<D>(q: Queue<D>, held: seq<Pool.Buffer>)
    reads q, q.pool0, q.pool1
  {
    && q.Valid() && OwnBegun(q.pool0) && OwnBegun(q.pool1)
    && Pool.ScopesAre(q.pool0.recording, q.pool0.refs, held)
    && Pool.ScopesAre(q.pool1.recording, q.pool1.refs, [])
  }

  /** What the code demands of the application: to end what is recorded, once, and before it is submitted, which
      signals something. */
  predicate Allowed<D>(q: Queue<D>, held: seq<Pool.Buffer>, op: Operation<D>)
    reads q, q.pool0
  {
    match op
    case EndHeld(i) => i < |held| && Pool.Records(q.pool0.pending, held[i])
    case Release(i) => i < |held|
    case Enqueue(_, signalValues) => signalValues != [] && Pool.NoneRecorded(q.pool0.pending, held)
    case _ => true
  }

  method HoldScope<D(==)>(q: Queue<D>, held: seq<Pool.Buffer>, desc: D) returns (more: seq<Pool.Buffer>)
    requires Holds(q, held)
    modifies q.pool0
    ensures |more| == |held| + 1 && more[..|held|] == held && Holds(q, more)
    ensures old(q.pool0.recording) == None ==> Pool.Records(q.pool0.pending, more[|held|])
    ensures more[|held|] in q.pool0.begun
  {
    var p := q.pool0;
    ghost var refs, recording := p.refs, p.recording;
    var scope := p.Commands(desc);
    if recording.Some? && recording.value.desc == desc {
      Pool.ScopesCopy(refs, recording, scope, held);
    } else {
      Pool.ScopesNew(refs, recording, scope, held);
    }
    more := held + [scope.buffer];
  }

  method EndScope<D(==)>(q: Queue<D>, held: seq<Pool.Buffer>, i: nat)
    requires Holds(q, held) && i < |held| && Pool.Records(q.pool0.pending, held[i])
    modifies q.pool0`pending
    ensures Holds(q, held) && !Pool.Records(q.pool0.pending, held[i])
  {
    q.pool0.End(held[i]);
  }

  method ReleaseScope<D(==)>(q: Queue<D>, held: seq<Pool.Buffer>, i: nat) returns (rest: seq<Pool.Buffer>)
    requires Holds(q, held) && i < |held|
    modifies q.pool0`pending, q.pool0`refs
    ensures rest == held[..i] + held[i + 1..] && Holds(q, rest)
  {
    Pool.ScopesDropped(q.pool0.refs, q.pool0.recording, held, i);
    q.pool0.Drop(held[i]);
    rest := held[..i] + held[i + 1..];
  }

  /** A submission with scopes still held, as long as their buffers have been ended. */
  method EnqueueHeld<D(==)>(q: Queue<D>, held: seq<Pool.Buffer>, tasks: seq<nat>, signalValues: seq<nat>)
    requires Holds(q, held) && Pool.NoneRecorded(q.pool0.pending, held) && signalValues != []
    modifies q, q.pool0
    ensures Holds(q, held) && q.pool0 == old(q.pool0) && q.pool1 == old(q.pool1) && q.pool0.recording == None
    ensures |q.pendingSubmits| == |old(q.pendingSubmits)| + 1
    ensures q.pendingSubmits[|old(q.pendingSubmits)|].buffers == old(q.pool0.begun) && q.fences == old(q.fences)
  {
    var callbacks := seq(|tasks|, i requires 0 <= i < |tasks| => Timeline.Callback(tasks[i], MaxOf(signalValues)));
    Pool.ScopesRecords(q.pool0.pending, q.pool0.recording, q.pool0.refs, held);
    Pool.ScopesReleased(q.pool0.refs, q.pool0.recording, held);
    q.EnqueueSubmit(callbacks, signalValues);
  }

  /** One operation, if it is allowed. */
  method Operate<D(==)>(q: Queue<D>, held: seq<Pool.Buffer>, op: Operation<D>) returns (now: seq<Pool.Buffer>, ok: bool)
    requires Holds(q, held)
    modifies q, q.pool0, q.pool1
    ensures Holds(q, now) && q.pool0 == old(q.pool0) && q.pool1 == old(q.pool1)
    ensures ok <==> old(Allowed(q, held, op))
    ensures !ok ==> now == held && !Allowed(q, held, op)
  {
    now, ok := held, Allowed(q, held, op);
    if ok {
      match op
      case Hold(desc) => now := HoldScope(q, held, desc);
      case EndHeld(i) => EndScope(q, held, i);
      case Release(i) => now := ReleaseScope(q, held, i);
      case Enqueue(tasks, signalValues) => EnqueueHeld(q, held, tasks, signalValues);
      case SubmitNow => q.Submit();
      case Drain(reported) => var _ := q.SubmitCallbacks(reported);
      case Completion(fence) => q.Complete(fence);
    }
  }

  /** Without held scopes the pool that comes into use has none but its own, of a buffer not yet submitted. */
  lemma OwnScopesBegun<D>(p: Pool.CommandPool<D>)
    requires p.Valid() && OwnBegun(p) && Pool.ScopesAre(p.recording, p.refs, [])
    ensures forall b | b in p.refs :: b in p.begun
  {
    forall b | b in p.refs ensures b in p.begun {
      assert Pool.RefCount(p.refs, b) == Pool.OwnCount(p.recording, b) + Pool.HeldCount([], b);
    }
  }

  method StartFrame<D(==)>(q: Queue<D>)
    requires Holds(q, []) && q.pendingSubmits == []
    modifies q, q.pool0, q.pool1
    ensures Holds(q, []) && q.pendingSubmits == [] && q.pool0 == old(q.pool1) && q.pool1 == old(q.pool0)
    ensures q.pool0.recording == old(q.pool1.recording) && q.pool0.begun == old(q.pool1.begun)
    ensures q.pool1.recording == old(q.pool0.recording)
    ensures q.fences == [] && q.inFlight == map[] && q.pool0.executing == {} && q.pool1.executing == {}
  {
    OwnScopesBegun(q.pool1);
    q.BeginFrame();
  }

  /** Where a frame stopped the application has done what it may not: the operation is not allowed in the present
      state, or the frame has ended with scopes still held. */
  predicate Stopped<D>(q: Queue<D>, held: seq<Pool.Buffer>, operations: seq<Operation<D>>, at: nat)
    reads q, q.pool0
  {
    if at < |operations| then !Allowed(q, held, operations[at]) else at == |operations| && held != []
  }

  /** A frame: its operations up to the first one that is not allowed, and the submission at its end, before which
      all scopes have been released. */
  method RunFrame<D(==)>(q: Queue<D>, operations: seq<Operation<D>>) returns (held: seq<Pool.Buffer>, at: nat, ok: bool)
    requires Holds(q, []) && q.pendingSubmits == []
    modifies q, q.pool0, q.pool1
    ensures Holds(q, held) && q.pool0 == old(q.pool1) && q.pool1 == old(q.pool0)
    ensures if ok then held == [] && q.pendingSubmits == [] else Stopped(q, held, operations, at)
  {
    StartFrame(q);
    held, at := [], 0;
    while at < |operations|
      invariant at <= |operations| && Holds(q, held) && q.pool0 == old(q.pool1) && q.pool1 == old(q.pool0)
    {
      held, ok := Operate(q, held, operations[at]);
      if !ok {
        return;
      }
      at := at + 1;
    }
    q.Submit();
    ok := held == [];
  }

  /** Every sequence of frames, up to the first operation that the application may not do, meets every demand on the
      way: no buffer is begun or reset that the device may still execute, no head wraps, nothing is submitted while
      it is recorded. */
  method RunFrames<D(==)>(q: Queue<D>, frames: seq<seq<Operation<D>>>) returns (f: nat, held: seq<Pool.Buffer>, at: nat)
    requires Holds(q, []) && q.pendingSubmits == []
    modifies q, q.pool0, q.pool1
    ensures Holds(q, held) && f <= |frames|
    ensures if f == |frames| then held == [] && q.pendingSubmits == [] else Stopped(q, held, frames[f], at)
  {
    f, held, at := 0, [], 0;
    while f < |frames|
      invariant f <= |frames| && Holds(q, []) && q.pendingSubmits == [] && held == []
      invariant {q.pool0, q.pool1} == {old(q.pool0), old(q.pool1)}
    {
      var ok;
      held, at, ok := RunFrame(q, frames[f]);
      if !ok {
        return;
      }
      f := f + 1;
    }
  }

  /** Recording with a scope that is ended by hand. */
  method HoldAndEnd<D(==)>(q: Queue<D>, desc: D) returns (held: seq<Pool.Buffer>)
    requires Holds(q, []) && q.pool0.recording == None
    modifies q.pool0
    ensures Holds(q, held) && |held| == 1 && Pool.NoneRecorded(q.pool0.pending, held) && held[0] in q.pool0.begun
  {
    held := HoldScope(q, [], desc);
    EndScope(q, held, 0);
  }

  lemma OneReleased(held: seq<Pool.Buffer>)
    requires |held| == 1
    ensures held[..0] + held[1..] == []
  {
  }

  /** The part of the application's Draw after the frame has begun: the scope is ended by hand, and is still alive
      while its buffer is submitted. */
  method DrawRest<D(==)>(q: Queue<D>, desc: D, tasks: seq<nat>, signalValues: seq<nat>)
    requires Holds(q, []) && q.pool0.recording == None && signalValues != []
    modifies q, q.pool0
    ensures Holds(q, []) && q.pendingSubmits == [] && q.pool0 == old(q.pool0) && q.pool1 == old(q.pool1)
    ensures q.pool0.recording == None && |q.fences| == |old(q.fences)| + 1
  {
    var held := HoldAndEnd(q, desc);
    EnqueueHeld(q, held, tasks, signalValues);
    q.Submit();
    OneReleased(held);
    held := ReleaseScope(q, held, 0);
  }

  /** The frame of Draw on one queue. */
  method DrawFrame<D(==)>(q: Queue<D>, desc: D, tasks: seq<nat>, signalValues: seq<nat>)
    requires Holds(q, []) && q.pendingSubmits == [] && q.pool1.recording == None && signalValues != []
    modifies q, q.pool0, q.pool1
    ensures Holds(q, []) && q.pendingSubmits == [] && q.pool0 == old(q.pool1) && q.pool1 == old(q.pool0)
    ensures q.pool0.recording == None && q.pool1.recording == old(q.pool0.recording) && |q.fences| == 1
  {
    StartFrame(q);
    DrawRest(q, desc, tasks, signalValues);
  }

  datatype Drawing<D> = Drawing(desc: D, tasks: seq<nat>, signalValues: seq<nat>)

  /** Any number of such frames, one after the other. */
  method DrawFrames<D(==)>(q: Queue<D>, drawings: seq<Drawing<D>>)
    requires Holds(q, []) && q.pendingSubmits == [] && q.pool0.recording == q.pool1.recording == None
    requires forall i | 0 <= i < |drawings| :: drawings[i].signalValues != []
    modifies q, q.pool0, q.pool1
    ensures Holds(q, []) && q.pendingSubmits == [] && q.pool0.recording == q.pool1.recording == None
  {
    var i := 0;
    while i < |drawings|
      invariant i <= |drawings| && Holds(q, []) && q.pendingSubmits == []
      invariant q.pool0.recording == q.pool1.recording == None
      invariant {q.pool0, q.pool1} == {old(q.pool0), old(q.pool1)}
    {
      DrawFrame(q, drawings[i].desc, drawings[i].tasks, drawings[i].signalValues);
      i := i + 1;
    }
  }
}
