/** Host callbacks deferred until the device's timeline has passed: Submit and SubmitCallbacks of
    src/rhi/vulkan/queue.cpp. Any number of threads drain the concurrent queue while another one submits. */
module TimelineCallbacks {

  /** A callback task, tagged with the largest value its own submission signals. */
  datatype Callback = Callback(task: nat, signal: nat)

  /** An entry of myPendingSubmits. */
  datatype Pending = Pending(callbacks: seq<Callback>, timelineValue: nat)

  /** An entry of myTimelineCallbacks. */
  datatype Item = Item(callbacks: seq<Callback>, value: nat)

  /** A thread inside SubmitCallbacks: dequeuing, or putting the waiting entries back. */
  datatype Drain = Idle | Draining(reported: nat, waiting: seq<Item>) | Returning(waiting: seq<Item>)

  /** Callbacks handed to the executor, with the timeline value that was reported. */
  datatype Delivery = Delivery(callbacks: seq<Callback>, reported: nat)

  function Max(a: nat, b: nat): nat { if a < b then b else a }

  /** submitted counts how many pending entries Submit's loop has enqueued, highest is its running maximum. */
  datatype State = State(pending: seq<Pending>, submitted: nat, highest: nat, bag: seq<Item>, drains: seq<Drain>,
                         handed: seq<Delivery>, accepted: multiset<Callback>)

  // ----- The steps

  datatype Action =
    | Accept(entry: Pending)              // EnqueueSubmit with commands pending
    | SubmitOne                           // one round of Submit's first loop
    | SubmitDone                          // myPendingSubmits.clear()
    | Start(thread: nat, reported: nat)   // SubmitCallbacks begins
    | Take(thread: nat, k: nat)           // a dequeue that found entry k
    | Turn(thread: nat)                   // a dequeue that found nothing
    | Give(thread: nat)                   // one entry of enqueue_bulk
    | Leave(thread: nat)

  predicate IsDraining(s: State, t: nat) { t < |s.drains| && s.drains[t].Draining? }
  predicate IsReturning(s: State, t: nat) { t < |s.drains| && s.drains[t].Returning? }

  predicate Enabled(s: State, a: Action) {
    match a
    case Accept(entry) => s.submitted == 0 && forall c | c in entry.callbacks :: c.signal <= entry.timelineValue
    case SubmitOne => s.submitted < |s.pending|
    case SubmitDone => s.submitted == |s.pending|
    case Start(t, _) => t < |s.drains| && s.drains[t].Idle?
    case Take(t, k) => IsDraining(s, t) && k < |s.bag|
    case Turn(t) => IsDraining(s, t)
    case Give(t) => IsReturning(s, t) && s.drains[t].waiting != []
    case Leave(t) => IsReturning(s, t) && s.drains[t].waiting == []
  }

  function Accepting(s: State, entry: Pending): State {
    s.(pending := s.pending + [entry], accepted := s.accepted + multiset(entry.callbacks))
  }

  function Submitting(s: State): State
    requires s.submitted < |s.pending|
  {
    var entry := s.pending[s.submitted];
    var highest := Max(s.highest, entry.timelineValue);
    s.(submitted := s.submitted + 1, highest := highest, bag := s.bag + [Item(entry.callbacks, highest)])
  }

  /** An entry whose value has not been passed waits; any other one is handed over. */
  function Taking(s: State, t: nat, k: nat): State
    requires IsDraining(s, t) && k < |s.bag|
  {
    var d, item := s.drains[t], s.bag[k];
    var rest := s.(bag := s.bag[..k] + s.bag[k + 1..]);
    if d.reported <= item.value
    then rest.(drains := s.drains[t := d.(waiting := d.waiting + [item])])
    else rest.(handed := s.handed + [Delivery(item.callbacks, d.reported)])
  }

  function Giving(s: State, t: nat): State
    requires IsReturning(s, t) && s.drains[t].waiting != []
  {
    var d := s.drains[t];
    s.(bag := s.bag + [d.waiting[0]], drains := s.drains[t := Returning(d.waiting[1..])])
  }

  function Apply(s: State, a: Action): State
    requires Enabled(s, a)
  {
    match a
    case Accept(entry) => Accepting(s, entry)
    case SubmitOne => Submitting(s)
    case SubmitDone => s.(pending := [], submitted := 0, highest := 0)
    case Start(t, reported) => s.(drains := s.drains[t := Draining(reported, [])])
    case Take(t, k) => Taking(s, t, k)
    case Turn(t) => s.(drains := s.drains[t := Returning(s.drains[t].waiting)])
    case Give(t) => Giving(s, t)
    case Leave(t) => s.(drains := s.drains[t := Idle])
  }

  function Initial(threads: nat): State { State([], 0, 0, [], seq(threads, _ => Idle), [], multiset{}) }

  predicate IsRun(s: State, actions: seq<Action>)
    decreases |actions|
  {
    actions == [] || (Enabled(s, actions[0]) && IsRun(Apply(s, actions[0]), actions[1..]))
  }

  function After(s: State, actions: seq<Action>): State
    requires IsRun(s, actions)
    decreases |actions|
  {
    if actions == [] then s else After(Apply(s, actions[0]), actions[1..])
  }

  // ----- Nothing lost, nothing doubled

  /** How often c occurs. */
  function Times(cs: seq<Callback>, c: Callback): nat { multiset(cs)[c] }

  function Pended(entries: seq<Pending>, c: Callback): nat {
    if entries == [] then 0 else Times(entries[0].callbacks, c) + Pended(entries[1..], c)
  }

  function Queued(items: seq<Item>, c: Callback): nat {
    if items == [] then 0 else Times(items[0].callbacks, c) + Queued(items[1..], c)
  }

  function Waiting(d: Drain): seq<Item> { if d.Idle? then [] else d.waiting }

  function Held(drains: seq<Drain>, c: Callback): nat {
    if drains == [] then 0 else Queued(Waiting(drains[0]), c) + Held(drains[1..], c)
  }

  function Handed(ds: seq<Delivery>, c: Callback): nat {
    if ds == [] then 0 else Handed(ds[..|ds| - 1], c) + Times(ds[|ds| - 1].callbacks, c)
  }

  /** Each acceptance of c is pending, queued, held by a draining thread, or handed over. */
  predicate Conserved(s: State, c: Callback) {
    && s.submitted <= |s.pending|
    && s.accepted[c] == Pended(s.pending[s.submitted..], c) + Queued(s.bag, c) + Held(s.drains, c) + Handed(s.handed, c)
  }

  lemma {:induction false} PendedPush(entries: seq<Pending>, entry: Pending, c: Callback)
    ensures Pended(entries + [entry], c) == Pended(entries, c) + Times(entry.callbacks, c)
  {
    if entries == [] {
      assert [entry][1..] == [];
      assert entries + [entry] == [entry];
    } else {
      PendedPush(entries[1..], entry, c);
      assert (entries + [entry])[1..] == entries[1..] + [entry];
    }
  }

  lemma {:induction false} QueuedTake(items: seq<Item>, k: nat, c: Callback)
    requires k < |items|
    ensures Queued(items, c) == Queued(items[..k] + items[k + 1..], c) + Times(items[k].callbacks, c)
  {
    var rest := items[..k] + items[k + 1..];
    if k == 0 {
      assert rest == items[1..];
    } else {
      QueuedTake(items[1..], k - 1, c);
      assert rest[1..] == items[1..][..k - 1] + items[1..][k..];
    }
  }

  lemma QueuedPush(items: seq<Item>, item: Item, c: Callback)
    ensures Queued(items + [item], c) == Queued(items, c) + Times(item.callbacks, c)
  {
    var more := items + [item];
    QueuedTake(more, |items|, c);
    assert more[..|items|] + more[|items| + 1..] == items;
  }

  /** Replacing one drain replaces what it holds. */
  lemma {:induction false} HeldUpdate(drains: seq<Drain>, t: nat, d: Drain, c: Callback)
    requires t < |drains|
    ensures Held(drains[t := d], c) + Queued(Waiting(drains[t]), c) == Held(drains, c) + Queued(Waiting(d), c)
  {
    if t == 0 {
      assert drains[t := d][1..] == drains[1..];
    } else {
      HeldUpdate(drains[1..], t - 1, d, c);
      assert drains[t := d][1..] == drains[1..][t - 1 := d];
    }
  }

  lemma HandedPush(ds: seq<Delivery>, d: Delivery, c: Callback)
    ensures Handed(ds + [d], c) == Handed(ds, c) + Times(d.callbacks, c)
  {
    assert (ds + [d])[..|ds|] == ds;
  }

  lemma AcceptConserves(s: State, entry: Pending, c: Callback)
    requires Conserved(s, c)
    ensures Conserved(Accepting(s, entry), c)
  {
    assert (s.pending + [entry])[s.submitted..] == s.pending[s.submitted..] + [entry];
    PendedPush(s.pending[s.submitted..], entry, c);
  }

  lemma SubmitConserves(s: State, c: Callback)
    requires Conserved(s, c) && s.submitted < |s.pending|
    ensures Conserved(Submitting(s), c)
  {
    var entry := s.pending[s.submitted];
    assert s.pending[s.submitted..][1..] == s.pending[s.submitted + 1..];
    QueuedPush(s.bag, Item(entry.callbacks, Max(s.highest, entry.timelineValue)), c);
  }

  lemma TakeConserves(s: State, t: nat, k: nat, c: Callback)
    requires Conserved(s, c) && IsDraining(s, t) && k < |s.bag|
    ensures Conserved(Taking(s, t, k), c)
  {
    var d, item := s.drains[t], s.bag[k];
    QueuedTake(s.bag, k, c);
    if d.reported <= item.value {
      HeldUpdate(s.drains, t, d.(waiting := d.waiting + [item]), c);
      QueuedPush(d.waiting, item, c);
    } else {
      HandedPush(s.handed, Delivery(item.callbacks, d.reported), c);
    }
  }

  lemma GiveConserves(s: State, t: nat, c: Callback)
    requires Conserved(s, c) && IsReturning(s, t) && s.drains[t].waiting != []
    ensures Conserved(Giving(s, t), c)
  {
    var d := s.drains[t];
    QueuedPush(s.bag, d.waiting[0], c);
    HeldUpdate(s.drains, t, Returning(d.waiting[1..]), c);
  }

  lemma DrainConserves(s: State, t: nat, d: Drain, c: Callback)
    requires Conserved(s, c) && t < |s.drains| && Waiting(s.drains[t]) == Waiting(d)
    ensures Conserved(s.(drains := s.drains[t := d]), c)
  {
    HeldUpdate(s.drains, t, d, c);
  }

  lemma StepConserves(s: State, a: Action, c: Callback)
    requires Conserved(s, c) && Enabled(s, a)
    ensures Conserved(Apply(s, a), c)
  {
    match a
    case Accept(entry) => AcceptConserves(s, entry, c);
    case SubmitOne => SubmitConserves(s, c);
    case SubmitDone =>
    case Start(t, reported) => DrainConserves(s, t, Draining(reported, []), c);
    case Take(t, k) => TakeConserves(s, t, k, c);
    case Turn(t) => DrainConserves(s, t, Returning(s.drains[t].waiting), c);
    case Give(t) => GiveConserves(s, t, c);
    case Leave(t) => DrainConserves(s, t, Idle, c);
  }

  // ----- Handed over only when the timeline has passed

  predicate ItemReached(item: Item) { forall c | c in item.callbacks :: c.signal <= item.value }

  predicate AllReached(items: seq<Item>) { forall i | 0 <= i < |items| :: ItemReached(items[i]) }

  /** Every queued or held value is at least the callbacks' own signal value, and every delivery lies beyond it. */
  predicate Timely(s: State) {
    && (forall i | 0 <= i < |s.pending| :: forall c | c in s.pending[i].callbacks :: c.signal <= s.pending[i].timelineValue)
    && AllReached(s.bag)
    && (forall t | 0 <= t < |s.drains| :: AllReached(Waiting(s.drains[t])))
    && (forall i | 0 <= i < |s.handed| :: forall c | c in s.handed[i].callbacks :: c.signal < s.handed[i].reported)
  }

  lemma TakeTimely(s: State, t: nat, k: nat)
    requires Timely(s) && IsDraining(s, t) && k < |s.bag|
    ensures Timely(Taking(s, t, k))
  {
    assert ItemReached(s.bag[k]);
  }

  lemma StepTimely(s: State, a: Action)
    requires Timely(s) && Enabled(s, a)
    ensures Timely(Apply(s, a))
  {
    match a
    case Take(t, k) => TakeTimely(s, t, k);
    case Give(t) => assert AllReached(Waiting(s.drains[t]));
    case _ =>
  }

  lemma {:induction false} RunKeeps(s: State, actions: seq<Action>, c: Callback)
    requires Conserved(s, c) && Timely(s) && IsRun(s, actions)
    ensures Conserved(After(s, actions), c) && Timely(After(s, actions))
    decreases |actions|
  {
    if actions != [] {
      StepConserves(s, actions[0], c);
      StepTimely(s, actions[0]);
      RunKeeps(Apply(s, actions[0]), actions[1..], c);
    }
  }

  lemma {:induction false} IdleHoldsNothing(drains: seq<Drain>, c: Callback)
    requires forall t | 0 <= t < |drains| :: drains[t].Idle?
    ensures Held(drains, c) == 0
  {
    if drains != [] { IdleHoldsNothing(drains[1..], c); }
  }

  lemma InitialKeeps(threads: nat, c: Callback)
    ensures Conserved(Initial(threads), c) && Timely(Initial(threads))
  {
    IdleHoldsNothing(Initial(threads).drains, c);
  }

  /** In every run a callback is handed over at most as often as it was accepted, and those not handed over are all
      still pending, queued or held. */
  lemma NeitherLostNorDoubled(threads: nat, actions: seq<Action>, c: Callback)
    requires IsRun(Initial(threads), actions)
    ensures var s := After(Initial(threads), actions);
            && s.submitted <= |s.pending|
            && Handed(s.handed, c)
               == s.accepted[c] - Pended(s.pending[s.submitted..], c) - Queued(s.bag, c) - Held(s.drains, c)
  {
    InitialKeeps(threads, c);
    RunKeeps(Initial(threads), actions, c);
  }

  /** In every run a callback is handed over only when a value beyond its own submission's was reported. */
  lemma HandedAfterSignal(threads: nat, actions: seq<Action>, i: nat, c: Callback)
    requires IsRun(Initial(threads), actions)
    requires i < |After(Initial(threads), actions).handed| && c in After(Initial(threads), actions).handed[i].callbacks
    ensures c.signal < After(Initial(threads), actions).handed[i].reported
  {
    InitialKeeps(threads, c);
    RunKeeps(Initial(threads), actions, c);
  }
}
