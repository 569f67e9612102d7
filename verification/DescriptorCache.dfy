/** The cached descriptor sets of src/rhi/vulkan/pipeline.*: threads that bind a set
    (Pipeline::BindDescriptorSetAuto) against threads that change its data (SetDescriptorData), over the
    upgradable lock.

    The binding data is represented by a version number, raised by every SetDescriptorData; version 0 is the
    empty data a pipeline starts with, and also stands for what a set holds that was never written. */
module DescriptorCache {
  import Lock = UpgradableLock

  const CAPACITY := 16

  type ThreadId = Lock.ThreadId

  datatype Status = Dirty | Ready

  /** What a set was written from: the version of the data and of the update template. */
  datatype Content = Content(data: nat, templ: nat)

  /** A set is named by the array it lives in, counted from the first one created, and its index there. */
  datatype Slot = Slot(block: nat, index: nat)

  /** A thread inside one of the two operations.  stale records that the exchange of the dirty flag failed
      spuriously although the flag was dirty. */
  datatype Phase =
    | Idle
    | HasUpgrade                // after lock_upgrade
    | MustRefresh               // the exchange Dirty -> Ready succeeded
    | Refreshing                // after unlock_upgrade_and_lock
    | Refreshed                 // after InternalUpdateDescriptorSet
    | Downgrading               // inside unlock_and_lock_shared
    | SkipsRefresh(stale: bool) // the exchange failed
    | Reading(stale: bool)      // holds the shared lock, about to bind
    | Bound(stale: bool)        // has bound, about to unlock
    | SetLocked                 // SetDescriptorData, holding the lock
    | SetWritten                // has changed the data
    | SetFlagged                // has stored kDirty
    | SetTemplated              // has rebuilt the template

  function LockPc(p: Phase): Lock.Pc {
    match p
    case Idle => Lock.Idle
    case HasUpgrade => Lock.Upgrader
    case MustRefresh => Lock.Upgrader
    case SkipsRefresh(_) => Lock.Upgrader
    case Downgrading => Lock.WriterToShared
    case Reading(_) => Lock.Shared
    case Bound(_) => Lock.Shared
    case _ => Lock.Writer
  }

  /** list holds the current index of every set array, newest first. */
  datatype State = State(
    word: Lock.Word,
    threads: map<ThreadId, Phase>,
    flag: Status,
    data: nat,
    templ: nat,
    list: seq<nat>,
    contents: map<Slot, Content>,
    bound: set<Slot>)

  datatype Action =
    | LockUpgrade
    | Exchange(spurious: bool)
    | UpgradeToWriter(spurious: bool)
    | Refresh
    | DowngradeAdd
    | DowngradeClear
    | UpgradeToShared
    | Bind
    | UnlockShared
    | LockExclusive(spurious: bool)
    | WriteData
    | StoreDirty
    | UpdateTemplate
    | Unlock

  datatype LockOp = NoLockOp | LockOp(op: Lock.Op)

  function LockOpOf(a: Action): LockOp {
    match a
    case LockUpgrade => LockOp(Lock.TryLockUpgrade)
    case UpgradeToWriter(spurious) => LockOp(Lock.TryUpgradeToWriter(spurious))
    case DowngradeAdd => LockOp(Lock.WriterAddShared)
    case DowngradeClear => LockOp(Lock.WriterClearToShared)
    case UpgradeToShared => LockOp(Lock.UpgradeToShared)
    case UnlockShared => LockOp(Lock.UnlockShared)
    case LockExclusive(spurious) => LockOp(Lock.TryLock(spurious))
    case Unlock => LockOp(Lock.Unlock)
    case _ => NoLockOp
  }

  predicate Starts(p: Phase, a: Action) {
    match a
    case LockUpgrade => p.Idle?
    case Exchange(_) => p.HasUpgrade?
    case UpgradeToWriter(_) => p.MustRefresh?
    case Refresh => p.Refreshing?
    case DowngradeAdd => p.Refreshed?
    case DowngradeClear => p.Downgrading?
    case UpgradeToShared => p.SkipsRefresh?
    case Bind => p.Reading?
    case UnlockShared => p.Bound?
    case LockExclusive(_) => p.Idle?
    case WriteData => p.SetLocked?
    case StoreDirty => p.SetWritten?
    case UpdateTemplate => p.SetFlagged?
    case Unlock => p.SetTemplated?
  }

  predicate Enabled(s: State, t: ThreadId, a: Action) {
    t in s.threads && Starts(s.threads[t], a) && s.list != []
  }

  /** The index a thread's next phase depends on: the value returned by its atomic. */
  function NextPhase(s: State, p: Phase, a: Action): Phase
    requires Starts(p, a)
  {
    match a
    case LockUpgrade => if Lock.NewPc(Lock.TryLockUpgrade, s.word).Upgrader? then HasUpgrade else Idle
    case Exchange(spurious) =>
      if s.flag.Dirty? && !spurious then MustRefresh else SkipsRefresh(s.flag.Dirty?)
    case UpgradeToWriter(spurious) =>
      if Lock.NewPc(Lock.TryUpgradeToWriter(spurious), s.word).Writer? then Refreshing else MustRefresh
    case Refresh => Refreshed
    case DowngradeAdd => Downgrading
    case DowngradeClear => Reading(false)
    case UpgradeToShared => Reading(p.stale)
    case Bind => Bound(p.stale)
    case UnlockShared => Idle
    case LockExclusive(spurious) => if Lock.NewPc(Lock.TryLock(spurious), s.word).Writer? then SetLocked else Idle
    case WriteData => SetWritten
    case StoreDirty => SetFlagged
    case UpdateTemplate => SetTemplated
    case Unlock => Idle
  }

  /** InternalUpdateDescriptorSet on the index list: a new array starts at ~0 in eight bits, so that the
      increment makes it 0. */
  function Advance(list: seq<nat>): (l: seq<nat>)
    ensures l != []
  {
    var grown := if list == [] || list[0] == CAPACITY - 1 then [255] + list else list;
    grown[0 := (grown[0] + 1) % 256]
  }

  function Front(list: seq<nat>): Slot
    requires list != []
  {
    Slot(|list| - 1, list[0])
  }

  function Apply(s: State, t: ThreadId, a: Action): State
    requires Enabled(s, t, a)
  {
    var op := LockOpOf(a);
    var s1 := s.(threads := s.threads[t := NextPhase(s, s.threads[t], a)],
                 word := if op.LockOp? then Lock.NewWord(op.op, s.word) else s.word);
    match a
    case Exchange(spurious) => if s.flag.Dirty? && !spurious then s1.(flag := Ready) else s1
    case Refresh =>
      var list := Advance(s.list);
      s1.(list := list, contents := s.contents[Front(list) := Content(s.data, s.templ)])
    case Bind => s1.(bound := s.bound + {Front(s.list)})
    case WriteData => s1.(data := s.data + 1)
    case StoreDirty => s1.(flag := Dirty)
    case UpdateTemplate => s1.(templ := s.data)
    case _ => s1
  }

  // ----- The lock underneath

  function Pcs(threads: map<ThreadId, Phase>): map<ThreadId, Lock.Pc> {
    map t | t in threads :: LockPc(threads[t])
  }

  function LockState(s: State): Lock.State { Lock.State(s.word, Pcs(s.threads), 0) }

  lemma PhaseLock(s: State, p: Phase, a: Action)
    requires Starts(p, a)
    ensures LockOpOf(a).LockOp? ==>
              LockPc(p) == Lock.Source(LockOpOf(a).op) && LockPc(NextPhase(s, p, a)) == Lock.NewPc(LockOpOf(a).op, s.word)
    ensures LockOpOf(a).NoLockOp? ==> LockPc(NextPhase(s, p, a)) == LockPc(p)
  {
  }

  lemma LockStep(s: State, t: ThreadId, a: Action)
    requires Enabled(s, t, a)
    ensures LockOpOf(a).LockOp? ==>
              var step := Lock.Atomic(t, LockOpOf(a).op);
              Lock.Enabled(LockState(s), step) && LockState(Apply(s, t, a)) == Lock.Apply(LockState(s), step)
    ensures LockOpOf(a).NoLockOp? ==> LockState(Apply(s, t, a)) == LockState(s)
  {
    var p := NextPhase(s, s.threads[t], a);
    PhaseLock(s, s.threads[t], a);
    assert Apply(s, t, a).threads == s.threads[t := p];
    assert Pcs(s.threads[t := p]) == Pcs(s.threads)[t := LockPc(p)];
  }

  // ----- What every run keeps

  function Written(s: State): Content
    requires s.list != []
  {
    if Front(s.list) in s.contents then s.contents[Front(s.list)] else Content(0, 0)
  }

  /** The set a reader would bind now holds the current data, copied by the current template. */
  predicate Current(s: State)
    requires s.list != []
  {
    Written(s) == Content(s.data, s.data)
  }

  /** The slot is not one that a later refresh writes. */
  predicate Behind(list: seq<nat>, slot: Slot)
    requires list != []
  {
    slot.block < |list| - 1 || (slot.block == |list| - 1 && slot.index <= list[0])
  }

  predicate PhaseAgrees(s: State, p: Phase)
    requires s.list != []
  {
    match p
    case MustRefresh => s.flag.Ready? && Written(s).data < s.data
    case Refreshing => s.flag.Ready? && Written(s).data < s.data
    case Refreshed => s.flag.Ready? && Current(s)
    case Downgrading => s.flag.Ready? && Current(s)
    case SkipsRefresh(stale) => if stale then Written(s).data < s.data else Current(s)
    case Reading(stale) => if stale then Written(s).data < s.data else Current(s)
    case Bound(stale) => if stale then Written(s).data < s.data else Current(s)
    case SetWritten => Written(s).data < s.data
    case SetFlagged => s.flag.Dirty?
    case SetTemplated => s.flag.Dirty?
    case _ => true
  }

  /** The owner has cleared the flag without having written the set yet, or changed the data without having
      set the flag yet. */
  predicate RefreshPending(s: State, o: Lock.Owner) {
    o.Thread? && o.t in s.threads &&
    (s.threads[o.t].MustRefresh? || s.threads[o.t].Refreshing? || s.threads[o.t].SetWritten?)
  }

  predicate TemplatePending(s: State, o: Lock.Owner) {
    o.Thread? && o.t in s.threads && (s.threads[o.t].SetWritten? || s.threads[o.t].SetFlagged?)
  }

  predicate LockInv(s: State, o: Lock.Owner) {
    && |s.threads| <= Lock.UNIT_LIMIT
    && Lock.Agrees(LockState(s), o)
    && Lock.ReadersExcluded(LockState(s))
  }

  predicate SlotInv(s: State) {
    && s.list != [] && s.list[0] < CAPACITY
    && forall slot | slot in s.contents.Keys + s.bound :: Behind(s.list, slot)
  }

  predicate DataInv(s: State, o: Lock.Owner)
    requires s.list != []
  {
    && Written(s).data <= s.data
    && (s.flag.Dirty? ==> Written(s).data < s.data)
    && (s.flag.Ready? ==> Current(s) || RefreshPending(s, o))
    && (s.templ == s.data || TemplatePending(s, o))
    && (forall t | t in s.threads :: PhaseAgrees(s, s.threads[t]))
  }

  predicate Inv(s: State, o: Lock.Owner) {
    LockInv(s, o) && SlotInv(s) && DataInv(s, o)
  }

  lemma SameThreads(threads: map<ThreadId, Phase>)
    ensures |Pcs(threads)| == |threads|
  {
    assert Pcs(threads).Keys == threads.Keys;
    assert |Pcs(threads)| == |Pcs(threads).Keys| && |threads| == |threads.Keys|;
  }

  /** At most one thread is upgrader or writer. */
  lemma OwnerOf(s: State, o: Lock.Owner, u: ThreadId)
    requires LockInv(s, o) && u in s.threads && Lock.Owns(LockPc(s.threads[u]))
    ensures o == Lock.Thread(u)
  {
    assert Lock.Owns(LockState(s).pcs[u]);
  }

  /** Beside a thread that holds the lock exclusively every other one is idle. */
  lemma WriterAlone(s: State, o: Lock.Owner, t: ThreadId, u: ThreadId)
    requires LockInv(s, o) && t in s.threads && u in s.threads && u != t
    requires Lock.CountsWriter(LockPc(s.threads[t]))
    ensures s.threads[u].Idle?
  {
    var l := LockState(s);
    OwnerOf(s, o, t);
    assert !l.pcs[u].Shared? && !Lock.Owns(l.pcs[u]);
  }

  lemma ThreadsKept(s: State, t: ThreadId, a: Action)
    requires Enabled(s, t, a)
    ensures |Apply(s, t, a).threads| == |s.threads|
  {
    assert Apply(s, t, a).threads.Keys == s.threads.Keys;
    assert |Apply(s, t, a).threads| == |Apply(s, t, a).threads.Keys|;
  }

  lemma LockKept(s: State, o: Lock.Owner, t: ThreadId, a: Action) returns (o': Lock.Owner)
    requires LockInv(s, o) && Enabled(s, t, a)
    ensures LockInv(Apply(s, t, a), o')
  {
    ThreadsKept(s, t, a);
    LockStep(s, t, a);
    match LockOpOf(a)
    case NoLockOp => o' := o;
    case LockOp(op) =>
      SameThreads(s.threads);
      o' := Lock.StepKeeps(LockState(s), o, Lock.Atomic(t, op));
      Lock.StepKeepsReadersExcluded(LockState(s), o, Lock.Atomic(t, op));
  }

  /** Every refresh writes a slot ahead of all earlier ones, at an index an array has. */
  lemma AdvanceMoves(list: seq<nat>)
    requires list != [] && list[0] < CAPACITY
    ensures Advance(list)[0] < CAPACITY
    ensures !Behind(list, Front(Advance(list)))
    ensures forall slot | Behind(list, slot) :: Behind(Advance(list), slot)
  {
    var l := Advance(list);
    assert if list[0] == CAPACITY - 1 then l[0] == 0 && |l| == |list| + 1 else l[0] == list[0] + 1 && |l| == |list|;
  }

  lemma SlotsKept(s: State, t: ThreadId, a: Action)
    requires SlotInv(s) && Enabled(s, t, a)
    ensures SlotInv(Apply(s, t, a))
    ensures !a.Refresh? ==> Written(Apply(s, t, a)) == Written(s)
    ensures a.Refresh? ==> Written(Apply(s, t, a)) == Content(s.data, s.templ)
  {
    AdvanceMoves(s.list);
  }

  lemma OthersKept(s: State, o: Lock.Owner, t: ThreadId, a: Action, u: ThreadId)
    requires Inv(s, o) && Enabled(s, t, a) && u in s.threads && u != t
    ensures Apply(s, t, a).list != [] && PhaseAgrees(Apply(s, t, a), s.threads[u])
  {
    SlotsKept(s, t, a);
    assert PhaseAgrees(s, s.threads[u]);
    if Lock.CountsWriter(LockPc(s.threads[t])) {
      WriterAlone(s, o, t, u);
    } else if Lock.Owns(LockPc(s.threads[t])) {
      OwnerOf(s, o, t);
      if Lock.Owns(LockPc(s.threads[u])) {
        OwnerOf(s, o, u);
      }
    }
  }

  lemma OwnKept(s: State, o: Lock.Owner, t: ThreadId, a: Action)
    requires Inv(s, o) && Enabled(s, t, a)
    ensures Apply(s, t, a).list != [] && PhaseAgrees(Apply(s, t, a), Apply(s, t, a).threads[t])
  {
    SlotsKept(s, t, a);
    assert PhaseAgrees(s, s.threads[t]);
    if Lock.Owns(LockPc(s.threads[t])) {
      OwnerOf(s, o, t);
    }
  }

  /** What a later step of the owner will settle stays with the owner until that step. */
  lemma PendingKept(s: State, o: Lock.Owner, t: ThreadId, a: Action, o': Lock.Owner)
    requires Enabled(s, t, a)
    requires var threads := Apply(s, t, a).threads; forall u | u in threads && Lock.Owns(LockPc(threads[u])) :: o' == Lock.Thread(u)
    ensures RefreshPending(s, o) ==> RefreshPending(Apply(s, t, a), o') || a.Refresh? || a.StoreDirty?
    ensures TemplatePending(s, o) ==> TemplatePending(Apply(s, t, a), o') || a.UpdateTemplate?
    ensures (a.Exchange? && s.flag.Dirty? && !a.spurious) || a.WriteData? ==> RefreshPending(Apply(s, t, a), o')
    ensures a.WriteData? ==> TemplatePending(Apply(s, t, a), o')
  {
    var threads := Apply(s, t, a).threads;
    assert Lock.Owns(LockPc(threads[t])) ==> o' == Lock.Thread(t);
  }

  /** At most one thread can settle what is pending after the step. */
  lemma OwnersAfter(s: State, t: ThreadId, a: Action, o': Lock.Owner)
    requires Enabled(s, t, a) && LockInv(Apply(s, t, a), o')
    ensures var threads := Apply(s, t, a).threads; forall u | u in threads && Lock.Owns(LockPc(threads[u])) :: o' == Lock.Thread(u)
  {
    var s' := Apply(s, t, a);
    forall u | u in s'.threads && Lock.Owns(LockPc(s'.threads[u])) ensures o' == Lock.Thread(u) {
      OwnerOf(s', o', u);
    }
  }

  lemma FlagKept(s: State, o: Lock.Owner, t: ThreadId, a: Action, o': Lock.Owner)
    requires Inv(s, o) && Enabled(s, t, a) && LockInv(Apply(s, t, a), o')
    ensures var s' := Apply(s, t, a);
            s'.list != []
            && Written(s').data <= s'.data
            && (s'.flag.Dirty? ==> Written(s').data < s'.data)
            && (s'.flag.Ready? ==> Current(s') || RefreshPending(s', o'))
            && (s'.templ == s'.data || TemplatePending(s', o'))
  {
    SlotsKept(s, t, a);
    OwnersAfter(s, t, a, o');
    PendingKept(s, o, t, a, o');
    assert PhaseAgrees(s, s.threads[t]);
    if a.Refresh? {
      OwnerOf(s, o, t);
    }
  }

  lemma StepKeeps(s: State, o: Lock.Owner, t: ThreadId, a: Action) returns (o': Lock.Owner)
    requires Inv(s, o) && Enabled(s, t, a)
    ensures Inv(Apply(s, t, a), o')
  {
    var s' := Apply(s, t, a);
    o' := LockKept(s, o, t, a);
    SlotsKept(s, t, a);
    FlagKept(s, o, t, a, o');
    forall u | u in s'.threads ensures PhaseAgrees(s', s'.threads[u]) {
      if u != t {
        OthersKept(s, o, t, a, u);
      } else {
        OwnKept(s, o, t, a);
      }
    }
  }

  // ----- Every run

  datatype Step = Step(t: ThreadId, a: Action)

  predicate Valid(s: State, run: seq<Step>)
    decreases |run|
  {
    run == [] || (Enabled(s, run[0].t, run[0].a) && Valid(Apply(s, run[0].t, run[0].a), run[1..]))
  }

  function Run(s: State, run: seq<Step>): State
    requires Valid(s, run)
    decreases |run|
  {
    if run == [] then s else Run(Apply(s, run[0].t, run[0].a), run[1..])
  }

  /** InternalPrepareDescriptorSets: one array whose index 0 was never written, and a ready flag. */
  predicate Initial(s: State) {
    && |s.threads| <= Lock.UNIT_LIMIT
    && (forall t | t in s.threads :: s.threads[t].Idle?)
    && s == State(0, s.threads, Ready, 0, 0, [0], map[], {})
  }

  lemma InitialInv(s: State)
    requires Initial(s)
    ensures Inv(s, Lock.Nobody)
  {
    Lock.InitialAgrees(LockState(s));
  }

  lemma {:induction false} RunKeeps(s: State, o: Lock.Owner, run: seq<Step>) returns (o': Lock.Owner)
    requires Inv(s, o) && Valid(s, run)
    ensures Inv(Run(s, run), o')
    decreases |run|
  {
    if run == [] {
      o' := o;
    } else {
      var next := StepKeeps(s, o, run[0].t, run[0].a);
      o' := RunKeeps(Apply(s, run[0].t, run[0].a), next, run[1..]);
    }
  }

  /** In every interleaving, the set a thread binds holds the current data, copied by the current template,
      exactly when the thread's exchange of a dirty flag did not fail spuriously. */
  lemma BoundSetIsCurrentExactly(s: State, run: seq<Step>, t: ThreadId)
    requires Initial(s) && Valid(s, run)
    requires Enabled(Run(s, run), t, Bind)
    ensures var e := Run(s, run);
            Current(e) <==> !e.threads[t].stale
  {
    InitialInv(s);
    var o := RunKeeps(s, Lock.Nobody, run);
    var e := Run(s, run);
    assert PhaseAgrees(e, e.threads[t]);
  }

  predicate NoSpuriousExchange(run: seq<Step>) {
    forall i | 0 <= i < |run| && run[i].a.Exchange? :: !run[i].a.spurious
  }

  predicate NobodyStale(s: State) {
    forall t | t in s.threads && (s.threads[t].SkipsRefresh? || s.threads[t].Reading? || s.threads[t].Bound?) :: !s.threads[t].stale
  }

  lemma {:induction false} NobodyStaleKept(s: State, run: seq<Step>)
    requires NobodyStale(s) && Valid(s, run) && NoSpuriousExchange(run)
    ensures NobodyStale(Run(s, run))
    decreases |run|
  {
    if run != [] {
      assert !(run[0].a.Exchange? && run[0].a.spurious);
      NobodyStaleKept(Apply(s, run[0].t, run[0].a), run[1..]);
    }
  }

  /** With an exchange that only fails on a ready flag, every bind is of the current data. */
  lemma BoundSetIsCurrent(s: State, run: seq<Step>, t: ThreadId)
    requires Initial(s) && Valid(s, run) && NoSpuriousExchange(run)
    requires Enabled(Run(s, run), t, Bind)
    ensures Current(Run(s, run))
  {
    NobodyStaleKept(s, run);
    BoundSetIsCurrentExactly(s, run, t);
  }

  lemma RunCons(s: State, t: ThreadId, a: Action, rest: seq<Step>)
    requires Enabled(s, t, a) && Valid(Apply(s, t, a), rest)
    ensures Valid(s, [Step(t, a)] + rest) && Run(s, [Step(t, a)] + rest) == Run(Apply(s, t, a), rest)
  {
    assert ([Step(t, a)] + rest)[1..] == rest;
  }

  /** One thread changes the data while no other one is active; then the run goes on. */
  lemma ChangedAlone(s: State, t: ThreadId, changed: State, rest: seq<Step>) returns (run: seq<Step>)
    requires Initial(s) && t in s.threads && Valid(changed, rest)
    requires changed == s.(threads := s.threads[t := SetTemplated], word := 1, flag := Dirty, data := 1, templ := 1)
    ensures Valid(s, run) && Run(s, run) == Run(changed, rest)
  {
    var s1 := Apply(s, t, LockExclusive(false));
    var s2 := Apply(s1, t, WriteData);
    var s3 := Apply(s2, t, StoreDirty);
    assert Apply(s3, t, UpdateTemplate).threads == s.threads[t := SetTemplated];
    run := rest;
    RunCons(s3, t, UpdateTemplate, run);
    run := [Step(t, UpdateTemplate)] + run;
    RunCons(s2, t, StoreDirty, run);
    run := [Step(t, StoreDirty)] + run;
    RunCons(s1, t, WriteData, run);
    run := [Step(t, WriteData)] + run;
    RunCons(s, t, LockExclusive(false), run);
    run := [Step(t, LockExclusive(false))] + run;
  }

  lemma ReadsStale(s: State, t: ThreadId) returns (run: seq<Step>)
    requires s.list != [] && t in s.threads && s.threads[t].SetTemplated? && s.word == 1 && s.flag.Dirty?
    ensures Valid(s, run) && Run(s, run) == s.(threads := s.threads[t := Reading(true)], word := Lock.READER)
  {
    var s1 := Apply(s, t, Unlock);
    var s2 := Apply(s1, t, LockUpgrade);
    var s3 := Apply(s2, t, Exchange(true));
    var s4 := Apply(s3, t, UpgradeToShared);
    run := [];
    RunCons(s3, t, UpgradeToShared, run);
    run := [Step(t, UpgradeToShared)] + run;
    RunCons(s2, t, Exchange(true), run);
    run := [Step(t, Exchange(true))] + run;
    RunCons(s1, t, LockUpgrade, run);
    run := [Step(t, LockUpgrade)] + run;
    RunCons(s, t, Unlock, run);
    run := [Step(t, Unlock)] + run;
    assert s4.threads == s.threads[t := Reading(true)];
  }

  /** The failing run: even one thread alone, having changed the data, binds a stale set when the weak exchange fails
      spuriously. */
  lemma SpuriousFailureBindsStale(s: State, t: ThreadId) returns (run: seq<Step>)
    requires Initial(s) && t in s.threads
    ensures Valid(s, run) && Enabled(Run(s, run), t, Bind) && !Current(Run(s, run))
  {
    var changed := s.(threads := s.threads[t := SetTemplated], word := 1, flag := Dirty, data := 1, templ := 1);
    var binding := ReadsStale(changed, t);
    run := ChangedAlone(s, t, changed, binding);
  }

  /** A slot ahead of the current one was neither written nor bound. */
  lemma AheadIsNew(s: State, slot: Slot)
    requires SlotInv(s) && !Behind(s.list, slot)
    ensures slot !in s.contents && slot !in s.bound
  {
    assert forall x | x in s.contents.Keys + s.bound :: Behind(s.list, x);
  }

  lemma RefresherSeesCurrent(s: State, o: Lock.Owner, t: ThreadId)
    requires Inv(s, o) && Enabled(s, t, Refresh)
    ensures s.templ == s.data
  {
    OwnerOf(s, o, t);
    assert !TemplatePending(s, o);
  }

  /** A refresh writes a slot that was neither written nor bound before, at an index below the capacity. */
  lemma RefreshWritesNewSlot(s: State, run: seq<Step>, t: ThreadId)
    requires Initial(s) && Valid(s, run) && Enabled(Run(s, run), t, Refresh)
    ensures var e := Run(s, run);
            var slot := Front(Advance(e.list));
            slot !in e.contents && slot !in e.bound && slot.index < CAPACITY
            && Apply(e, t, Refresh).contents == e.contents[slot := Content(e.data, e.data)]
  {
    InitialInv(s);
    var o := RunKeeps(s, Lock.Nobody, run);
    var e := Run(s, run);
    AdvanceMoves(e.list);
    AheadIsNew(e, Front(Advance(e.list)));
    RefresherSeesCurrent(e, o, t);
  }

  lemma StepLeavesBound(s: State, t: ThreadId, a: Action, slot: Slot)
    requires SlotInv(s) && Enabled(s, t, a) && slot in s.bound
    ensures var s' := Apply(s, t, a);
            slot in s'.bound && (slot in s'.contents <==> slot in s.contents)
            && (slot in s.contents ==> s'.contents[slot] == s.contents[slot])
  {
    AdvanceMoves(s.list);
    assert Behind(s.list, slot) by {
      assert slot in s.contents.Keys + s.bound;
    }
  }

  /** What a bound set holds is never changed again. */
  lemma {:induction false} BoundNeverRewritten(s: State, o: Lock.Owner, run: seq<Step>, slot: Slot)
    requires Inv(s, o) && Valid(s, run) && slot in s.bound
    ensures slot in Run(s, run).bound
    ensures slot in Run(s, run).contents <==> slot in s.contents
    ensures slot in s.contents ==> Run(s, run).contents[slot] == s.contents[slot]
    decreases |run|
  {
    if run != [] {
      var next := StepKeeps(s, o, run[0].t, run[0].a);
      StepLeavesBound(s, run[0].t, run[0].a, slot);
      BoundNeverRewritten(Apply(s, run[0].t, run[0].a), next, run[1..], slot);
    }
  }

  // ----- The set arrays as the source updates them

  lemma NextIndex(b: bv8)
    ensures (b + 1) as nat == (b as nat + 1) % 256
    ensures b == 15 <==> b as nat == CAPACITY - 1
  {
  }

  class DescriptorSetArrayList {
    var setIndices: seq<bv8> // front first
    ghost var contents: map<Slot, Content>

    ghost function Indices(): (l: seq<nat>)
      reads this
      ensures |l| == |setIndices|
    {
      seq(|setIndices|, i requires 0 <= i < |setIndices| reads this => setIndices[i] as nat)
    }

    constructor ()
      ensures Indices() == [0] && contents == map[]
    {
      setIndices := [0];
      contents := map[];
    }

    method InternalUpdateDescriptorSet(ghost data: nat, ghost templ: nat) returns (index: bv8)
      requires setIndices != [] ==> Indices()[0] < CAPACITY
      modifies this
      ensures Indices() == Advance(old(Indices()))
      ensures index as nat == Indices()[0] < CAPACITY
      ensures contents == old(contents)[Front(Indices()) := Content(data, templ)]
    {
      NextIndex(!0);
      if setIndices != [] { NextIndex(setIndices[0]); }
      var listIsEmpty := setIndices == [];
      var frontIsFull := if listIsEmpty then false else setIndices[0] == CAPACITY as bv8 - 1;
      if listIsEmpty || frontIsFull {
        setIndices := [!0] + setIndices;
      }
      index := setIndices[0] + 1;
      assert index < CAPACITY as bv8;
      setIndices := setIndices[0 := index];
      contents := contents[Slot(|setIndices| - 1, index as nat) := Content(data, templ)];
    }
  }
}
