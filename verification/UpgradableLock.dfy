/** The upgradable reader/writer lock of src/core/upgradablesharedmutex.*: one byte holding a
    reader count (units of 4), an Upgraded bit (2) and a Writer bit (1).

    Every atomic read-modify-write of the source is one step.  A thread is described by its
    program counter, so that operations made of two atomics can be interleaved with anything. */
module UpgradableLock {

  const READER := 4
  const UPGRADED := 2
  const WRITER := 1

  /** The bound on reader units that fit above the two flag bits. */
  const UNIT_LIMIT := 64

  type Word = w: int | 0 <= w < 256

  predicate WriterBit(w: Word) { w % 2 == 1 }

  predicate UpgradedBit(w: Word) { w % 4 >= 2 }

  predicate NoFlags(w: Word) { w % 4 == 0 }

  function FetchAdd(w: Word, d: int): Word { (w + d) % 256 }

  function FetchOrUpgraded(w: Word): Word { if UpgradedBit(w) then w else w + UPGRADED }

  function FetchAndNotFlags(w: Word): Word { w - w % 4 }

  /** Where a thread stands between two atomic steps. */
  datatype Pc =
    | Idle
    | FailedShared     // try_lock_shared added a unit, saw a flag, has not taken the unit back
    | Shared
    | Upgrader
    | Writer
    | WriterToShared   // unlock_and_lock_shared added its unit, has not cleared the flags
    | WriterToUpgrade  // unlock_and_lock_upgrade set Upgraded, has not subtracted Writer

  predicate CountsUnit(p: Pc) { p.FailedShared? || p.Shared? || p.WriterToShared? }

  predicate CountsWriter(p: Pc) { p.Writer? || p.WriterToShared? || p.WriterToUpgrade? }

  datatype Op =
    | TryLock(spurious: bool)
    | Unlock
    | TryLockShared
    | UndoShared
    | UnlockShared
    | WriterAddShared
    | WriterClearToShared
    | TryLockUpgrade
    | UnlockUpgrade
    | TryUpgradeToWriter(spurious: bool)
    | UpgradeToShared
    | WriterOrUpgraded
    | WriterSubToUpgrade

  /** The program counter from which an atomic is issued. */
  function Source(op: Op): Pc {
    match op
    case TryLock(_) => Idle
    case Unlock => Writer
    case TryLockShared => Idle
    case UndoShared => FailedShared
    case UnlockShared => Shared
    case WriterAddShared => Writer
    case WriterClearToShared => WriterToShared
    case TryLockUpgrade => Idle
    case UnlockUpgrade => Upgrader
    case TryUpgradeToWriter(_) => Upgrader
    case UpgradeToShared => Upgrader
    case WriterOrUpgraded => Writer
    case WriterSubToUpgrade => WriterToUpgrade
  }

  /** The word an atomic leaves behind. */
  function NewWord(op: Op, w: Word): Word {
    match op
    case TryLock(spurious) => if !spurious && w == 0 then WRITER else w
    case Unlock => FetchAndNotFlags(w)
    case TryLockShared => FetchAdd(w, READER)
    case UndoShared => FetchAdd(w, -READER)
    case UnlockShared => FetchAdd(w, -READER)
    case WriterAddShared => FetchAdd(w, READER)
    case WriterClearToShared => FetchAndNotFlags(w)
    case TryLockUpgrade => FetchOrUpgraded(w)
    case UnlockUpgrade => FetchAdd(w, -UPGRADED)
    case TryUpgradeToWriter(spurious) => if !spurious && w == UPGRADED then WRITER else w
    case UpgradeToShared => FetchAdd(w, READER - UPGRADED)
    case WriterOrUpgraded => FetchOrUpgraded(w)
    case WriterSubToUpgrade => FetchAdd(w, -WRITER)
  }

  /** What the issuing thread holds afterwards, decided by the value the atomic returned. */
  function NewPc(op: Op, w: Word): Pc {
    match op
    case TryLock(spurious) => if !spurious && w == 0 then Writer else Idle
    case Unlock => Idle
    case TryLockShared => if NoFlags(w) then Shared else FailedShared
    case UndoShared => Idle
    case UnlockShared => Idle
    case WriterAddShared => WriterToShared
    case WriterClearToShared => Shared
    case TryLockUpgrade => if NoFlags(w) then Upgrader else Idle
    case UnlockUpgrade => Idle
    case TryUpgradeToWriter(spurious) => if !spurious && w == UPGRADED then Writer else Upgrader
    case UpgradeToShared => Shared
    case WriterOrUpgraded => WriterToUpgrade
    case WriterSubToUpgrade => Upgrader
  }

  // ----- The object itself

  // The byte operations, read as arithmetic.

  lemma AddReaderOnByte(b: bv8)
    ensures (b + 4) as int == FetchAdd(b as int, READER)
  {
  }

  lemma AddReaderSubUpgradeOnByte(b: bv8)
    ensures (b + (4 - 2)) as int == FetchAdd(b as int, READER - UPGRADED)
  {
  }

  lemma SubReaderOnByte(b: bv8)
    ensures (b - 4) as int == FetchAdd(b as int, -READER)
  {
  }

  lemma SubUpgradeOnByte(b: bv8)
    ensures (b - 2) as int == FetchAdd(b as int, -UPGRADED)
  {
  }

  lemma SubWriterOnByte(b: bv8)
    ensures (b - 1) as int == FetchAdd(b as int, -WRITER)
  {
  }

  lemma OrUpgradedOnByte(b: bv8)
    ensures (b | 2) as int == FetchOrUpgraded(b as int)
  {
  }

  lemma ClearFlagsOnByte(b: bv8)
    ensures (b & !(1 | 2)) as int == FetchAndNotFlags(b as int)
  {
  }

  lemma TestFlagsOnByte(b: bv8)
    ensures b & (1 | 2) == 0 <==> NoFlags(b as int)
  {
  }

  lemma AddUndone(w: Word)
    ensures FetchAdd(FetchAdd(w, READER), -READER) == w
    ensures NewPc(TryLockShared, w).Shared? <==> NoFlags(w)
    ensures NewWord(TryLockShared, w) == FetchAdd(w, READER)
    ensures NewWord(UndoShared, FetchAdd(w, READER)) == w
  {
  }

  /** The mutex as the source has it: every method is one atomic on the byte. */
  class UpgradableSharedMutex {
    var myBits: bv8

    function Bits(): (w: Word)
      reads this
    {
      myBits as int
    }

    constructor ()
      ensures Bits() == 0
    {
      myBits := 0;
    }

    method InternalTryLock(expected: bv8, spurious: bool) returns (success: bool)
      requires expected == 0 || expected == 2
      modifies this
      ensures expected == 0 ==> Bits() == NewWord(TryLock(spurious), old(Bits())) && success == NewPc(TryLock(spurious), old(Bits())).Writer?
      ensures expected == 2 ==> Bits() == NewWord(TryUpgradeToWriter(spurious), old(Bits())) && success == NewPc(TryUpgradeToWriter(spurious), old(Bits())).Writer?
    {
      success := !spurious && myBits == expected;
      if success {
        myBits := 1;
      }
    }

    method FetchAndClearFlags()
      modifies this
      ensures Bits() == NewWord(Unlock, old(Bits())) == NewWord(WriterClearToShared, old(Bits()))
    {
      ClearFlagsOnByte(myBits);
      myBits := myBits & !(1 | 2);
    }

    method FetchAddReader() returns (admitted: bool)
      modifies this
      ensures Bits() == NewWord(TryLockShared, old(Bits())) == NewWord(WriterAddShared, old(Bits()))
      ensures admitted == NewPc(TryLockShared, old(Bits())).Shared?
    {
      TestFlagsOnByte(myBits);
      AddReaderOnByte(myBits);
      admitted := myBits & (1 | 2) == 0;
      myBits := myBits + 4;
    }

    method FetchSubReader()
      modifies this
      ensures Bits() == NewWord(UnlockShared, old(Bits())) == NewWord(UndoShared, old(Bits()))
    {
      SubReaderOnByte(myBits);
      myBits := myBits - 4;
    }

    method FetchOrUpgrade() returns (admitted: bool)
      modifies this
      ensures Bits() == NewWord(TryLockUpgrade, old(Bits())) == NewWord(WriterOrUpgraded, old(Bits()))
      ensures admitted == NewPc(TryLockUpgrade, old(Bits())).Upgrader?
    {
      TestFlagsOnByte(myBits);
      OrUpgradedOnByte(myBits);
      admitted := myBits & (1 | 2) == 0;
      myBits := myBits | 2;
    }

    method FetchSubUpgrade()
      modifies this
      ensures Bits() == NewWord(UnlockUpgrade, old(Bits()))
    {
      SubUpgradeOnByte(myBits);
      myBits := myBits - 2;
    }

    method FetchAddReaderSubUpgrade()
      modifies this
      ensures Bits() == NewWord(UpgradeToShared, old(Bits()))
    {
      AddReaderSubUpgradeOnByte(myBits);
      myBits := myBits + (4 - 2);
    }

    method FetchSubWriter()
      modifies this
      ensures Bits() == NewWord(WriterSubToUpgrade, old(Bits()))
    {
      SubWriterOnByte(myBits);
      myBits := myBits - 1;
    }

    /** try_lock_shared without interference: admitted exactly when no flag is set, and a failed attempt undoes
        itself, even where the count wraps. */
    method InternalTryLockShared() returns (success: bool)
      modifies this
      ensures success == NoFlags(old(Bits()))
      ensures Bits() == if success then FetchAdd(old(Bits()), READER) else old(Bits())
    {
      AddUndone(Bits());
      success := FetchAddReader();
      if !success {
        FetchSubReader();
      }
    }

    /** The downgrade to a reader: units and flags are what a writer that became a reader leaves. */
    method UnlockAndLockShared(ghost units: nat, ghost upgraded: bool)
      requires Bits() == Pack(units, upgraded, true)
      modifies this
      ensures Bits() == Pack(units + 1, false, false)
    {
      AddUnit(units, upgraded, true);
      FlagFields(units + 1, upgraded, true);
      var _ := FetchAddReader();
      FetchAndClearFlags();
    }

    /** The downgrade to an upgrader: the Upgraded bit may have been set by another thread's failed attempt. */
    method UnlockAndLockUpgrade(ghost units: nat, ghost upgraded: bool)
      requires Bits() == Pack(units, upgraded, true)
      modifies this
      ensures Bits() == Pack(units, true, false)
    {
      FlagFields(units, upgraded, true);
      FlagFields(units, true, true);
      var _ := FetchOrUpgrade();
      FetchSubWriter();
    }
  }

  // ----- All threads together

  type ThreadId = nat

  /** The lock, the program counter of every thread, and the data the lock guards. */
  datatype State = State(word: Word, pcs: map<ThreadId, Pc>, data: int)

  datatype Step = Atomic(t: ThreadId, op: Op) | Store(t: ThreadId, value: int)

  predicate Enabled(s: State, step: Step) {
    step.t in s.pcs &&
    match step
    case Atomic(t, op) => s.pcs[t] == Source(op)
    case Store(t, _) => s.pcs[t].Writer?
  }

  function Apply(s: State, step: Step): State
    requires Enabled(s, step)
  {
    match step
    case Atomic(t, op) => s.(word := NewWord(op, s.word), pcs := s.pcs[t := NewPc(op, s.word)])
    case Store(_, value) => s.(data := value)
  }

  predicate Valid(s: State, run: seq<Step>)
    decreases |run|
  {
    run == [] || (Enabled(s, run[0]) && Valid(Apply(s, run[0]), run[1..]))
  }

  function Run(s: State, run: seq<Step>): State
    requires Valid(s, run)
    decreases |run|
  {
    if run == [] then s else Run(Apply(s, run[0]), run[1..])
  }

  predicate Initial(s: State) {
    s.word == 0 && forall t | t in s.pcs :: s.pcs[t].Idle?
  }

  function Units(pcs: map<ThreadId, Pc>): set<ThreadId> { set t | t in pcs && CountsUnit(pcs[t]) }

  /** The byte for a number of reader units and the two flags; only six bits are left for the units. */
  function Pack(units: nat, upgraded: bool, writer: bool): (w: Word)
    ensures UpgradedBit(w) == upgraded && WriterBit(w) == writer
  {
    READER * (units % UNIT_LIMIT) + (if upgraded then UPGRADED else 0) + (if writer then WRITER else 0)
  }

  datatype Owner = Nobody | Thread(t: ThreadId)

  predicate Owns(p: Pc) { CountsWriter(p) || p.Upgrader? }

  /** o is the one thread that is writer or upgrader, if there is one. */
  predicate IsOwner(pcs: map<ThreadId, Pc>, o: Owner) {
    && (forall t | t in pcs && Owns(pcs[t]) :: o == Thread(t))
    && (o.Thread? ==> o.t in pcs && Owns(pcs[o.t]))
  }

  predicate WriterOwns(pcs: map<ThreadId, Pc>, o: Owner)
    requires IsOwner(pcs, o)
  {
    o.Thread? && CountsWriter(pcs[o.t])
  }

  /** What the byte says about the threads, however many there are: the unit count, the writer, and an
      Upgraded bit that is never set without somebody who will clear it. */
  predicate Agrees(s: State, o: Owner) {
    && IsOwner(s.pcs, o)
    && s.word == Pack(|Units(s.pcs)|, UpgradedBit(s.word), WriterOwns(s.pcs, o))
    && (UpgradedBit(s.word) ==> o.Thread?)
    && (o.Thread? && (s.pcs[o.t].Upgrader? || s.pcs[o.t].WriterToUpgrade?) ==> UpgradedBit(s.word))
  }

  function NewOwner(o: Owner, t: ThreadId, p: Pc): Owner {
    if Owns(p) then Thread(t) else if o == Thread(t) then Nobody else o
  }

  /** No thread holds a shared lock beside a writer. */
  predicate ReadersExcluded(s: State) {
    forall t, u | t in s.pcs && u in s.pcs && CountsWriter(s.pcs[t]) :: !s.pcs[u].Shared?
  }

  /** At most 63 units are held or in flight, in every state the run goes through. */
  predicate UnitsFit(s: State, run: seq<Step>)
    requires Valid(s, run)
    decreases |run|
  {
    |Units(s.pcs)| < UNIT_LIMIT && (run == [] || UnitsFit(Apply(s, run[0]), run[1..]))
  }

  lemma UnitsStep(pcs: map<ThreadId, Pc>, t: ThreadId, p: Pc)
    requires t in pcs
    ensures var pcs' := pcs[t := p];
            (CountsUnit(pcs[t]) ==> |Units(pcs)| > 0) &&
            |Units(pcs')| == |Units(pcs)| - (if CountsUnit(pcs[t]) then 1 else 0) + (if CountsUnit(p) then 1 else 0)
  {
    var rest := Units(pcs) - {t};
    assert Units(pcs) == if CountsUnit(pcs[t]) then rest + {t} else rest;
    assert Units(pcs[t := p]) == if CountsUnit(p) then rest + {t} else rest;
  }

  /** Each atomic acts on the three packed fields separately, given what its issuer relies on. */
  lemma NewWordFields(op: Op, units: nat, upgraded: bool, writer: bool)
    requires op.UnlockUpgrade? || op.UpgradeToShared? || op.TryUpgradeToWriter? ==> upgraded
    requires op.WriterSubToUpgrade? ==> writer
    requires CountsUnit(Source(op)) ==> units > 0
    ensures var w := Pack(units, upgraded, writer);
            var units' := units - (if CountsUnit(Source(op)) then 1 else 0) + (if CountsUnit(NewPc(op, w)) then 1 else 0);
            var upgraded' := match op
              case TryLockUpgrade => true
              case WriterOrUpgraded => true
              case Unlock => false
              case WriterClearToShared => false
              case UnlockUpgrade => false
              case UpgradeToShared => false
              case TryUpgradeToWriter(_) => !NewPc(op, w).Writer?
              case _ => upgraded;
            var writer' := match op
              case Unlock => false
              case WriterClearToShared => false
              case WriterSubToUpgrade => false
              case _ => writer || NewPc(op, w).Writer?;
            NewWord(op, w) == Pack(units', upgraded', writer')
  {
    match op
    case TryLockShared => AddUnit(units, upgraded, writer);
    case WriterAddShared => AddUnit(units, upgraded, writer);
    case UpgradeToShared => UpgradedToUnit(units, writer);
    case UndoShared => SubUnit(units - 1, upgraded, writer);
    case UnlockShared => SubUnit(units - 1, upgraded, writer);
    case _ => FlagFields(units, upgraded, writer);
  }

  /** The field of the units: one more, modulo 64. */
  lemma NextUnits(units: nat, r: nat)
    requires r == units % UNIT_LIMIT
    ensures (units + 1) % UNIT_LIMIT == if r == 63 then 0 else r + 1
  {
  }

  lemma AddUnit(units: nat, upgraded: bool, writer: bool)
    ensures FetchAdd(Pack(units, upgraded, writer), READER) == Pack(units + 1, upgraded, writer)
  {
    NextUnits(units, units % UNIT_LIMIT);
  }

  lemma SubUnit(units: nat, upgraded: bool, writer: bool)
    ensures FetchAdd(Pack(units + 1, upgraded, writer), -READER) == Pack(units, upgraded, writer)
  {
    NextUnits(units, units % UNIT_LIMIT);
  }

  lemma UpgradedToUnit(units: nat, writer: bool)
    ensures FetchAdd(Pack(units, true, writer), READER - UPGRADED) == Pack(units + 1, false, writer)
  {
    NextUnits(units, units % UNIT_LIMIT);
  }

  lemma FlagFields(units: nat, upgraded: bool, writer: bool)
    ensures FetchOrUpgraded(Pack(units, upgraded, writer)) == Pack(units, true, writer)
    ensures FetchAndNotFlags(Pack(units, upgraded, writer)) == Pack(units, false, false)
    ensures upgraded ==> FetchAdd(Pack(units, upgraded, writer), -UPGRADED) == Pack(units, false, writer)
    ensures writer ==> FetchAdd(Pack(units, upgraded, writer), -WRITER) == Pack(units, upgraded, false)
    ensures Pack(units, upgraded, writer) == 0 ==> Pack(units, false, true) == WRITER
    ensures Pack(units, upgraded, writer) == UPGRADED ==> Pack(units, false, true) == WRITER && !writer
  {
  }

  /** A thread becomes writer or upgrader only from a byte that shows no other one. */
  lemma StepKeepsOwner(s: State, o: Owner, t: ThreadId, op: Op)
    requires Agrees(s, o) && Enabled(s, Atomic(t, op))
    ensures Owns(s.pcs[t]) ==> o == Thread(t)
    ensures Owns(NewPc(op, s.word)) ==> o == Nobody || o == Thread(t)
    ensures IsOwner(s.pcs[t := NewPc(op, s.word)], NewOwner(o, t, NewPc(op, s.word)))
  {
    assert o.Thread? ==> WriterBit(s.word) || UpgradedBit(s.word);
  }

  lemma StepKeepsAgrees(s: State, o: Owner, t: ThreadId, op: Op)
    requires Agrees(s, o) && Enabled(s, Atomic(t, op))
    ensures Agrees(Apply(s, Atomic(t, op)), NewOwner(o, t, NewPc(op, s.word)))
  {
    StepKeepsOwner(s, o, t, op);
    UnitsStep(s.pcs, t, NewPc(op, s.word));
    NewWordFields(op, |Units(s.pcs)|, UpgradedBit(s.word), WriterOwns(s.pcs, o));
  }

  lemma StepKeeps(s: State, o: Owner, step: Step) returns (o': Owner)
    requires Agrees(s, o) && Enabled(s, step)
    ensures Agrees(Apply(s, step), o')
  {
    match step
    case Atomic(t, op) =>
      o' := NewOwner(o, t, NewPc(op, s.word));
      StepKeepsAgrees(s, o, t, op);
    case Store(_, _) => o' := o;
  }

  // ----- Every run

  lemma InitialAgrees(s: State)
    requires Initial(s)
    ensures Agrees(s, Nobody) && ReadersExcluded(s) && Units(s.pcs) == {}
  {
    assert Units(s.pcs) == {};
  }

  /** For any number of units, even past the bound, the byte is the packed count and flags. */
  lemma {:induction false} RunKeeps(s: State, o: Owner, run: seq<Step>) returns (o': Owner)
    requires Agrees(s, o) && Valid(s, run)
    ensures Agrees(Run(s, run), o')
    decreases |run|
  {
    if run == [] {
      o' := o;
    } else {
      var next := StepKeeps(s, o, run[0]);
      o' := RunKeeps(Apply(s, run[0]), next, run[1..]);
    }
  }

  /** When every thread is back to idle the byte is zero: no unit and no Upgraded bit is left behind. */
  lemma QuiescentWordIsZero(s: State, run: seq<Step>)
    requires Initial(s) && Valid(s, run)
    requires forall t | t in Run(s, run).pcs :: Run(s, run).pcs[t].Idle?
    ensures Run(s, run).word == 0
  {
    InitialAgrees(s);
    var _ := RunKeeps(s, Nobody, run);
    assert Units(Run(s, run).pcs) == {};
  }

  /** Writers and upgraders exclude each other. */
  predicate OwnersExclusive(s: State) {
    forall t, u | t in s.pcs && u in s.pcs && Owns(s.pcs[t]) && Owns(s.pcs[u]) :: t == u
  }

  lemma OwnersAlwaysExclusive(s: State, run: seq<Step>)
    requires Initial(s) && Valid(s, run)
    ensures OwnersExclusive(Run(s, run))
  {
    InitialAgrees(s);
    var _ := RunKeeps(s, Nobody, run);
  }

  lemma EmptyWordNoReader(s: State, o: Owner)
    requires Agrees(s, o) && s.word < READER && |Units(s.pcs)| < UNIT_LIMIT
    ensures forall t | t in s.pcs :: !s.pcs[t].Shared?
  {
    assert |Units(s.pcs)| == 0;
    forall t | t in s.pcs ensures !s.pcs[t].Shared? {
      assert t in Units(s.pcs) <==> CountsUnit(s.pcs[t]);
    }
  }

  /** A thread that issues an exchange counts no unit itself. */
  lemma IssuerOutside(s: State, step: Step)
    requires Enabled(s, step) && step.Atomic? && NewPc(step.op, s.word).Writer?
    ensures step.t !in Units(s.pcs) && |Units(s.pcs)| < |s.pcs|
  {
    UnitsBelow(s.pcs, step.t);
  }

  lemma UnitsBelow(pcs: map<ThreadId, Pc>, t: ThreadId)
    requires t in pcs && !CountsUnit(pcs[t])
    ensures |Units(pcs)| < |pcs|
  {
    SubsetSize(Units(pcs) + {t}, pcs.Keys);
  }

  lemma SubsetSize<T>(a: set<T>, b: set<T>)
    requires a <= b
    ensures |a| <= |b|
  {
    assert b == a + (b - a);
  }

  /** A step lets no writer in beside readers as long as an exchange is issued at 63 units at most. */
  lemma StepKeepsReadersExcluded(s: State, o: Owner, step: Step)
    requires Agrees(s, o) && ReadersExcluded(s) && Enabled(s, step)
    requires |Units(s.pcs)| < UNIT_LIMIT || |s.pcs| <= UNIT_LIMIT
    ensures ReadersExcluded(Apply(s, step))
  {
    match step
    case Store(_, _) =>
    case Atomic(t, op) =>
      if NewPc(op, s.word).Writer? {
        IssuerOutside(s, step);
        EmptyWordNoReader(s, o);
      } else if op.TryLockShared? && NoFlags(s.word) {
        assert !WriterBit(s.word);
      }
  }

  lemma {:induction false} RunKeepsReadersExcluded(s: State, o: Owner, run: seq<Step>)
    requires Agrees(s, o) && ReadersExcluded(s) && Valid(s, run)
    requires UnitsFit(s, run) || |s.pcs| <= UNIT_LIMIT
    ensures ReadersExcluded(Run(s, run))
    decreases |run|
  {
    if run != [] {
      var next := StepKeeps(s, o, run[0]);
      StepKeepsReadersExcluded(s, o, run[0]);
      SameThreads(s, run[0]);
      RunKeepsReadersExcluded(Apply(s, run[0]), next, run[1..]);
    }
  }

  lemma SameThreads(s: State, step: Step)
    requires Enabled(s, step)
    ensures |Apply(s, step).pcs| == |s.pcs|
  {
    assert Apply(s, step).pcs.Keys == s.pcs.Keys;
    assert |Apply(s, step).pcs| == |Apply(s, step).pcs.Keys|;
  }

  /** In every interleaving that keeps at most 63 units, and in every one of at most 64 threads, a writer has the
      lock to itself and there is at most one upgrader. */
  lemma MutualExclusion(s: State, run: seq<Step>)
    requires Initial(s) && Valid(s, run) && (UnitsFit(s, run) || |s.pcs| <= UNIT_LIMIT)
    ensures OwnersExclusive(Run(s, run)) && ReadersExcluded(Run(s, run))
  {
    InitialAgrees(s);
    OwnersAlwaysExclusive(s, run);
    RunKeepsReadersExcluded(s, Nobody, run);
  }

  // ----- The bound is tight

  lemma EmptyByte(units: nat, upgraded: bool, writer: bool)
    ensures Pack(units, upgraded, writer) == 0 <==> units % UNIT_LIMIT == 0 && !upgraded && !writer
  {
  }

  /** In every state any run reaches, an idle thread is granted the lock exactly when the number of units is a
      multiple of 64 and nobody is writer or upgrader. */
  lemma GrantedExactly(s: State, run: seq<Step>, t: ThreadId)
    requires Initial(s) && Valid(s, run) && Enabled(Run(s, run), Atomic(t, TryLock(false)))
    ensures var e := Run(s, run);
            Apply(e, Atomic(t, TryLock(false))).pcs[t].Writer?
            <==> |Units(e.pcs)| % UNIT_LIMIT == 0 && forall u | u in e.pcs :: !Owns(e.pcs[u])
  {
    InitialAgrees(s);
    var o := RunKeeps(s, Nobody, run);
    var e := Run(s, run);
    EmptyByte(|Units(e.pcs)|, UpgradedBit(e.word), WriterOwns(e.pcs, o));
    assert o.Thread? ==> Owns(e.pcs[o.t]);
  }

  lemma RunOne(s: State, step: Step)
    requires Enabled(s, step)
    ensures Valid(s, [step]) && Run(s, [step]) == Apply(s, step)
  {
    assert Run(Apply(s, step), []) == Apply(s, step);
  }

  lemma {:induction false} RunSplit(s: State, a: seq<Step>, b: seq<Step>)
    requires Valid(s, a) && Valid(Run(s, a), b)
    ensures Valid(s, a + b) && Run(s, a + b) == Run(Run(s, a), b)
    decreases |a|
  {
    if a == [] {
      assert a + b == b;
    } else {
      RunSplit(Apply(s, a[0]), a[1..], b);
      assert (a + b)[0] == a[0] && (a + b)[1..] == a[1..] + b;
    }
  }

  /** n of the threads hold a shared lock, the others are idle. */
  predicate Readers(s: State, readers: set<ThreadId>) {
    && readers <= s.pcs.Keys
    && s.word == Pack(|readers|, false, false)
    && forall t | t in s.pcs :: s.pcs[t] == if t in readers then Shared else Idle
  }

  /** One more reader enters. */
  lemma NextReader(s: State, readers: set<ThreadId>, t: ThreadId)
    requires Readers(s, readers) && t in s.pcs && t !in readers
    ensures Enabled(s, Atomic(t, TryLockShared)) && Readers(Apply(s, Atomic(t, TryLockShared)), readers + {t})
  {
    AddUnit(|readers|, false, false);
  }

  /** Any set of threads of a fresh lock can hold shared locks together. */
  lemma {:induction false} ReadersEnter(s: State, readers: set<ThreadId>) returns (run: seq<Step>)
    requires Initial(s) && readers <= s.pcs.Keys
    ensures Valid(s, run) && Readers(Run(s, run), readers) && Run(s, run).pcs.Keys == s.pcs.Keys
    decreases |readers|
  {
    if readers == {} {
      run := [];
    } else {
      var t :| t in readers;
      var before := ReadersEnter(s, readers - {t});
      var last := Atomic(t, TryLockShared);
      NextReader(Run(s, before), readers - {t}, t);
      assert readers - {t} + {t} == readers;
      RunOne(Run(s, before), last);
      RunSplit(s, before, [last]);
      run := before + [last];
    }
  }

  /** After any set of threads of a fresh lock have taken shared locks, another thread is granted the lock exactly
      when 64 divides their number. */
  lemma ReadersAdmitWriterExactly(s: State, readers: set<ThreadId>, t: ThreadId) returns (run: seq<Step>)
    requires Initial(s) && readers <= s.pcs.Keys && t in s.pcs.Keys - readers
    ensures Valid(s, run) && Readers(Run(s, run), readers) && Enabled(Run(s, run), Atomic(t, TryLock(false)))
    ensures Apply(Run(s, run), Atomic(t, TryLock(false))).pcs[t].Writer? <==> |readers| % UNIT_LIMIT == 0
  {
    run := ReadersEnter(s, readers);
    EmptyByte(|readers|, false, false);
  }

  lemma Among<T>(a: set<T>, n: nat) returns (b: set<T>)
    requires n <= |a|
    ensures b <= a && |b| == n
    decreases |a|
  {
    if n == |a| {
      b := a;
    } else {
      var x :| x in a;
      b := Among(a - {x}, n);
    }
  }

  /** With more than 64 threads there is a run that ends with a writer beside 64 readers. */
  lemma WriterBesideReaders(s: State) returns (run: seq<Step>)
    requires Initial(s) && |s.pcs| > UNIT_LIMIT
    ensures Valid(s, run) && !ReadersExcluded(Run(s, run))
  {
    var readers := Among(s.pcs.Keys, UNIT_LIMIT);
    assert |s.pcs.Keys| == |s.pcs|;
    assert s.pcs.Keys == readers + (s.pcs.Keys - readers);
    var t :| t in s.pcs.Keys - readers;
    var u :| u in readers;
    var before := ReadersEnter(s, readers);
    var last := Atomic(t, TryLock(false));
    RunOne(Run(s, before), last);
    RunSplit(s, before, [last]);
    run := before + [last];
    assert Run(s, run).pcs[t].Writer? && Run(s, run).pcs[u].Shared?;
  }

  /** A fresh lock keeps readers and writers apart in every run exactly when it has at most 64 threads. */
  lemma ExclusionExactly(s: State)
    requires Initial(s)
    ensures (forall run | Valid(s, run) :: ReadersExcluded(Run(s, run))) <==> |s.pcs| <= UNIT_LIMIT
  {
    if |s.pcs| <= UNIT_LIMIT {
      forall run | Valid(s, run) ensures ReadersExcluded(Run(s, run)) {
        MutualExclusion(s, run);
      }
    } else {
      var run := WriterBesideReaders(s);
    }
  }

  // ----- Downgrades

  /** The thread holds something no other writer may be admitted beside, and does not store itself. */
  predicate Protects(p: Pc) { p.Shared? || p.Upgrader? || p.WriterToShared? || p.WriterToUpgrade? }

  predicate StaysProtected(s: State, run: seq<Step>, t: ThreadId)
    requires Valid(s, run)
    decreases |run|
  {
    t in s.pcs && Protects(s.pcs[t]) && (run == [] || StaysProtected(Apply(s, run[0]), run[1..], t))
  }

  /** A downgrade leaves no gap: from its first atomic until the thread releases, nobody stores. */
  lemma {:induction false} DowngradeHasNoGap(s: State, o: Owner, run: seq<Step>, t: ThreadId)
    requires Agrees(s, o) && ReadersExcluded(s) && Valid(s, run) && UnitsFit(s, run)
    requires StaysProtected(s, run, t)
    ensures Run(s, run).data == s.data
    ensures forall u | u in Run(s, run).pcs :: !Run(s, run).pcs[u].Writer?
    decreases |run|
  {
    if run != [] {
      var next := StepKeeps(s, o, run[0]);
      StepKeepsReadersExcluded(s, o, run[0]);
      DowngradeHasNoGap(Apply(s, run[0]), next, run[1..], t);
    }
  }
}
