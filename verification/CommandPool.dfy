/** Command buffer recycling: CommandBufferArray, CommandPool and CommandBufferAccessScope of src/rhi/command.h,
    src/rhi/command.inl and src/rhi/vulkan/command.cpp, for one level and with scoped begin and end. */
module CommandPool {
  import opened Options

  /** One command buffer: its array and its place in it. */
  datatype Buffer = Buffer(arr: nat, index: nat)

  /** head is a 2-bit field: Begin's increment wraps at 4. */
  datatype CommandBufferArray = CommandBufferArray(id: nat, head: nat, recording: set<nat>)

  const CAPACITY: nat := 4

  predicate Full(a: CommandBufferArray) { a.head + 1 >= CAPACITY }

  /** A scope's description, compared by value, and the buffer it records. */
  datatype Scope<D> = Scope(desc: D, buffer: Buffer)

  // ----- Lists of arrays

  /** The buffers of an array begun so far, in order. */
  function Begun(a: CommandBufferArray): (bs: seq<Buffer>)
    ensures |bs| == a.head
  {
    seq(a.head, (k: nat) => Buffer(a.id, k))
  }

  /** What a submission collects from the pending list. */
  function Gather(list: seq<CommandBufferArray>): seq<Buffer> {
    if list == [] then [] else Gather(list[..|list| - 1]) + Begun(list[|list| - 1])
  }

  function Count(list: seq<CommandBufferArray>, id: nat): nat {
    if list == [] then 0 else (if list[0].id == id then 1 else 0) + Count(list[1..], id)
  }

  predicate Blank(list: seq<CommandBufferArray>) {
    forall i | 0 <= i < |list| :: list[i].head == 0 && list[i].recording == {}
  }

  /** Ended arrays with begun buffers. */
  predicate Ended(list: seq<CommandBufferArray>) {
    forall i | 0 <= i < |list| :: 1 <= list[i].head < CAPACITY && list[i].recording == {}
  }

  /** Pending arrays have begun buffers, record none but those, and all but the last are full. */
  predicate Filling(list: seq<CommandBufferArray>) {
    forall i | 0 <= i < |list| ::
      && 1 <= list[i].head < CAPACITY
      && (forall k | k in list[i].recording :: k < list[i].head)
      && (i < |list| - 1 ==> Full(list[i]))
  }

  /** Every array created so far is in exactly one of the three lists, once. */
  ghost predicate OnceEach(pending: seq<CommandBufferArray>, submitted: seq<CommandBufferArray>,
                           free: seq<CommandBufferArray>, created: nat) {
    forall id: nat :: Count(pending, id) + Count(submitted, id) + Count(free, id) == if id < created then 1 else 0
  }

  /** A buffer is recorded only while a scope for it is alive. */
  predicate Scoped(list: seq<CommandBufferArray>, refs: map<Buffer, nat>) {
    forall i | 0 <= i < |list| :: forall k | k in list[i].recording :: Buffer(list[i].id, k) in refs
  }

  /** Reference counts are positive, and only buffers begun since the last reset of their array have scopes. */
  predicate Live(refs: map<Buffer, nat>, begun: seq<Buffer>, submitted: seq<CommandBufferArray>) {
    forall b | b in refs :: refs[b] > 0 && (b in begun || Count(submitted, b.arr) > 0)
  }

  lemma LiveMore(refs: map<Buffer, nat>, begun: seq<Buffer>, submitted: seq<CommandBufferArray>, b: Buffer)
    requires Live(refs, begun, submitted)
    ensures Live(refs[b := 1], begun + [b], submitted)
  {
  }

  lemma OnceEachSame(pending: seq<CommandBufferArray>, pending2: seq<CommandBufferArray>,
                     submitted: seq<CommandBufferArray>, free: seq<CommandBufferArray>, created: nat)
    requires OnceEach(pending, submitted, free, created) && forall id :: Count(pending2, id) == Count(pending, id)
    ensures OnceEach(pending2, submitted, free, created)
  {
    forall id: nat
      ensures Count(pending2, id) + Count(submitted, id) + Count(free, id) == if id < created then 1 else 0
    {
      assert Count(pending, id) + Count(submitted, id) + Count(free, id) == if id < created then 1 else 0;
    }
  }

  lemma {:induction false} CountJoin(a: seq<CommandBufferArray>, b: seq<CommandBufferArray>, id: nat)
    ensures Count(a + b, id) == Count(a, id) + Count(b, id)
  {
    if a == [] {
      assert a + b == b;
    } else {
      CountJoin(a[1..], b, id);
      assert (a + b)[1..] == a[1..] + b;
    }
  }

  lemma CountOne(a: CommandBufferArray, id: nat)
    ensures Count([a], id) == if a.id == id then 1 else 0
  {
    assert [a][1..] == [];
  }

  /** Counting looks at the ids alone. */
  lemma {:induction false} CountSameIds(a: seq<CommandBufferArray>, b: seq<CommandBufferArray>, id: nat)
    requires |a| == |b| && forall i | 0 <= i < |a| :: a[i].id == b[i].id
    ensures Count(a, id) == Count(b, id)
  {
    if a != [] { CountSameIds(a[1..], b[1..], id); }
  }

  lemma {:induction false} CountMember(list: seq<CommandBufferArray>, i: nat)
    requires i < |list|
    ensures Count(list, list[i].id) > 0
  {
    if i > 0 { CountMember(list[1..], i - 1); }
  }

  lemma GatherPush(list: seq<CommandBufferArray>, a: CommandBufferArray)
    ensures Gather(list + [a]) == Gather(list) + Begun(a)
  {
    assert (list + [a])[..|list|] == list;
  }

  /** Nothing is pending exactly when nothing was begun since the last submission. */
  lemma NothingPending(list: seq<CommandBufferArray>)
    requires Filling(list)
    ensures list == [] <==> Gather(list) == []
  {
    if list != [] { assert |Begun(list[|list| - 1])| >= 1; }
  }

  /** Gathering looks at ids and heads alone. */
  lemma {:induction false} GatherSame(a: seq<CommandBufferArray>, b: seq<CommandBufferArray>)
    requires |a| == |b| && forall i | 0 <= i < |a| :: a[i].id == b[i].id && a[i].head == b[i].head
    ensures Gather(a) == Gather(b)
  {
    if a != [] { GatherSame(a[..|a| - 1], b[..|b| - 1]); }
  }

  /** Beginning the next buffer of the last pending array adds it at the end of what is gathered. */
  lemma GatherBegin(list: seq<CommandBufferArray>, a: CommandBufferArray, b: CommandBufferArray)
    requires b.id == a.id && b.head == a.head + 1
    ensures Gather(list + [b]) == Gather(list + [a]) + [Buffer(a.id, a.head)]
  {
    GatherPush(list, a);
    GatherPush(list, b);
    assert Begun(b) == Begun(a) + [Buffer(a.id, a.head)];
  }

  /** A gathered buffer belongs to one of the arrays. */
  lemma {:induction false} GatheredFrom(list: seq<CommandBufferArray>, b: Buffer)
    requires b in Gather(list)
    ensures Count(list, b.arr) > 0
  {
    var n := |list| - 1;
    assert list == list[..n] + [list[n]];
    CountJoin(list[..n], [list[n]], b.arr);
    CountOne(list[n], b.arr);
    if b in Gather(list[..n]) {
      GatheredFrom(list[..n], b);
    }
  }

  /** The list after CommandBufferArray::End of one buffer. */
  function EndIn(list: seq<CommandBufferArray>, b: Buffer): (r: seq<CommandBufferArray>)
    ensures |r| == |list|
    ensures forall i | 0 <= i < |r| ::
              r[i] == if list[i].id == b.arr then list[i].(recording := list[i].recording - {b.index}) else list[i]
  {
    seq(|list|, i requires 0 <= i < |list| =>
      if list[i].id == b.arr then list[i].(recording := list[i].recording - {b.index}) else list[i])
  }

  predicate Records(list: seq<CommandBufferArray>, b: Buffer) {
    exists i | 0 <= i < |list| :: list[i].id == b.arr && b.index in list[i].recording
  }

  lemma EndInKeeps(list: seq<CommandBufferArray>, b: Buffer)
    ensures Gather(EndIn(list, b)) == Gather(list)
    ensures forall id :: Count(EndIn(list, b), id) == Count(list, id)
    ensures Filling(list) ==> Filling(EndIn(list, b))
    ensures !Records(EndIn(list, b), b)
  {
    GatherSame(EndIn(list, b), list);
    forall id: nat ensures Count(EndIn(list, b), id) == Count(list, id) {
      CountSameIds(EndIn(list, b), list, id);
    }
  }

  lemma EndInOthers(list: seq<CommandBufferArray>, b: Buffer, other: Buffer)
    requires other != b
    ensures Records(EndIn(list, b), other) <==> Records(list, other)
  {
    if Records(list, other) {
      var i :| 0 <= i < |list| && list[i].id == other.arr && other.index in list[i].recording;
      assert EndIn(list, b)[i].id == other.arr && other.index in EndIn(list, b)[i].recording;
    }
  }

  lemma ScopedWithout(list: seq<CommandBufferArray>, refs: map<Buffer, nat>, b: Buffer)
    requires Scoped(list, refs) && !Records(list, b)
    ensures Scoped(list, refs - {b})
  {
  }

  // ----- Beginning a buffer

  /** The last array has room; the ones before it are full. */
  predicate Open(list: seq<CommandBufferArray>) {
    && list != [] && !Full(list[|list| - 1])
    && (forall i | 0 <= i < |list| :: forall k | k in list[i].recording :: k < list[i].head)
    && (forall i | 0 <= i < |list| - 1 :: 1 <= list[i].head < CAPACITY && Full(list[i]))
  }

  lemma OpenWithBlank(list: seq<CommandBufferArray>, a: CommandBufferArray)
    requires Filling(list) && (list == [] || Full(list[|list| - 1])) && Blank([a])
    ensures Open(list + [a])
  {
    assert [a][0] == a;
    var more := list + [a];
    forall i | 0 <= i < |more|
      ensures (forall k | k in more[i].recording :: k < more[i].head)
      ensures i < |more| - 1 ==> 1 <= more[i].head < CAPACITY && Full(more[i])
    {
      if i < |list| { assert more[i] == list[i]; }
    }
  }

  lemma GatherWithBlank(list: seq<CommandBufferArray>, a: CommandBufferArray)
    requires Blank([a])
    ensures Gather(list + [a]) == Gather(list)
  {
    assert [a][0] == a;
    GatherPush(list, a);
  }

  /** CommandBufferArray::Begin on the last array. */
  function BeginLast(list: seq<CommandBufferArray>): seq<CommandBufferArray>
    requires list != []
  {
    var n := |list| - 1;
    list[..n] + [list[n].(head := (list[n].head + 1) % CAPACITY, recording := list[n].recording + {list[n].head})]
  }

  function NextBuffer(list: seq<CommandBufferArray>): Buffer
    requires list != []
  {
    Buffer(list[|list| - 1].id, list[|list| - 1].head)
  }

  /** The head does not wrap, and one more buffer is gathered. */
  lemma BeginLastFills(list: seq<CommandBufferArray>)
    requires Open(list)
    ensures Filling(BeginLast(list)) && Gather(BeginLast(list)) == Gather(list) + [NextBuffer(list)]
    ensures forall id :: Count(BeginLast(list), id) == Count(list, id)
  {
    var n := |list| - 1;
    var a := list[n];
    assert list == list[..n] + [a];
    GatherBegin(list[..n], a, a.(head := (a.head + 1) % CAPACITY, recording := a.recording + {a.head}));
    forall id: nat ensures Count(BeginLast(list), id) == Count(list, id) {
      CountSameIds(BeginLast(list), list, id);
    }
  }

  lemma BeginRecords(list: seq<CommandBufferArray>)
    requires list != []
    ensures Records(BeginLast(list), NextBuffer(list))
  {
    var n := |list| - 1;
    assert BeginLast(list)[n].id == list[n].id && list[n].head in BeginLast(list)[n].recording;
  }

  /** The buffer begun next has not been begun since the last submission. */
  lemma NextIsNew(list: seq<CommandBufferArray>)
    requires list != [] && Count(list, list[|list| - 1].id) <= 1
    ensures NextBuffer(list) !in Gather(list)
  {
    var n := |list| - 1;
    var id := list[n].id;
    assert list == list[..n] + [list[n]];
    CountJoin(list[..n], [list[n]], id);
    CountOne(list[n], id);
    if NextBuffer(list) in Gather(list[..n]) {
      GatheredFrom(list[..n], NextBuffer(list));
    }
  }

  lemma ScopedWith(list: seq<CommandBufferArray>, refs: map<Buffer, nat>, count: nat)
    requires list != [] && Scoped(list, refs)
    ensures Scoped(BeginLast(list), refs[NextBuffer(list) := count])
  {
  }

  lemma ScopedBlank(list: seq<CommandBufferArray>, a: CommandBufferArray, refs: map<Buffer, nat>)
    requires Scoped(list, refs) && Blank([a])
    ensures Scoped(list + [a], refs)
  {
    assert [a][0] == a;
  }

  lemma EndedAll(list: seq<CommandBufferArray>)
    requires Filling(list) && forall i | 0 <= i < |list| :: list[i].recording == {}
    ensures Ended(list)
  {
  }

  lemma LiveSubmitted(refs: map<Buffer, nat>, begun: seq<Buffer>, pending: seq<CommandBufferArray>,
                      submitted: seq<CommandBufferArray>)
    requires Live(refs, begun, submitted) && begun == Gather(pending)
    ensures Live(refs, [], submitted + pending)
  {
    forall b | b in refs ensures Count(submitted + pending, b.arr) > 0 {
      CountJoin(submitted, pending, b.arr);
      if b in begun { GatheredFrom(pending, b); }
    }
  }

  /** The counts after one scope for b is dropped. */
  function Less(refs: map<Buffer, nat>, b: Buffer): map<Buffer, nat> {
    if b in refs && refs[b] > 1 then refs[b := refs[b] - 1] else refs - {b}
  }

  /** The counts after the pool gives up the scope it had. */
  function Released<D>(refs: map<Buffer, nat>, recording: Option<Scope<D>>): map<Buffer, nat> {
    if recording.Some? then Less(refs, recording.value.buffer) else refs
  }

  /** Every buffer still recorded is referred to by the pool alone. */
  predicate PoolRecordsOnly<D>(list: seq<CommandBufferArray>, recording: Option<Scope<D>>, refs: map<Buffer, nat>) {
    forall i | 0 <= i < |list| :: forall k | k in list[i].recording ::
      && recording.Some? && recording.value.buffer == Buffer(list[i].id, k)
      && Buffer(list[i].id, k) in refs && refs[Buffer(list[i].id, k)] == 1
  }

  function RefCount(refs: map<Buffer, nat>, b: Buffer): nat { if b in refs then refs[b] else 0 }

  /** The pool's own scope counts one. */
  function OwnCount<D>(recording: Option<Scope<D>>, b: Buffer): nat {
    if recording.Some? && recording.value.buffer == b then 1 else 0
  }

  function HeldCount(held: seq<Buffer>, b: Buffer): nat { multiset(held)[b] }

  /** The live scopes are the pool's own and one for each member of held. */
  ghost predicate ScopesAre<D>(recording: Option<Scope<D>>, refs: map<Buffer, nat>, held: seq<Buffer>) {
    forall b: Buffer :: RefCount(refs, b) == OwnCount(recording, b) + HeldCount(held, b)
  }

  lemma HeldPush(held: seq<Buffer>, b: Buffer, other: Buffer)
    ensures HeldCount(held + [b], other) == HeldCount(held, other) + if other == b then 1 else 0
  {
  }

  lemma HeldRemove(held: seq<Buffer>, i: nat, other: Buffer)
    requires i < |held|
    ensures HeldCount(held, other) == HeldCount(held[..i] + held[i + 1..], other) + if other == held[i] then 1 else 0
  {
    assert held == held[..i] + [held[i]] + held[i + 1..];
  }

  lemma LessCounts(refs: map<Buffer, nat>, b: Buffer, other: Buffer)
    requires RefCount(refs, b) > 0
    ensures RefCount(Less(refs, b), other) == RefCount(refs, other) - if other == b then 1 else 0
  {
  }

  /** A copy of the pool's scope is held. */
  lemma ScopesCopy<D>(refs: map<Buffer, nat>, recording: Option<Scope<D>>, scope: Scope<D>, held: seq<Buffer>)
    requires ScopesAre(recording, refs, held) && recording == Some(scope) && scope.buffer in refs
    ensures ScopesAre(recording, refs[scope.buffer := refs[scope.buffer] + 1], held + [scope.buffer])
  {
    var refs2 := refs[scope.buffer := refs[scope.buffer] + 1];
    forall b: Buffer ensures RefCount(refs2, b) == OwnCount(recording, b) + HeldCount(held + [scope.buffer], b) {
      HeldPush(held, scope.buffer, b);
    }
  }

  /** The pool gives up its scope. */
  lemma ScopesReleased<D>(refs: map<Buffer, nat>, recording: Option<Scope<D>>, held: seq<Buffer>)
    requires ScopesAre(recording, refs, held)
    ensures ScopesAre<D>(None, Released(refs, recording), held)
  {
    forall b: Buffer ensures RefCount(Released(refs, recording), b) == OwnCount<D>(None, b) + HeldCount(held, b) {
      if recording.Some? {
        assert RefCount(refs, recording.value.buffer) == 1 + HeldCount(held, recording.value.buffer);
        LessCounts(refs, recording.value.buffer, b);
      }
    }
  }

  /** The pool has a new scope in place of its former one, and a copy is held. */
  lemma ScopesNew<D>(refs: map<Buffer, nat>, recording: Option<Scope<D>>, scope: Scope<D>, held: seq<Buffer>)
    requires ScopesAre(recording, refs, held) && scope.buffer !in refs
    ensures ScopesAre(Some(scope), Released(refs[scope.buffer := 1], recording)[scope.buffer := 2], held + [scope.buffer])
  {
    ScopesReleased(refs, recording, held);
    var refs2 := Released(refs[scope.buffer := 1], recording)[scope.buffer := 2];
    assert RefCount(refs, scope.buffer) == 0;
    forall b: Buffer ensures RefCount(refs2, b) == OwnCount(Some(scope), b) + HeldCount(held + [scope.buffer], b) {
      HeldPush(held, scope.buffer, b);
      assert RefCount(Released(refs, recording), b) == HeldCount(held, b);
    }
  }

  /** A held scope is dropped. */
  lemma ScopesDropped<D>(refs: map<Buffer, nat>, recording: Option<Scope<D>>, held: seq<Buffer>, i: nat)
    requires ScopesAre(recording, refs, held) && i < |held|
    ensures held[i] in refs && (recording == None || recording.value.buffer != held[i] || refs[held[i]] > 1)
    ensures ScopesAre(recording, Less(refs, held[i]), held[..i] + held[i + 1..])
  {
    HeldRemove(held, i, held[i]);
    assert RefCount(refs, held[i]) == OwnCount(recording, held[i]) + HeldCount(held, held[i]);
    forall b: Buffer
      ensures RefCount(Less(refs, held[i]), b) == OwnCount(recording, b) + HeldCount(held[..i] + held[i + 1..], b)
    {
      HeldRemove(held, i, b);
      LessCounts(refs, held[i], b);
      assert RefCount(refs, b) == OwnCount(recording, b) + HeldCount(held, b);
    }
  }

  /** No held buffer is still recorded. */
  predicate NoneRecorded(list: seq<CommandBufferArray>, held: seq<Buffer>) {
    forall i | 0 <= i < |held| :: !Records(list, held[i])
  }

  /** If every held buffer has been ended, what is still recorded is referred to by the pool alone. */
  lemma ScopesRecords<D>(list: seq<CommandBufferArray>, recording: Option<Scope<D>>, refs: map<Buffer, nat>, held: seq<Buffer>)
    requires Scoped(list, refs) && ScopesAre(recording, refs, held) && NoneRecorded(list, held)
    requires forall b | b in refs :: refs[b] > 0
    ensures PoolRecordsOnly(list, recording, refs)
  {
    forall i, k | 0 <= i < |list| && k in list[i].recording
      ensures recording.Some? && recording.value.buffer == Buffer(list[i].id, k)
              && Buffer(list[i].id, k) in refs && refs[Buffer(list[i].id, k)] == 1
    {
      var b := Buffer(list[i].id, k);
      assert b in refs && Records(list, b);
      assert b !in held;
      assert RefCount(refs, b) == OwnCount(recording, b) + HeldCount(held, b);
    }
  }

  /** Once the pool has given up its scope nothing is recorded. */
  lemma NothingRecorded<D>(list: seq<CommandBufferArray>, list2: seq<CommandBufferArray>, recording: Option<Scope<D>>,
                           refs: map<Buffer, nat>)
    requires PoolRecordsOnly(list, recording, refs)
    requires recording == None ==> list2 == list
    requires recording.Some? ==>
               && (list2 == list || list2 == EndIn(list, recording.value.buffer))
               && (recording.value.buffer in refs && refs[recording.value.buffer] == 1
                   ==> !Records(list2, recording.value.buffer))
    ensures forall i | 0 <= i < |list2| :: list2[i].recording == {}
  {
    forall i | 0 <= i < |list2| ensures list2[i].recording == {} {
      assert forall k | k in list2[i].recording :: k in list[i].recording;
      assert forall k :: k !in list2[i].recording;
    }
  }

  // ----- Moving arrays between the lists

  lemma FreeToPending(pending: seq<CommandBufferArray>, submitted: seq<CommandBufferArray>,
                      free: seq<CommandBufferArray>, created: nat)
    requires OnceEach(pending, submitted, free, created) && free != []
    ensures OnceEach(pending + [free[0]], submitted, free[1..], created)
  {
    forall id: nat
      ensures Count(pending + [free[0]], id) + Count(submitted, id) + Count(free[1..], id) == if id < created then 1 else 0
    {
      CountJoin(pending, [free[0]], id);
      CountOne(free[0], id);
      assert Count(pending, id) + Count(submitted, id) + Count(free, id) == if id < created then 1 else 0;
    }
  }

  lemma NewToPending(pending: seq<CommandBufferArray>, submitted: seq<CommandBufferArray>,
                     free: seq<CommandBufferArray>, created: nat, a: CommandBufferArray)
    requires OnceEach(pending, submitted, free, created) && a.id == created
    ensures OnceEach(pending + [a], submitted, free, created + 1)
  {
    forall id: nat
      ensures Count(pending + [a], id) + Count(submitted, id) + Count(free, id) == if id < created + 1 then 1 else 0
    {
      CountJoin(pending, [a], id);
      CountOne(a, id);
      assert Count(pending, id) + Count(submitted, id) + Count(free, id) == if id < created then 1 else 0;
    }
  }

  lemma PendingToSubmitted(pending: seq<CommandBufferArray>, submitted: seq<CommandBufferArray>,
                           free: seq<CommandBufferArray>, created: nat)
    requires OnceEach(pending, submitted, free, created)
    ensures OnceEach([], submitted + pending, free, created)
  {
    forall id: nat
      ensures Count([], id) + Count(submitted + pending, id) + Count(free, id) == if id < created then 1 else 0
    {
      CountJoin(submitted, pending, id);
      assert Count(pending, id) + Count(submitted, id) + Count(free, id) == if id < created then 1 else 0;
    }
  }

  lemma SubmittedToFree(pending: seq<CommandBufferArray>, submitted: seq<CommandBufferArray>,
                        free: seq<CommandBufferArray>, created: nat, blanked: seq<CommandBufferArray>)
    requires OnceEach(pending, submitted, free, created)
    requires |blanked| == |submitted| && forall i | 0 <= i < |submitted| :: blanked[i].id == submitted[i].id
    ensures OnceEach(pending, [], free + blanked, created)
  {
    forall id: nat
      ensures Count(pending, id) + Count([], id) + Count(free + blanked, id) == if id < created then 1 else 0
    {
      CountJoin(free, blanked, id);
      CountSameIds(blanked, submitted, id);
      assert Count(pending, id) + Count(submitted, id) + Count(free, id) == if id < created then 1 else 0;
    }
  }

  class CommandPool<D(==)> {
    var pending: seq<CommandBufferArray>
    var submitted: seq<CommandBufferArray>
    var free: seq<CommandBufferArray>
    var recording: Option<Scope<D>>

    /** The reference counts of the live scopes, the pool's own among them. */
    var refs: map<Buffer, nat>
    var created: nat

    /** The buffers begun since the last submission, in begin order. */
    ghost var begun: seq<Buffer>

    /** The buffers the device may still execute. */
    ghost var executing: set<Buffer>

    ghost predicate Valid()
      reads this
    {
      && OnceEach(pending, submitted, free, created)
      && Filling(pending) && Ended(submitted) && Blank(free)
      && begun == Gather(pending)
      && Scoped(pending, refs)
      && (recording.Some? ==> recording.value.buffer in refs)
      && Live(refs, begun, submitted)
      && (forall b | b in executing :: Count(submitted, b.arr) > 0)
    }

    constructor ()
      ensures Valid() && begun == [] && executing == {} && refs == map[] && recording == None
    {
      pending, submitted, free, recording, refs, created := [], [], [], None, map[], 0;
      begun, executing := [], {};
    }

    /** A blank array comes to the end of the pending list: the oldest free one, or a new one. */
    method InternalEnqueueOnePending()
      requires OnceEach(pending, submitted, free, created) && Blank(free)
      modifies this`pending, this`free, this`created
      ensures OnceEach(pending, submitted, free, created) && Blank(free)
      ensures |pending| == |old(pending)| + 1 && pending[..|old(pending)|] == old(pending)
      ensures Blank([pending[|old(pending)|]])
    {
      if free != [] {
        FreeToPending(pending, submitted, free, created);
        pending, free := pending + [free[0]], free[1..];
      } else {
        var a := CommandBufferArray(created, 0, {});
        NewToPending(pending, submitted, free, created, a);
        pending, created := pending + [a], created + 1;
      }
    }

    /** End of one buffer, by its user or by its last scope. */
    method End(b: Buffer)
      requires Valid() && Records(pending, b)
      modifies this`pending
      ensures Valid() && pending == EndIn(old(pending), b) && !Records(pending, b)
    {
      EndInKeeps(pending, b);
      OnceEachSame(pending, EndIn(pending, b), submitted, free, created);
      pending := EndIn(pending, b);
    }

    /** The last scope of a buffer ends it if it is still recorded. */
    method DropLast(b: Buffer)
      requires Valid() && b in refs && (recording == None || recording.value.buffer != b)
      modifies this`pending, this`refs
      ensures Valid() && refs == old(refs) - {b}
      ensures (pending == old(pending) || pending == EndIn(old(pending), b)) && !Records(pending, b)
    {
      if Records(pending, b) {
        End(b);
      }
      ScopedWithout(pending, refs, b);
      refs := refs - {b};
    }

    /** A scope is dropped. */
    method Drop(b: Buffer)
      requires Valid() && b in refs && (recording == None || recording.value.buffer != b || refs[b] > 1)
      modifies this`pending, this`refs
      ensures Valid()
      ensures refs == Less(old(refs), b)
      ensures pending == old(pending) || pending == EndIn(old(pending), b)
      ensures old(refs)[b] == 1 ==> !Records(pending, b)
      ensures old(refs)[b] > 1 ==> pending == old(pending)
      ensures forall other | other != b :: Records(pending, other) <==> Records(old(pending), other)
    {
      forall other | other != b ensures Records(EndIn(pending, b), other) <==> Records(pending, other) {
        EndInOthers(pending, b, other);
      }
      if refs[b] > 1 {
        refs := refs[b := refs[b] - 1];
      } else {
        DropLast(b);
      }
    }

    /** What holds between making room and beginning a buffer. */
    ghost predicate Ready()
      reads this
    {
      && OnceEach(pending, submitted, free, created)
      && Open(pending) && Ended(submitted) && Blank(free)
      && begun == Gather(pending)
      && Scoped(pending, refs)
      && (recording.Some? ==> recording.value.buffer in refs)
      && Live(refs, begun, submitted)
      && (forall b | b in executing :: Count(submitted, b.arr) > 0)
    }

    method MakeRoom()
      requires Valid()
      modifies this`pending, this`free, this`created
      ensures Ready()
    {
      if pending == [] || Full(pending[|pending| - 1]) {
        ghost var before := pending;
        InternalEnqueueOnePending();
        OpenWithBlank(before, pending[|before|]);
        GatherWithBlank(before, pending[|before|]);
        ScopedBlank(before, pending[|before|], refs);
        assert pending == before + [pending[|before|]];
      }
    }

    /** The next buffer is neither begun already, nor referred to, nor still executing. */
    lemma NextUntouched()
      requires Ready()
      ensures NextBuffer(pending) !in begun && NextBuffer(pending) !in refs && NextBuffer(pending) !in executing
    {
      var id := pending[|pending| - 1].id;
      CountMember(pending, |pending| - 1);
      assert Count(pending, id) + Count(submitted, id) + Count(free, id) == if id < created then 1 else 0;
      NextIsNew(pending);
    }

    /** CommandBufferArray::Begin, with a scope for the buffer. */
    method BeginBuffer() returns (b: Buffer)
      requires Ready()
      modifies this`pending, this`refs, this`begun
      ensures Valid() && begun == old(begun) + [b] && refs == old(refs)[b := 1]
      ensures b !in old(begun) && b !in old(refs) && b !in executing && Records(pending, b)
    {
      BeginRecords(pending);
      NextUntouched();
      BeginLastFills(pending);
      ScopedWith(pending, refs, 1);
      OnceEachSame(pending, BeginLast(pending), submitted, free, created);
      LiveMore(refs, begun, submitted, NextBuffer(pending));
      b := TakeNext();
    }

    method TakeNext() returns (b: Buffer)
      requires pending != []
      modifies this`pending, this`refs, this`begun
      ensures b == NextBuffer(old(pending)) && pending == BeginLast(old(pending))
      ensures refs == old(refs)[b := 1] && begun == old(begun) + [b]
    {
      b := NextBuffer(pending);
      pending := BeginLast(pending);
      refs := refs[b := 1];
      begun := begun + [b];
    }

    /** A buffer is begun in the last pending array, or in a blank one if that is full, and the pool keeps a scope
        for it in place of the one it had. */
    method InternalBeginScope(desc: D) returns (scope: Scope<D>)
      requires Valid()
      modifies this
      ensures Valid() && executing == old(executing) && submitted == old(submitted)
      ensures scope.desc == desc && recording == Some(scope)
      ensures begun == old(begun) + [scope.buffer] && scope.buffer !in old(begun) && scope.buffer !in executing
      ensures scope.buffer !in old(refs) && scope.buffer in refs && refs[scope.buffer] == 1
      ensures refs == Released(old(refs)[scope.buffer := 1], old(recording))
      ensures Records(pending, scope.buffer)
    {
      MakeRoom();
      var b := BeginBuffer();
      scope := Scope(desc, b);
      Keep(scope);
    }

    /** The pool's scope is replaced by another one. */
    method Keep(scope: Scope<D>)
      requires Valid() && scope.buffer in refs && (recording.Some? ==> recording.value.buffer != scope.buffer)
      modifies this`pending, this`refs, this`recording
      ensures Valid() && recording == Some(scope)
      ensures scope.buffer in refs && refs[scope.buffer] == old(refs)[scope.buffer]
      ensures refs == Released(old(refs), old(recording))
      ensures Records(pending, scope.buffer) <==> Records(old(pending), scope.buffer)
    {
      var previous := recording;
      recording := Some(scope);
      if previous.Some? {
        Drop(previous.value.buffer);
      }
    }

    /** Commands: the pool's scope if it has one of this description, else a new one. The caller gets a copy. Its
        buffer is being recorded unless it is that of the former scope and its user has ended it. */
    method Commands(desc: D) returns (scope: Scope<D>)
      requires Valid()
      modifies this
      ensures Valid() && executing == old(executing) && submitted == old(submitted)
      ensures scope.desc == desc && recording == Some(scope) && scope.buffer in refs && refs[scope.buffer] > 1
      ensures old(recording.Some? && recording.value.desc == desc) ==> recording == old(recording)
      ensures !old(recording.Some? && recording.value.desc == desc) ==> scope.buffer !in old(refs)
      ensures begun == if old(recording.Some? && recording.value.desc == desc) then old(begun)
                       else old(begun) + [scope.buffer]
      ensures begun != old(begun) ==> scope.buffer !in old(begun) && scope.buffer !in executing
      ensures refs == if old(recording.Some? && recording.value.desc == desc)
                      then old(refs)[scope.buffer := old(refs)[scope.buffer] + 1]
                      else Released(old(refs)[scope.buffer := 1], old(recording))[scope.buffer := 2]
      ensures old(recording.Some? && recording.value.desc == desc) ==> pending == old(pending)
      ensures Records(pending, scope.buffer)
              <==> !old(recording.Some? && recording.value.desc == desc) || Records(old(pending), scope.buffer)
    {
      if recording == None || recording.value.desc != desc {
        scope := InternalBeginScope(desc);
      } else {
        scope := recording.value;
      }
      refs := refs[scope.buffer := refs[scope.buffer] + 1];
    }

    /** InternalEndCommands: the pool gives up its scope. */
    method InternalEndCommands()
      requires Valid()
      modifies this
      ensures Valid() && recording == None
      ensures begun == old(begun) && executing == old(executing) && submitted == old(submitted)
      ensures old(recording) == None ==> pending == old(pending) && refs == old(refs)
      ensures old(recording.Some?) ==>
                var b := old(recording.value.buffer);
                && (pending == old(pending) || pending == EndIn(old(pending), b))
                && (old(refs[b]) == 1 ==> !Records(pending, b))
      ensures refs == Released(old(refs), old(recording))
    {
      if recording.Some? {
        var b := recording.value.buffer;
        recording := None;
        Drop(b);
      }
    }

    /** A submission collects exactly the buffers begun since the last one, in begin order: the pool's part of
        InternalPrepareSubmit, with InternalEnqueueSubmitted. From here on the device may execute them. */
    method TakePending() returns (buffers: seq<Buffer>)
      requires Valid() && PoolRecordsOnly(pending, recording, refs)
      modifies this
      ensures Valid() && recording == None && pending == []
      ensures buffers == old(begun) && begun == []
      ensures executing == old(executing) + set b | b in buffers
      ensures refs == Released(old(refs), old(recording))
    {
      ghost var before := pending;
      InternalEndCommands();
      NothingRecorded(before, pending, old(recording), old(refs));
      buffers := Collect();
      Submitted();
    }

    /** The copies made by InternalPrepareSubmit. */
    method Collect() returns (buffers: seq<Buffer>)
      requires forall i | 0 <= i < |pending| :: pending[i].recording == {}
      ensures buffers == Gather(pending)
    {
      buffers := [];
      var i := 0;
      while i < |pending|
        invariant i <= |pending| && buffers == Gather(pending[..i])
      {
        assert pending[..i + 1] == pending[..i] + [pending[i]];
        GatherPush(pending[..i], pending[i]);
        buffers := buffers + Begun(pending[i]);
        i := i + 1;
      }
      assert pending[..i] == pending;
    }

    /** InternalEnqueueSubmitted. */
    method Submitted()
      requires Valid() && recording == None && forall i | 0 <= i < |pending| :: pending[i].recording == {}
      modifies this`pending, this`submitted, this`begun, this`executing
      ensures Valid() && pending == [] && begun == []
      ensures executing == old(executing) + set b | b in old(begun)
    {
      PendingToSubmitted(pending, submitted, free, created);
      LiveSubmitted(refs, begun, pending, submitted);
      EndedAll(pending);
      forall b | b in executing + set b | b in begun ensures Count(submitted + pending, b.arr) > 0 {
        CountJoin(submitted, pending, b.arr);
        if b in begun { GatheredFrom(pending, b); }
      }
      executing := executing + set b | b in begun;
      submitted, pending, begun := submitted + pending, [], [];
    }

    /** Reset: submitted arrays become free again. The device must not execute any of this pool's buffers, and no
        scope of a submitted buffer may be left. */
    method Reset()
      requires Valid() && executing == {} && forall b | b in refs :: b in begun
      modifies this`submitted, this`free
      ensures Valid() && submitted == []
      ensures |free| == |old(free)| + |old(submitted)| && free[..|old(free)|] == old(free)
    {
      ghost var was := submitted;
      var blanked := [];
      var i := 0;
      while i < |submitted|
        invariant i <= |submitted| == |was| && submitted == was && |blanked| == i
        invariant forall j | 0 <= j < i :: blanked[j] == CommandBufferArray(was[j].id, 0, {})
      {
        blanked := blanked + [CommandBufferArray(submitted[i].id, 0, {})];
        i := i + 1;
      }
      SubmittedToFree(pending, submitted, free, created, blanked);
      submitted, free := [], free + blanked;
    }

    /** The device is done with some buffers. */
    ghost method Finish(done: set<Buffer>)
      requires Valid()
      modifies this`executing
      ensures Valid() && executing == old(executing) - done
    {
      executing := executing - done;
    }
  }
}
