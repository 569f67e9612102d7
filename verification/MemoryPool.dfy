/** The handle pool of src/core/memorypool.*: indices 0..N-1, the free ones kept as a binary heap in the
    first myAvailable entries of an array, smallest index on top. */
module MemoryPool {

  predicate Distinct(s: seq<nat>) { forall i, j | 0 <= i < j < |s| :: s[i] != s[j] }

  function Elems(s: seq<nat>): set<nat> { set x | x in s }

  predicate IsLeast(x: nat, free: set<nat>) { x in free && forall y | y in free :: x <= y }

  /** Entry::operator<, which std uses as its "less": it reverses the order and also holds of equal indices. */
  predicate Less(a: nat, b: nat) { a >= b }

  function Parent(k: nat): nat
    requires k > 0
  {
    (k - 1) / 2
  }

  /** std::is_heap under that comparator: no parent is less than its child. */
  predicate IsHeap(s: seq<nat>) { forall k {:trigger Parent(k)} | 0 < k < |s| :: !Less(s[Parent(k)], s[k]) }

  /** i's children fit under i's parent, so that i may be exchanged with either. */
  predicate Bridged(s: seq<nat>, i: nat)
    requires i < |s|
  {
    i > 0 ==> forall k {:trigger Parent(k)} | 0 < k < |s| && Parent(k) == i :: s[Parent(i)] < s[k]
  }

  /** The heap order holds except between i and its children. */
  predicate HeapButBelow(s: seq<nat>, i: nat)
    requires i < |s|
  {
    Bridged(s, i) && forall k {:trigger Parent(k)} | 0 < k < |s| && Parent(k) != i :: s[Parent(k)] < s[k]
  }

  /** The heap order holds except between i and its parent. */
  predicate HeapButAbove(s: seq<nat>, i: nat)
    requires i < |s|
  {
    Bridged(s, i) && forall k {:trigger Parent(k)} | 0 < k < |s| && k != i :: s[Parent(k)] < s[k]
  }

  function Swap(s: seq<nat>, i: nat, j: nat): seq<nat>
    requires i < |s| && j < |s|
  {
    s[i := s[j]][j := s[i]]
  }

  lemma SwapKeeps(s: seq<nat>, i: nat, j: nat)
    requires i < |s| && j < |s|
    ensures Elems(Swap(s, i, j)) == Elems(s)
    ensures Distinct(s) ==> Distinct(Swap(s, i, j))
  {
    var s' := Swap(s, i, j);
    forall x | x in s ensures x in s' {
      var k :| 0 <= k < |s| && s[k] == x;
      assert s'[if k == i then j else if k == j then i else k] == x;
    }
  }

  lemma {:induction false} RootIsLeast(s: seq<nat>, k: nat)
    requires IsHeap(s) && k < |s|
    ensures s[0] <= s[k]
    ensures k > 0 ==> s[0] < s[k]
    decreases k
  {
    if k > 0 {
      RootIsLeast(s, Parent(k));
    }
  }

  lemma RootLeastOfAll(s: seq<nat>)
    requires IsHeap(s) && s != []
    ensures IsLeast(s[0], Elems(s))
  {
    forall y | y in Elems(s) ensures s[0] <= y {
      var k :| 0 <= k < |s| && s[k] == y;
      RootIsLeast(s, k);
    }
  }

  lemma ElemsAppend(s: seq<nat>, x: nat)
    ensures Elems(s + [x]) == Elems(s) + {x}
    ensures Distinct(s) && x !in Elems(s) ==> Distinct(s + [x])
  {
  }

  /** Exchanging an entry with its smaller child moves the disorder one level down. */
  lemma SiftDownStep(s: seq<nat>, i: nat, child: nat)
    requires i < |s| && HeapButBelow(s, i) && Distinct(s)
    requires 0 < child < |s| && Parent(child) == i && s[child] < s[i]
    requires forall k {:trigger Parent(k)} | 0 < k < |s| && Parent(k) == i :: s[child] <= s[k]
    ensures HeapButBelow(Swap(s, i, child), child)
  {
    var s' := Swap(s, i, child);
    forall k {:trigger Parent(k)} | 0 < k < |s'| && Parent(k) != child ensures s'[Parent(k)] < s'[k] {
      assert Parent(child) == i;
      assert k != child && Parent(k) == i ==> s[child] != s[k];
    }
  }

  lemma SiftDownDone(s: seq<nat>, i: nat)
    requires i < |s| && HeapButBelow(s, i)
    requires forall k {:trigger Parent(k)} | 0 < k < |s| && Parent(k) == i :: s[i] < s[k]
    ensures IsHeap(s)
  {
  }

  lemma SmallerChild(s: seq<nat>, i: nat, child: nat)
    requires 2 * i + 1 < |s| && (child == 2 * i + 1 || child == 2 * i + 2) && child < |s|
    requires child == 2 * i + 1 && child + 1 < |s| ==> !Less(s[child], s[child + 1])
    requires child == 2 * i + 2 ==> Less(s[child - 1], s[child])
    ensures Parent(child) == i
    ensures forall k {:trigger Parent(k)} | 0 < k < |s| && Parent(k) == i :: s[child] <= s[k]
  {
  }

  /** Exchanging an entry with its larger parent moves the disorder one level up. */
  lemma SiftUpStep(s: seq<nat>, i: nat)
    requires 0 < i < |s| && HeapButAbove(s, i) && s[i] < s[Parent(i)]
    ensures HeapButAbove(Swap(s, i, Parent(i)), Parent(i))
  {
    var p, s' := Parent(i), Swap(s, i, Parent(i));
    forall k {:trigger Parent(k)} | 0 < k < |s'| && k != p ensures s'[Parent(k)] < s'[k] {
    }
  }

  // ----- The width of a handle

  /** std::bit_width */
  function BitWidth(n: nat): (w: nat)
    ensures n > 0 ==> w > 0
  {
    if n == 0 then 0 else 1 + BitWidth(n / 2)
  }

  function Pow2(k: nat): (p: nat)
    ensures p > 0
  {
    if k == 0 then 1 else 2 * Pow2(k - 1)
  }

  /** The bits of min_unsigned_t<n>: 8, 16, 32 or 64. */
  function HandleBits(n: nat): nat
    requires BitWidth(n) < 32
  {
    match BitWidth(n) / 8
    case 0 => 8
    case 1 => 16
    case 2 => 32
    case _ => 64
  }

  /** kInvalidIndex: ~0 in the handle's width. */
  function Invalid(n: nat): nat
    requires BitWidth(n) < 32
  {
    Pow2(HandleBits(n)) - 1
  }

  lemma {:induction false} BelowPow2(n: nat)
    ensures n < Pow2(BitWidth(n))
  {
    if n > 0 {
      BelowPow2(n / 2);
    }
  }

  lemma {:induction false} Pow2Grows(a: nat, b: nat)
    requires a <= b
    ensures Pow2(a) <= Pow2(b)
    decreases b - a
  {
    if a < b {
      Pow2Grows(a + 1, b);
    }
  }

  /** No index of a pool of n entries is the invalid handle. */
  lemma InvalidIsNoIndex(n: nat)
    requires 0 < n && BitWidth(n) < 32
    ensures n <= Invalid(n)
  {
    BelowPow2(n);
    Pow2Grows(BitWidth(n) + 1, HandleBits(n));
    Pow2Grows(1, BitWidth(n));
  }

  // ----- The pool

  class MemoryPool {
    const capacity: nat
    const myEntries: array<nat>
    var myAvailable: nat
    ghost var live: set<nat> // handed out and not given back

    ghost function FreeIndices(): set<nat>
      reads this, myEntries
      requires myAvailable <= myEntries.Length
    {
      Elems(myEntries[..myAvailable])
    }

    /** Free and live indices partition 0..capacity-1, and the free ones form a heap of distinct indices. */
    ghost predicate Valid()
      reads this, myEntries
    {
      && 0 < capacity == myEntries.Length && BitWidth(capacity) < 32
      && myAvailable <= capacity
      && IsHeap(myEntries[..myAvailable])
      && Distinct(myEntries[..myAvailable])
      && FreeIndices() !! live
      && (forall x :: x in FreeIndices() + live <==> 0 <= x < capacity)
      && |live| + myAvailable == capacity
    }

    constructor (n: nat)
      requires n > 0 && BitWidth(n) < 32
      ensures Valid() && capacity == n && live == {} && myAvailable == n && fresh(myEntries)
    {
      capacity := n;
      myEntries := new nat[n](i => i);
      myAvailable := n;
      live := {};
      new;
      // Ascending entries already are a heap, so std::make_heap has nothing to move.
      var s := myEntries[..myAvailable];
      forall k {:trigger Parent(k)} | 0 < k < |s| ensures !Less(s[Parent(k)], s[k]) {
        assert s[k] == k && s[Parent(k)] == Parent(k);
      }
      forall x ensures x in FreeIndices() <==> 0 <= x < n {
        if 0 <= x < n {
          assert s[x] == x;
        }
      }
    }

    /** Allocate hands out the smallest free index, or the invalid handle when there is none. */
    method Allocate() returns (handle: nat)
      requires Valid()
      modifies this, myEntries
      ensures Valid()
      ensures old(FreeIndices()) == {} ==> handle == Invalid(capacity) && FreeIndices() == {} && live == old(live)
      ensures old(FreeIndices()) != {} ==>
                IsLeast(handle, old(FreeIndices())) && handle < capacity && handle != Invalid(capacity)
                && FreeIndices() == old(FreeIndices()) - {handle} && live == old(live) + {handle}
    {
      InvalidIsNoIndex(capacity);
      if myAvailable == 0 {
        return Invalid(capacity);
      }
      handle := myEntries[0];
      RootLeastOfAll(myEntries[..myAvailable]);
      PopHeap(myAvailable);
      myAvailable := myAvailable - 1;
      live := live + {handle};
      assert FreeIndices() + live == old(FreeIndices() + live);
    }

    /** Free takes back a live index. */
    method Free(handle: nat)
      requires Valid() && handle in live
      modifies this, myEntries
      ensures Valid()
      ensures FreeIndices() == old(FreeIndices()) + {handle} && live == old(live) - {handle}
    {
      ghost var before := myEntries[..myAvailable];
      ElemsAppend(before, handle);
      myEntries[myAvailable] := handle;
      assert myEntries[..myAvailable + 1] == before + [handle];
      assert myEntries[..myAvailable] == before;
      myAvailable := myAvailable + 1;
      live := live - {handle};
      PushHeap(myAvailable);
      assert FreeIndices() + live == old(FreeIndices() + live);
    }

    /** std::pop_heap: the root goes to the end, the rest becomes a heap again. */
    method PopHeap(n: nat)
      requires 0 < n <= myEntries.Length && IsHeap(myEntries[..n]) && Distinct(myEntries[..n])
      modifies myEntries
      ensures IsHeap(myEntries[..n - 1]) && Distinct(myEntries[..n - 1])
      ensures Elems(myEntries[..n - 1]) == old(Elems(myEntries[..n])) - {old(myEntries[0])}
    {
      ghost var before := myEntries[..n];
      myEntries[0], myEntries[n - 1] := myEntries[n - 1], myEntries[0];
      SwapKeeps(before, 0, n - 1);
      assert myEntries[..n] == Swap(before, 0, n - 1);
      if n > 1 {
        SiftDown(n - 1);
      }
    }

    method SiftDown(n: nat)
      requires 0 < n <= myEntries.Length && HeapButBelow(myEntries[..n], 0) && Distinct(myEntries[..n])
      modifies myEntries
      ensures IsHeap(myEntries[..n]) && Distinct(myEntries[..n])
      ensures Elems(myEntries[..n]) == old(Elems(myEntries[..n]))
    {
      var i := 0;
      while 2 * i + 1 < n
        invariant 0 <= i < n
        invariant HeapButBelow(myEntries[..n], i) && Distinct(myEntries[..n])
        invariant Elems(myEntries[..n]) == old(Elems(myEntries[..n]))
        decreases n - i
      {
        ghost var s := myEntries[..n];
        var child := 2 * i + 1;
        if child + 1 < n && Less(myEntries[child], myEntries[child + 1]) {
          child := child + 1;
        }
        SmallerChild(s, i, child);
        if !Less(myEntries[i], myEntries[child]) {
          SiftDownDone(s, i);
          return;
        }
        assert s[i] != s[child];
        SiftDownStep(s, i, child);
        SwapKeeps(s, i, child);
        myEntries[i], myEntries[child] := myEntries[child], myEntries[i];
        assert myEntries[..n] == Swap(s, i, child);
        i := child;
      }
      SiftDownDone(myEntries[..n], i);
    }

    /** std::push_heap: the last entry rises to its place. */
    method PushHeap(n: nat)
      requires 0 < n <= myEntries.Length && IsHeap(myEntries[..n - 1]) && Distinct(myEntries[..n])
      modifies myEntries
      ensures IsHeap(myEntries[..n]) && Distinct(myEntries[..n])
      ensures Elems(myEntries[..n]) == old(Elems(myEntries[..n]))
    {
      var i := n - 1;
      while i > 0 && Less(myEntries[Parent(i)], myEntries[i])
        invariant 0 <= i < n
        invariant HeapButAbove(myEntries[..n], i) && Distinct(myEntries[..n])
        invariant Elems(myEntries[..n]) == old(Elems(myEntries[..n]))
      {
        ghost var s := myEntries[..n];
        var p := Parent(i);
        assert s[p] != s[i];
        SiftUpStep(s, i);
        SwapKeeps(s, i, p);
        myEntries[i], myEntries[p] := myEntries[p], myEntries[i];
        assert myEntries[..n] == Swap(s, i, p);
        i := p;
      }
    }
  }
}
