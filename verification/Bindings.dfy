/** The packed descriptor data of src/rhi/vulkan/pipeline.inl and the update template of
    src/rhi/vulkan/pipeline.cpp. A set's values lie in one flat buffer: the bindings in key order, each with its
    offset into the buffer, its count, and the ranges of array elements its values belong to. */
module Bindings {
  import opened Ranges = RangeSet
  import opened Options

  // ----- The array elements of one binding

  function Span(low: nat, high: nat): (s: seq<nat>)
    ensures |s| == if low < high then high - low else 0
    ensures forall k | 0 <= k < |s| :: s[k] == low + k
  {
    if low < high then seq(high - low, k => low + k) else []
  }

  /** The covered elements in the order in which the ranges list them. */
  function Elements(rs: seq<Range>): seq<nat> {
    if rs == [] then [] else Span(rs[0].low, rs[0].high) + Elements(rs[1..])
  }

  predicate Increasing(es: seq<nat>) { forall i, j | 0 <= i < j < |es| :: es[i] < es[j] }

  /** The ranges list exactly the covered elements. */
  lemma {:induction false} ElementsCovered(rs: seq<Range>, x: nat)
    ensures x in Elements(rs) <==> Covers(rs, x)
  {
    if rs != [] {
      ElementsCovered(rs[1..], x);
      CoversSplit([], rs[0], rs[1..], x);
      assert [] + [rs[0]] + rs[1..] == rs;
      var s := Span(rs[0].low, rs[0].high);
      assert x in s <==> rs[0].low <= x < rs[0].high by {
        if rs[0].low <= x < rs[0].high { assert s[x - rs[0].low] == x; }
      }
    }
  }

  /** In normal form they list them in ascending order. */
  lemma {:induction false} ElementsIncreasing(rs: seq<Range>)
    requires Normal(rs)
    ensures Increasing(Elements(rs))
  {
    if rs != [] {
      ElementsIncreasing(rs[1..]);
      forall x | x in Elements(rs[1..]) ensures rs[0].high < x {
        ElementsCovered(rs[1..], x);
      }
      IncreasingJoin(Span(rs[0].low, rs[0].high), Elements(rs[1..]), rs[0].high);
    }
  }

  lemma IncreasingJoin(a: seq<nat>, b: seq<nat>, mid: nat)
    requires Increasing(a) && Increasing(b)
    requires (forall x | x in a :: x < mid) && (forall x | x in b :: mid <= x)
    ensures Increasing(a + b)
  {
    var s := a + b;
    forall i, j | 0 <= i < j < |s| ensures s[i] < s[j] {
      if i < |a| { assert s[i] in a; } else { assert s[i] == b[i - |a|]; }
      if j < |a| { assert s[j] == a[j]; } else { assert s[j] in b; }
    }
  }

  lemma TailMember(a: seq<nat>, x: nat)
    requires Increasing(a) && a != []
    ensures x in a[1..] <==> x in a && x != a[0]
  {
    assert a == [a[0]] + a[1..];
    if x in a[1..] {
      var k :| 0 <= k < |a[1..]| && a[1..][k] == x;
      assert a[0] < a[k + 1];
    }
  }

  /** An ascending list is determined by its members. */
  lemma {:induction false} IncreasingUnique(a: seq<nat>, b: seq<nat>)
    requires Increasing(a) && Increasing(b) && forall x :: x in a <==> x in b
    ensures a == b
  {
    assert a != [] ==> a[0] in a;
    assert b != [] ==> b[0] in b;
    if a != [] {
      assert a[0] == b[0];
      forall x ensures x in a[1..] <==> x in b[1..] {
        TailMember(a, x);
        TailMember(b, x);
      }
      IncreasingUnique(a[1..], b[1..]);
      assert a == [a[0]] + a[1..] && b == [b[0]] + b[1..];
    }
  }

  /** Where the indexed overload's search ends: the offset of a covered element, or the number of them all. */
  function IndexOffset(rs: seq<Range>, e: nat): nat {
    if rs == [] then 0
    else if rs[0].low <= e < rs[0].high then e - rs[0].low
    else (if rs[0].low < rs[0].high then rs[0].high - rs[0].low else 0) + IndexOffset(rs[1..], e)
  }

  lemma {:induction false} IndexOffsetFinds(rs: seq<Range>, e: nat)
    requires Covers(rs, e)
    ensures IndexOffset(rs, e) < |Elements(rs)| && Elements(rs)[IndexOffset(rs, e)] == e
  {
    if !(rs[0].low <= e < rs[0].high) {
      CoversSplit([], rs[0], rs[1..], e);
      assert [] + [rs[0]] + rs[1..] == rs;
      IndexOffsetFinds(rs[1..], e);
    }
  }

  lemma {:induction false} IndexOffsetMisses(rs: seq<Range>, e: nat)
    requires !Covers(rs, e)
    ensures IndexOffset(rs, e) == |Elements(rs)|
  {
    if rs != [] {
      CoversSplit([], rs[0], rs[1..], e);
      assert [] + [rs[0]] + rs[1..] == rs;
      IndexOffsetMisses(rs[1..], e);
    }
  }

  // ----- The values of one binding

  /** The value that the packed values hold for element e. */
  ghost function ValueIn<V>(es: seq<nat>, values: seq<V>, e: nat): Option<V>
    requires |values| == |es|
  {
    if e in es then var k :| 0 <= k < |es| && es[k] == e; Some(values[k]) else None
  }

  lemma ValueInAt<V>(es: seq<nat>, values: seq<V>, k: nat)
    requires |values| == |es| && Increasing(es) && k < |es|
    ensures ValueIn(es, values, es[k]) == Some(values[k])
  {
  }

  /** Overwriting one packed value changes that element and no other. */
  lemma OverwriteOne<V>(es: seq<nat>, values: seq<V>, k: nat, v: V, e: nat)
    requires |values| == |es| && Increasing(es) && k < |es|
    ensures ValueIn(es, values[k := v], e) == if e == es[k] then Some(v) else ValueIn(es, values, e)
  {
    if e in es {
      var j :| 0 <= j < |es| && es[j] == e;
      ValueInAt(es, values, j);
      ValueInAt(es, values[k := v], j);
    }
  }

  function Rank(es: seq<nat>, x: nat): (r: nat)
    ensures r <= |es|
  {
    if es == [] || x <= es[0] then 0 else 1 + Rank(es[1..], x)
  }

  lemma {:induction false} RankSplits(es: seq<nat>, x: nat)
    requires Increasing(es)
    ensures forall k | 0 <= k < |es| :: es[k] < x <==> k < Rank(es, x)
  {
    if es != [] && es[0] < x {
      RankSplits(es[1..], x);
      forall k | 0 <= k < |es| ensures es[k] < x <==> k < Rank(es, x) {
        if k > 0 { assert es[k] == es[1..][k - 1]; }
      }
    }
  }

  /** more is es with x put in at place r. */
  predicate IsInsertion(more: seq<nat>, es: seq<nat>, r: nat, x: nat) {
    && |more| == |es| + 1 && r <= |es| && more[r] == x
    && (forall k | 0 <= k < r :: more[k] == es[k])
    && (forall k | r < k < |more| :: more[k] == es[k - 1])
  }

  lemma InsertionMembers(more: seq<nat>, es: seq<nat>, r: nat, x: nat, y: nat)
    requires IsInsertion(more, es, r, x)
    ensures y in more <==> y in es || y == x
  {
    if y in es {
      var k :| 0 <= k < |es| && es[k] == y;
      assert more[if k < r then k else k + 1] == y;
    }
  }

  lemma InsertionIncreasing(more: seq<nat>, es: seq<nat>, x: nat)
    requires Increasing(es) && x !in es && IsInsertion(more, es, Rank(es, x), x)
    ensures Increasing(more)
  {
    var r := Rank(es, x);
    RankSplits(es, x);
    forall k | 0 <= k < |es| ensures if k < r then es[k] < x else x < es[k] {}
  }

  /** The ascending list with one new member. */
  lemma Inserted(es: seq<nat>, x: nat, more: seq<nat>)
    requires Increasing(es) && x !in es && Increasing(more)
    requires forall y :: y in more <==> y in es || y == x
    ensures IsInsertion(more, es, Rank(es, x), x)
  {
    var r := Rank(es, x);
    var made := es[..r] + [x] + es[r..];
    InsertionIncreasing(made, es, x);
    forall y ensures y in made <==> y in more {
      InsertionMembers(made, es, r, x, y);
    }
    IncreasingUnique(more, made);
  }

  /** The update that setting element x to v means. */
  ghost predicate IsUpdate<V(!new)>(es2: seq<nat>, values2: seq<V>, es: seq<nat>, values: seq<V>, x: nat, v: V)
    requires |values| == |es| && |values2| == |es2|
  {
    forall e: nat :: ValueIn(es2, values2, e) == if e == x then Some(v) else ValueIn(es, values, e)
  }

  /** Every element above x already holds v. */
  ghost predicate HoldsAbove<V>(es: seq<nat>, values: seq<V>, x: nat, v: V)
    requires |values| == |es|
  {
    forall k | 0 <= k < |es| && x < es[k] :: values[k] == v
  }

  /** Appending a value while its element is inserted in the middle is an update only when everything above
      already holds that value. */
  lemma AppendOutOfOrder<V(!new)>(es: seq<nat>, values: seq<V>, x: nat, v: V, es2: seq<nat>)
    requires |values| == |es| && Increasing(es) && x !in es && Increasing(es2)
    requires IsInsertion(es2, es, Rank(es, x), x)
    requires IsUpdate(es2, values + [v], es, values, x, v)
    ensures HoldsAbove(es, values, x, v)
  {
    var r := Rank(es, x);
    RankSplits(es, x);
    var values2 := values + [v];
    ValueInAt(es2, values2, r);
    var k := r;
    while k < |es|
      invariant r <= k <= |es|
      invariant forall i | r <= i < k :: values[i] == v
      invariant values2[k] == v
    {
      ValueInAt(es2, values2, k + 1);
      ValueInAt(es, values, k);
      assert es2[k + 1] == es[k] && es[k] != x;
      k := k + 1;
    }
  }

  lemma AppendInOrder<V(!new)>(es: seq<nat>, values: seq<V>, x: nat, v: V, es2: seq<nat>)
    requires |values| == |es| && Increasing(es) && x !in es && Increasing(es2)
    requires IsInsertion(es2, es, Rank(es, x), x)
    requires HoldsAbove(es, values, x, v)
    ensures IsUpdate(es2, values + [v], es, values, x, v)
  {
    var r := Rank(es, x);
    RankSplits(es, x);
    var values2 := values + [v];
    forall e: nat ensures ValueIn(es2, values2, e) == if e == x then Some(v) else ValueIn(es, values, e) {
      InsertionMembers(es2, es, r, x, e);
      if e in es2 {
        var k :| 0 <= k < |es2| && es2[k] == e;
        ValueInAt(es2, values2, k);
        if k < r {
          ValueInAt(es, values, k);
        } else if k > r {
          ValueInAt(es, values, k - 1);
        }
      }
    }
  }

  // ----- The buffer shared by the bindings

  datatype Binding = Binding(key: nat, offset: nat, count: nat, kind: nat, ranges: seq<Range>)

  /** The counts of the first i bindings, added up. */
  function Sum(bs: seq<Binding>, i: nat): nat
    requires i <= |bs|
  {
    if i == 0 then 0 else Sum(bs, i - 1) + bs[i - 1].count
  }

  predicate InKeyOrder(bs: seq<Binding>) { forall i, j | 0 <= i < j < |bs| :: bs[i].key < bs[j].key }

  predicate Placed(bs: seq<Binding>, i: nat)
    requires i < |bs|
  {
    bs[i].offset == Sum(bs, i)
  }

  /** Offsets are the prefix sums of the counts, each count is the number of elements, and the buffer is full. */
  predicate Packed(bs: seq<Binding>, size: nat) {
    && (forall i | 0 <= i < |bs| :: Placed(bs, i))
    && size == Sum(bs, |bs|)
  }

  predicate Counted(b: Binding) { Normal(b.ranges) && b.count == |Elements(b.ranges)| }

  predicate AllCounted(bs: seq<Binding>) { forall i {:trigger Counted(bs[i])} | 0 <= i < |bs| :: Counted(bs[i]) }

  predicate WellFormed(bs: seq<Binding>, size: nat) {
    InKeyOrder(bs) && Packed(bs, size) && AllCounted(bs)
  }

  lemma {:induction false} SumGrows(bs: seq<Binding>, i: nat, j: nat)
    requires i <= j <= |bs|
    ensures Sum(bs, i) <= Sum(bs, j)
  {
    if i < j { SumGrows(bs, i, j - 1); }
  }

  /** The stretch of the buffer that belongs to binding i. */
  function Slice<V>(bs: seq<Binding>, data: seq<V>, i: nat): (s: seq<V>)
    requires Packed(bs, |data|) && i < |bs|
    ensures |s| == bs[i].count
  {
    SumGrows(bs, i + 1, |bs|);
    assert Placed(bs, i);
    data[bs[i].offset..bs[i].offset + bs[i].count]
  }

  ghost predicate HasKey(bs: seq<Binding>, key: nat) { exists i :: 0 <= i < |bs| && bs[i].key == key }

  /** The map from binding and element to value that the packed form stands for. */
  ghost function Value<V>(bs: seq<Binding>, data: seq<V>, key: nat, e: nat): Option<V>
    requires WellFormed(bs, |data|)
  {
    if HasKey(bs, key) then
      var i :| 0 <= i < |bs| && bs[i].key == key;
      assert Counted(bs[i]);
      ValueIn(Elements(bs[i].ranges), Slice(bs, data, i), e)
    else None
  }

  lemma ValueAt<V>(bs: seq<Binding>, data: seq<V>, i: nat, e: nat)
    requires WellFormed(bs, |data|) && i < |bs|
    ensures Counted(bs[i]) && Value(bs, data, bs[i].key, e) == ValueIn(Elements(bs[i].ranges), Slice(bs, data, i), e)
  {
    var k := bs[i].key;
    assert HasKey(bs, k) && Counted(bs[i]);
    assert forall j | 0 <= j < |bs| && bs[j].key == k :: j == i;
  }

  lemma ValueNone<V>(bs: seq<Binding>, data: seq<V>, key: nat, e: nat)
    requires WellFormed(bs, |data|) && !HasKey(bs, key)
    ensures Value(bs, data, key, e) == None
  {
  }

  // ----- Emplacing an empty binding

  /** bs2 is bs with an empty binding at place p. */
  ghost predicate IsEmplaced(bs2: seq<Binding>, bs: seq<Binding>, p: nat) {
    && p <= |bs| && |bs2| == |bs| + 1
    && (forall i | 0 <= i < p :: bs2[i] == bs[i])
    && bs2[p].count == 0 && bs2[p].ranges == []
    && (forall i | p <= i < |bs| :: bs2[i + 1] == bs[i])
  }

  lemma {:induction false} EmplacedSum(bs2: seq<Binding>, bs: seq<Binding>, p: nat, i: nat)
    requires IsEmplaced(bs2, bs, p) && i <= |bs2|
    ensures Sum(bs2, i) == Sum(bs, if i <= p then i else i - 1)
  {
    if i > 0 {
      EmplacedSum(bs2, bs, p, i - 1);
      if i - 1 > p { assert bs2[i - 1] == bs[i - 2]; }
    }
  }

  lemma EmplacedInOrder(bs2: seq<Binding>, bs: seq<Binding>, p: nat)
    requires InKeyOrder(bs) && IsEmplaced(bs2, bs, p)
    requires forall i | 0 <= i < p :: bs[i].key < bs2[p].key
    requires forall i | p <= i < |bs| :: bs2[p].key < bs[i].key
    ensures InKeyOrder(bs2)
  {
    forall i, j | 0 <= i < j < |bs2| ensures bs2[i].key < bs2[j].key {
      if i > p { assert bs2[i] == bs[i - 1]; }
      if j > p { assert bs2[j] == bs[j - 1]; }
    }
  }

  lemma EmplacedPlaced(bs2: seq<Binding>, bs: seq<Binding>, p: nat, i: nat)
    requires IsEmplaced(bs2, bs, p) && i < |bs2| && bs2[p].offset == Sum(bs, p)
    requires forall k | 0 <= k < |bs| :: Placed(bs, k)
    ensures Placed(bs2, i)
  {
    EmplacedSum(bs2, bs, p, i);
    if i < p {
      assert Placed(bs, i);
    } else if i > p {
      assert Placed(bs, i - 1) && bs2[i] == bs[i - 1];
    }
  }

  lemma EmplacedPacked(bs2: seq<Binding>, bs: seq<Binding>, p: nat, size: nat)
    requires Packed(bs, size) && IsEmplaced(bs2, bs, p) && bs2[p].offset == Sum(bs, p)
    ensures Packed(bs2, size)
  {
    forall i | 0 <= i < |bs2| ensures Placed(bs2, i) {
      EmplacedPlaced(bs2, bs, p, i);
    }
    EmplacedSum(bs2, bs, p, |bs2|);
  }

  lemma EmplacedCounted(bs2: seq<Binding>, bs: seq<Binding>, p: nat)
    requires IsEmplaced(bs2, bs, p) && AllCounted(bs)
    ensures AllCounted(bs2)
  {
    forall i | 0 <= i < |bs2| ensures Counted(bs2[i]) {
      if i < p { assert Counted(bs[i]); }
      if i > p { assert bs2[i] == bs[i - 1] && Counted(bs[i - 1]); }
    }
  }

  /** The binding with a given key keeps its values: it has moved from i to j. */
  lemma MovedValue<V>(bs2: seq<Binding>, bs: seq<Binding>, data: seq<V>, i: nat, j: nat, e: nat)
    requires WellFormed(bs, |data|) && WellFormed(bs2, |data|)
    requires i < |bs| && j < |bs2| && bs2[j] == bs[i]
    ensures Value(bs2, data, bs[i].key, e) == Value(bs, data, bs[i].key, e)
  {
    ValueAt(bs, data, i, e);
    ValueAt(bs2, data, j, e);
  }

  lemma EmplacedKeys(bs2: seq<Binding>, bs: seq<Binding>, p: nat, key: nat)
    requires IsEmplaced(bs2, bs, p)
    ensures HasKey(bs2, key) <==> HasKey(bs, key) || key == bs2[p].key
  {
    if HasKey(bs, key) {
      var i: nat :| i < |bs| && bs[i].key == key;
      assert bs2[if i < p then i else i + 1] == bs[i];
    }
    if HasKey(bs2, key) {
      var j: nat :| j < |bs2| && bs2[j].key == key;
      if j > p { assert bs2[j] == bs[j - 1]; }
    }
  }

  /** An empty binding holds no value, and the others keep theirs. */
  lemma EmplacedValue<V>(bs2: seq<Binding>, bs: seq<Binding>, p: nat, data: seq<V>, key: nat, e: nat)
    requires WellFormed(bs, |data|) && WellFormed(bs2, |data|) && IsEmplaced(bs2, bs, p)
    requires !HasKey(bs, bs2[p].key)
    ensures Value(bs2, data, key, e) == Value(bs, data, key, e)
  {
    EmplacedKeys(bs2, bs, p, key);
    if HasKey(bs, key) {
      var i: nat :| i < |bs| && bs[i].key == key;
      MovedValue(bs2, bs, data, i, if i < p then i else i + 1, e);
    } else {
      ValueNone(bs, data, key, e);
      if HasKey(bs2, key) {
        ValueAt(bs2, data, p, e);
      } else {
        ValueNone(bs2, data, key, e);
      }
    }
  }

  // ----- Replacing the values of one binding

  /** bs2 differs from bs in the count and ranges of binding p, and in offsets. */
  ghost predicate IsRestocked(bs2: seq<Binding>, bs: seq<Binding>, p: nat) {
    && p < |bs| && |bs2| == |bs|
    && forall i | 0 <= i < |bs| :: bs2[i].key == bs[i].key && bs2[i].kind == bs[i].kind
                                   && (i != p ==> bs2[i].count == bs[i].count && bs2[i].ranges == bs[i].ranges)
  }

  lemma {:induction false} RestockedSum(bs2: seq<Binding>, bs: seq<Binding>, p: nat, i: nat)
    requires IsRestocked(bs2, bs, p) && i <= |bs|
    ensures Sum(bs2, i) == Sum(bs, i) + if i <= p then 0 else bs2[p].count - bs[p].count
  {
    if i > 0 {
      RestockedSum(bs2, bs, p, i - 1);
    }
  }

  /** The buffer with the stretch of binding p replaced by values. */
  function Spliced<V>(bs: seq<Binding>, data: seq<V>, p: nat, values: seq<V>): (r: seq<V>)
    requires Packed(bs, |data|) && p < |bs|
    ensures |r| == |data| - bs[p].count + |values|
  {
    SumGrows(bs, p + 1, |bs|);
    assert Placed(bs, p);
    data[..bs[p].offset] + values + data[bs[p].offset + bs[p].count..]
  }

  lemma SplicedWellFormed<V>(bs2: seq<Binding>, bs: seq<Binding>, data: seq<V>, p: nat, values: seq<V>)
    requires WellFormed(bs, |data|) && IsRestocked(bs2, bs, p) && bs2[p].count == |values| && Counted(bs2[p])
    requires forall i | 0 <= i < |bs2| :: Placed(bs2, i)
    ensures WellFormed(bs2, |Spliced(bs, data, p, values)|)
  {
    RestockedSum(bs2, bs, p, |bs|);
    forall i | 0 <= i < |bs2| ensures Counted(bs2[i]) {
      if i != p { assert Counted(bs[i]); }
    }
  }

  lemma CutBefore<V>(data: seq<V>, o: nat, c: nat, values: seq<V>, low: nat, high: nat)
    requires low <= high <= o && o + c <= |data|
    ensures (data[..o] + values + data[o + c..])[low..high] == data[low..high]
  {
  }

  lemma CutAfter<V>(data: seq<V>, o: nat, c: nat, values: seq<V>, low: nat, high: nat)
    requires o + c <= low <= high <= |data|
    ensures (data[..o] + values + data[o + c..])[low - c + |values|..high - c + |values|] == data[low..high]
  {
    var all := data[..o] + values + data[o + c..];
    assert all[o + |values|..] == data[o + c..];
    assert all[o + |values|..][low - o - c..high - o - c] == all[low - c + |values|..high - c + |values|];
  }

  lemma CutWithin<V>(data: seq<V>, o: nat, c: nat, values: seq<V>)
    requires o + c <= |data|
    ensures (data[..o] + values + data[o + c..])[o..o + |values|] == values
  {
  }

  lemma SplicedBefore<V>(bs2: seq<Binding>, bs: seq<Binding>, data: seq<V>, p: nat, values: seq<V>, i: nat)
    requires Packed(bs, |data|) && IsRestocked(bs2, bs, p) && bs2[p].count == |values|
    requires Packed(bs2, |Spliced(bs, data, p, values)|) && i < p
    ensures Slice(bs2, Spliced(bs, data, p, values), i) == Slice(bs, data, i)
  {
    assert Placed(bs, i) && Placed(bs2, i) && Placed(bs, p);
    RestockedSum(bs2, bs, p, i);
    SumGrows(bs, i + 1, p);
    SumGrows(bs, p + 1, |bs|);
    CutBefore(data, bs[p].offset, bs[p].count, values, bs[i].offset, bs[i].offset + bs[i].count);
  }

  lemma SplicedAfter<V>(bs2: seq<Binding>, bs: seq<Binding>, data: seq<V>, p: nat, values: seq<V>, i: nat)
    requires Packed(bs, |data|) && IsRestocked(bs2, bs, p) && bs2[p].count == |values|
    requires Packed(bs2, |Spliced(bs, data, p, values)|) && p < i < |bs|
    ensures Slice(bs2, Spliced(bs, data, p, values), i) == Slice(bs, data, i)
  {
    assert Placed(bs, i) && Placed(bs2, i) && Placed(bs, p);
    RestockedSum(bs2, bs, p, i);
    SumGrows(bs, p + 1, i);
    SumGrows(bs, i + 1, |bs|);
    CutAfter(data, bs[p].offset, bs[p].count, values, bs[i].offset, bs[i].offset + bs[i].count);
  }

  lemma SplicedWithin<V>(bs2: seq<Binding>, bs: seq<Binding>, data: seq<V>, p: nat, values: seq<V>)
    requires Packed(bs, |data|) && IsRestocked(bs2, bs, p) && bs2[p].count == |values|
    requires Packed(bs2, |Spliced(bs, data, p, values)|)
    ensures Slice(bs2, Spliced(bs, data, p, values), p) == values
  {
    assert Placed(bs2, p) && Placed(bs, p);
    RestockedSum(bs2, bs, p, p);
    SumGrows(bs, p + 1, |bs|);
    CutWithin(data, bs[p].offset, bs[p].count, values);
  }

  /** Only the values of binding p can change. */
  lemma SplicedOthers<V>(bs2: seq<Binding>, bs: seq<Binding>, data: seq<V>, p: nat, values: seq<V>, key: nat, e: nat)
    requires WellFormed(bs, |data|) && IsRestocked(bs2, bs, p) && bs2[p].count == |values|
    requires WellFormed(bs2, |Spliced(bs, data, p, values)|) && key != bs[p].key
    ensures Value(bs2, Spliced(bs, data, p, values), key, e) == Value(bs, data, key, e)
  {
    var data2 := Spliced(bs, data, p, values);
    if HasKey(bs, key) {
      var i: nat :| i < |bs| && bs[i].key == key;
      if i < p { SplicedBefore(bs2, bs, data, p, values, i); } else { SplicedAfter(bs2, bs, data, p, values, i); }
      ValueAt(bs, data, i, e);
      ValueAt(bs2, data2, i, e);
    } else {
      assert !HasKey(bs2, key);
      ValueNone(bs, data, key, e);
      ValueNone(bs2, data2, key, e);
    }
  }

  lemma SplicedOwn<V>(bs2: seq<Binding>, bs: seq<Binding>, data: seq<V>, p: nat, values: seq<V>, e: nat)
    requires WellFormed(bs, |data|) && IsRestocked(bs2, bs, p) && bs2[p].count == |values|
    requires WellFormed(bs2, |Spliced(bs, data, p, values)|)
    ensures Counted(bs2[p])
    ensures Value(bs2, Spliced(bs, data, p, values), bs[p].key, e) == ValueIn(Elements(bs2[p].ranges), values, e)
  {
    SplicedWithin(bs2, bs, data, p, values);
    ValueAt(bs2, Spliced(bs, data, p, values), p, e);
  }

  // ----- Whole-binding updates

  /** The map that setting a whole binding means. */
  ghost predicate IsWhole<V(!new)>(es: seq<nat>, values: seq<V>)
    requires |values| == |es|
  {
    forall e: nat :: ValueIn(es, values, e) == if e < |values| then Some(values[e]) else None
  }

  /** The packed values are elements 0, 1, 2, ... only when the ranges say so. */
  lemma WholeExactly<V(!new)>(es: seq<nat>, values: seq<V>)
    requires Increasing(es) && |values| == |es|
    ensures IsWhole(es, values) <==> es == Span(0, |values|)
  {
    var whole := Span(0, |values|);
    if IsWhole(es, values) {
      forall e: nat ensures e in es <==> e in whole {
        assert e in es <==> ValueIn(es, values, e) != None;
        assert e < |values| ==> whole[e] == e;
      }
      IncreasingUnique(es, whole);
    } else if es == whole {
      forall e: nat ensures ValueIn(es, values, e) == if e < |values| then Some(values[e]) else None {
        if e < |values| { ValueInAt(es, values, e); }
      }
    }
  }

  // ----- The update template

  /** n * size, as repeated addition. */
  function Bytes(n: nat, size: nat): nat {
    if n == 0 then 0 else Bytes(n - 1, size) + size
  }

  lemma {:induction false} BytesIsProduct(n: nat, size: nat)
    ensures Bytes(n, size) == n * size
  {
    if n > 0 { BytesIsProduct(n - 1, size); }
  }

  lemma {:induction false} BytesAdd(n: nat, j: nat, size: nat)
    ensures Bytes(n, size) + Bytes(j, size) == Bytes(n + j, size)
  {
    if j > 0 {
      BytesAdd(n, j - 1, size);
      assert Bytes(n + j, size) == Bytes(n + j - 1, size) + size;
    }
  }

  datatype Entry = Entry(binding: nat, element: nat, count: nat, kind: nat, offset: nat, stride: nat)

  /** One descriptor written by the device: element of binding, read at byte address from. */
  datatype Copy = Copy(binding: nat, element: nat, from: nat)

  /** What an entry does, by chapter 14 of the Vulkan 1.2 specification ("Descriptor Update Templates"). */
  function CopiesOf(en: Entry): (c: seq<Copy>)
    ensures |c| == en.count
  {
    seq(en.count, (j: nat) => Copy(en.binding, en.element + j, en.offset + Bytes(j, en.stride)))
  }

  function Copies(ens: seq<Entry>): seq<Copy> {
    if ens == [] then [] else CopiesOf(ens[0]) + Copies(ens[1..])
  }

  lemma CopiesCons(en: Entry, rest: seq<Entry>)
    ensures Copies([en] + rest) == CopiesOf(en) + Copies(rest)
  {
    assert ([en] + rest)[1..] == rest;
  }

  lemma {:induction false} CopiesJoin(a: seq<Entry>, b: seq<Entry>)
    ensures Copies(a + b) == Copies(a) + Copies(b)
  {
    if a == [] {
      assert a + b == b;
    } else {
      CopiesJoin(a[1..], b);
      CopiesCons(a[0], a[1..]);
      CopiesCons(a[0], a[1..] + b);
      assert a == [a[0]] + a[1..] && a + b == [a[0]] + (a[1..] + b);
      CopiesAssociate(CopiesOf(a[0]), Copies(a[1..]), Copies(b));
    }
  }

  lemma CopiesAssociate(a: seq<Copy>, b: seq<Copy>, c: seq<Copy>)
    ensures a + (b + c) == (a + b) + c
  {
  }

  function Width(r: Range): (w: nat)
    ensures w == |Span(r.low, r.high)|
  {
    if r.low < r.high then r.high - r.low else 0
  }

  /** The entries of one binding: one a range. */
  function RangeEntries(b: Binding, rs: seq<Range>, rangeOffset: nat, slotSize: nat): seq<Entry> {
    if rs == [] then []
    else [Entry(b.key, rs[0].low, Width(rs[0]), b.kind, Bytes(b.offset + rangeOffset, slotSize), slotSize)]
         + RangeEntries(b, rs[1..], rangeOffset + Width(rs[0]), slotSize)
  }

  /** The entries of the first i bindings. */
  function Entries(bs: seq<Binding>, i: nat, slotSize: nat): seq<Entry>
    requires i <= |bs|
  {
    if i == 0 then [] else Entries(bs, i - 1, slotSize) + RangeEntries(bs[i - 1], bs[i - 1].ranges, 0, slotSize)
  }

  /** The entries of a binding copy its elements in order from consecutive slots. */
  lemma {:induction false} RangeCopies(b: Binding, rs: seq<Range>, rangeOffset: nat, slotSize: nat)
    ensures |Copies(RangeEntries(b, rs, rangeOffset, slotSize))| == |Elements(rs)|
    ensures forall k | 0 <= k < |Elements(rs)| ::
              Copies(RangeEntries(b, rs, rangeOffset, slotSize))[k]
              == Copy(b.key, Elements(rs)[k], Bytes(b.offset + rangeOffset + k, slotSize))
  {
    if rs != [] {
      var n := Width(rs[0]);
      var slot := b.offset + rangeOffset;
      var first := Entry(b.key, rs[0].low, n, b.kind, Bytes(slot, slotSize), slotSize);
      var rest := RangeEntries(b, rs[1..], rangeOffset + n, slotSize);
      RangeCopies(b, rs[1..], rangeOffset + n, slotSize);
      assert RangeEntries(b, rs, rangeOffset, slotSize) == [first] + rest;
      assert ([first] + rest)[1..] == rest;
      forall k | 0 <= k < |Elements(rs)|
        ensures (CopiesOf(first) + Copies(rest))[k] == Copy(b.key, Elements(rs)[k], Bytes(slot + k, slotSize))
      {
        if k < n {
          BytesAdd(slot, k, slotSize);
        } else {
          assert Elements(rs)[k] == Elements(rs[1..])[k - n];
        }
      }
    }
  }

  /** The copies that binding b needs: each element from the slot that holds its value. */
  function Planned(b: Binding, slotSize: nat): (c: seq<Copy>)
    ensures |c| == |Elements(b.ranges)|
    ensures forall k | 0 <= k < |c| :: c[k] == Copy(b.key, Elements(b.ranges)[k], Bytes(b.offset + k, slotSize))
  {
    var es := Elements(b.ranges);
    seq(|es|, k requires 0 <= k < |es| => Copy(b.key, es[k], Bytes(b.offset + k, slotSize)))
  }

  /** One list after the other, for the first n. */
  function Flat(parts: seq<seq<Copy>>, n: nat): seq<Copy>
    requires n <= |parts|
  {
    if n == 0 then [] else Flat(parts, n - 1) + parts[n - 1]
  }

  lemma JoinAt(all: seq<Copy>, a: seq<Copy>, b: seq<Copy>, k: nat)
    requires all == a + b && k < |all|
    ensures all[k] == if k < |a| then a[k] else b[k - |a|]
  {
  }

  /** The k-th member of part i stands k places after the parts before it. */
  lemma {:induction false} FlatAt(parts: seq<seq<Copy>>, n: nat, i: nat, k: nat, at: nat)
    requires i < n <= |parts| && k < |parts[i]| && at == |Flat(parts, i)| + k
    ensures at < |Flat(parts, n)| && Flat(parts, n)[at] == parts[i][k]
  {
    if i < n - 1 {
      FlatAt(parts, n - 1, i, k, at);
    }
    JoinAt(Flat(parts, n), Flat(parts, n - 1), parts[n - 1], at);
  }

  /** The copies that each binding needs. */
  function Plan(bs: seq<Binding>, slotSize: nat): (parts: seq<seq<Copy>>)
    ensures |parts| == |bs|
    ensures forall i | 0 <= i < |bs| :: parts[i] == Planned(bs[i], slotSize)
  {
    seq(|bs|, i requires 0 <= i < |bs| => Planned(bs[i], slotSize))
  }

  lemma RangesPlanned(b: Binding, slotSize: nat)
    ensures Copies(RangeEntries(b, b.ranges, 0, slotSize)) == Planned(b, slotSize)
  {
    RangeCopies(b, b.ranges, 0, slotSize);
  }

  lemma CopiesOfBoth(all: seq<Entry>, a: seq<Entry>, b: seq<Entry>, ca: seq<Copy>, cb: seq<Copy>)
    requires all == a + b && ca == Copies(a) && cb == Copies(b)
    ensures Copies(all) == ca + cb
  {
    CopiesJoin(a, b);
  }

  /** The entries do what is planned. */
  lemma {:induction false} CopiesPlanned(bs: seq<Binding>, n: nat, slotSize: nat, parts: seq<seq<Copy>>)
    requires n <= |bs| && parts == Plan(bs, slotSize)
    ensures Copies(Entries(bs, n, slotSize)) == Flat(parts, n)
  {
    if n > 0 {
      var b := bs[n - 1];
      CopiesPlanned(bs, n - 1, slotSize, parts);
      RangesPlanned(b, slotSize);
      CopiesOfBoth(Entries(bs, n, slotSize), Entries(bs, n - 1, slotSize), RangeEntries(b, b.ranges, 0, slotSize),
                   Flat(parts, n - 1), parts[n - 1]);
    }
  }

  lemma {:induction false} PlanCount(bs: seq<Binding>, n: nat, slotSize: nat, parts: seq<seq<Copy>>)
    requires n <= |bs| == |parts| && forall i | 0 <= i < |bs| :: |parts[i]| == bs[i].count
    ensures |Flat(parts, n)| == Sum(bs, n)
  {
    if n > 0 { PlanCount(bs, n - 1, slotSize, parts); }
  }

  /** Every slot belongs to a binding. */
  lemma {:induction false} SlotOwner(bs: seq<Binding>, n: nat, slot: nat) returns (i: nat, k: nat)
    requires n <= |bs| && slot < Sum(bs, n) && forall j | 0 <= j < |bs| :: Placed(bs, j)
    ensures i < n && k < bs[i].count && slot == bs[i].offset + k
  {
    if slot < Sum(bs, n - 1) {
      i, k := SlotOwner(bs, n - 1, slot);
    } else {
      assert Placed(bs, n - 1);
      i, k := n - 1, slot - Sum(bs, n - 1);
    }
  }

  lemma SliceElement<V>(bs: seq<Binding>, data: seq<V>, i: nat, k: nat)
    requires Packed(bs, |data|) && i < |bs| && k < bs[i].count
    ensures bs[i].offset + k < |data| && Slice(bs, data, i)[k] == data[bs[i].offset + k]
  {
    SumGrows(bs, i + 1, |bs|);
    assert Placed(bs, i);
  }

  lemma SliceAt<V>(bs: seq<Binding>, data: seq<V>, i: nat, b: Binding, es: seq<nat>, k: nat)
    requires WellFormed(bs, |data|) && i < |bs| && b == bs[i] && Counted(b) && es == Elements(b.ranges) && k < |es|
    ensures b.offset + k < |data| && Value(bs, data, b.key, es[k]) == Some(data[b.offset + k])
  {
    SliceElement(bs, data, i, k);
    ElementsIncreasing(b.ranges);
    ValueInAt(es, Slice(bs, data, i), k);
    ValueAt(bs, data, i, es[k]);
  }

  /** Slot number slot holds the k-th element of binding b, the i-th. */
  ghost predicate Holds(bs: seq<Binding>, i: nat, b: Binding, k: nat, slot: nat) {
    i < |bs| && bs[i] == b && k < |Elements(b.ranges)| && slot == b.offset + k
  }

  lemma SlotHolder(bs: seq<Binding>, size: nat, slot: nat) returns (i: nat, b: Binding, k: nat)
    requires WellFormed(bs, size) && slot < size
    ensures Holds(bs, i, b, k, slot)
  {
    i, k := SlotOwner(bs, |bs|, slot);
    b := bs[i];
    assert Counted(b);
  }

  lemma PlanSizes(bs: seq<Binding>, slotSize: nat)
    requires AllCounted(bs)
    ensures forall i | 0 <= i < |bs| :: |Plan(bs, slotSize)[i]| == bs[i].count
  {
    forall i | 0 <= i < |bs| ensures |Plan(bs, slotSize)[i]| == bs[i].count {
      assert Counted(bs[i]);
    }
  }

  /** Slot number slot is copied to the element it holds. */
  lemma PlannedCopy(bs: seq<Binding>, size: nat, slotSize: nat, parts: seq<seq<Copy>>, i: nat, k: nat, slot: nat)
    requires WellFormed(bs, size) && parts == Plan(bs, slotSize) && i < |bs| && k < |parts[i]| && slot == bs[i].offset + k
    ensures slot < size == |Flat(parts, |bs|)| && Flat(parts, |bs|)[slot] == parts[i][k]
  {
    assert Placed(bs, i);
    PlanSizes(bs, slotSize);
    PlanCount(bs, i, slotSize, parts);
    PlanCount(bs, |bs|, slotSize, parts);
    FlatAt(parts, |bs|, i, k, slot);
  }

  lemma HeldPlanned(bs: seq<Binding>, size: nat, slotSize: nat, parts: seq<seq<Copy>>, i: nat, b: Binding, k: nat, slot: nat, c: Copy)
    requires WellFormed(bs, size) && parts == Plan(bs, slotSize) && Holds(bs, i, b, k, slot)
    requires c == Copy(b.key, Elements(b.ranges)[k], Bytes(slot, slotSize))
    ensures slot < size == |Flat(parts, |bs|)| && Flat(parts, |bs|)[slot] == c
  {
    PlannedCopy(bs, size, slotSize, parts, i, k, slot);
    assert parts[i] == Planned(b, slotSize);
  }

  lemma HeldCopy(bs: seq<Binding>, size: nat, slotSize: nat, i: nat, b: Binding, k: nat, slot: nat, c: Copy)
    requires WellFormed(bs, size) && Holds(bs, i, b, k, slot)
    requires c == Copy(b.key, Elements(b.ranges)[k], Bytes(slot, slotSize))
    ensures slot < size == |Copies(Entries(bs, |bs|, slotSize))| && Copies(Entries(bs, |bs|, slotSize))[slot] == c
  {
    var parts := Plan(bs, slotSize);
    HeldPlanned(bs, size, slotSize, parts, i, b, k, slot, c);
    CopiesPlanned(bs, |bs|, slotSize, parts);
  }

  lemma HeldValue<V>(bs: seq<Binding>, data: seq<V>, i: nat, b: Binding, k: nat, slot: nat)
    requires WellFormed(bs, |data|) && Holds(bs, i, b, k, slot)
    ensures slot < |data| && Value(bs, data, b.key, Elements(b.ranges)[k]) == Some(data[slot])
  {
    assert Counted(bs[i]);
    SliceAt(bs, data, i, b, Elements(b.ranges), k);
  }

  lemma HeldBefore(bs: seq<Binding>, size: nat, i: nat, b: Binding, k: nat, s: nat, j: nat, d: Binding, l: nat, t: nat)
    requires WellFormed(bs, size) && Holds(bs, i, b, k, s) && Holds(bs, j, d, l, t) && i < j
    ensures s < t
  {
    assert Counted(bs[i]) && Placed(bs, i) && Placed(bs, j);
    SumGrows(bs, i + 1, j);
  }

  /** Slots ascend with the binding, then with the element. */
  lemma HeldOrder(bs: seq<Binding>, size: nat, i: nat, b: Binding, k: nat, s: nat, j: nat, d: Binding, l: nat, t: nat)
    requires WellFormed(bs, size) && Holds(bs, i, b, k, s) && Holds(bs, j, d, l, t) && s < t
    ensures b.key < d.key || (b.key == d.key && Elements(b.ranges)[k] < Elements(d.ranges)[l])
  {
    if j < i {
      HeldBefore(bs, size, j, d, l, t, i, b, k, s);
    } else if i == j {
      assert Counted(bs[i]);
      ElementsIncreasing(b.ranges);
    }
  }

  /** The copy that slot number slot needs. */
  function CopyFor(b: Binding, k: nat, slot: nat, slotSize: nat): Copy
    requires k < |Elements(b.ranges)|
  {
    Copy(b.key, Elements(b.ranges)[k], Bytes(slot, slotSize))
  }

  /** The template reads every slot of the buffer exactly once, in order, and writes each value to the binding and
      element that hold it. */
  lemma TemplateReadsEverySlot<V>(bs: seq<Binding>, data: seq<V>, slotSize: nat, slot: nat)
    requires WellFormed(bs, |data|) && slot < |data|
    ensures |Copies(Entries(bs, |bs|, slotSize))| == |data|
    ensures var c := Copies(Entries(bs, |bs|, slotSize))[slot];
            c.from == Bytes(slot, slotSize) && Value(bs, data, c.binding, c.element) == Some(data[slot])
  {
    var i, b, k := SlotHolder(bs, |data|, slot);
    HeldCopy(bs, |data|, slotSize, i, b, k, slot, CopyFor(b, k, slot, slotSize));
    HeldValue(bs, data, i, b, k, slot);
  }

  lemma ValueHeld<V>(bs: seq<Binding>, data: seq<V>, key: nat, e: nat) returns (i: nat, b: Binding, k: nat)
    requires WellFormed(bs, |data|) && Value(bs, data, key, e) != None
    ensures Holds(bs, i, b, k, b.offset + k) && b.key == key && Elements(b.ranges)[k] == e
  {
    i :| 0 <= i < |bs| && bs[i].key == key;
    b := bs[i];
    ValueAt(bs, data, i, e);
    k :| 0 <= k < |Elements(b.ranges)| && Elements(b.ranges)[k] == e;
  }

  lemma ValueSlot<V>(bs: seq<Binding>, data: seq<V>, key: nat, e: nat) returns (i: nat, b: Binding, k: nat, slot: nat)
    requires WellFormed(bs, |data|) && Value(bs, data, key, e) != None
    ensures Holds(bs, i, b, k, slot) && b.key == key && Elements(b.ranges)[k] == e
    ensures slot < |data| && Value(bs, data, key, e) == Some(data[slot])
  {
    i, b, k := ValueHeld(bs, data, key, e);
    slot := b.offset + k;
    HeldValue(bs, data, i, b, k, slot);
  }

  /** Every value is copied. */
  lemma TemplateWritesEveryValue<V>(bs: seq<Binding>, data: seq<V>, slotSize: nat, key: nat, e: nat) returns (slot: nat)
    requires WellFormed(bs, |data|) && Value(bs, data, key, e) != None
    ensures slot < |data| == |Copies(Entries(bs, |bs|, slotSize))|
    ensures Value(bs, data, key, e) == Some(data[slot])
    ensures Copies(Entries(bs, |bs|, slotSize))[slot] == Copy(key, e, Bytes(slot, slotSize))
  {
    var i, b, k;
    i, b, k, slot := ValueSlot(bs, data, key, e);
    HeldCopy(bs, |data|, slotSize, i, b, k, slot, Copy(key, e, Bytes(slot, slotSize)));
  }

  /** No descriptor is written twice: the copies ascend by binding, then by element. */
  lemma TemplateWritesOnce(bs: seq<Binding>, size: nat, slotSize: nat, s: nat, t: nat)
    requires WellFormed(bs, size) && s < t < size
    ensures |Copies(Entries(bs, |bs|, slotSize))| == size
    ensures var c, d := Copies(Entries(bs, |bs|, slotSize))[s], Copies(Entries(bs, |bs|, slotSize))[t];
            c.binding < d.binding || (c.binding == d.binding && c.element < d.element)
  {
    var i, b, k := SlotHolder(bs, size, s);
    var j, d, l := SlotHolder(bs, size, t);
    HeldCopy(bs, size, slotSize, i, b, k, s, CopyFor(b, k, s, slotSize));
    HeldCopy(bs, size, slotSize, j, d, l, t, CopyFor(d, l, t, slotSize));
    HeldOrder(bs, size, i, b, k, s, j, d, l, t);
  }
}
