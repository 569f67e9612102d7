/** The three SetDescriptorData overloads of src/rhi/vulkan/pipeline.inl over the packed form of Bindings, and the
    template built after each of them. */
module DescriptorData {
  import opened Ranges = RangeSet
  import opened Bindings
  import opened Options

  /** bs2 differs from bs in offsets only. */
  ghost predicate IsMoved(bs2: seq<Binding>, bs: seq<Binding>) {
    |bs2| == |bs| && forall i | 0 <= i < |bs| :: bs2[i] == bs[i].(offset := bs2[i].offset)
  }

  lemma {:induction false} MovedSum(bs2: seq<Binding>, bs: seq<Binding>, i: nat)
    requires IsMoved(bs2, bs) && i <= |bs|
    ensures Sum(bs2, i) == Sum(bs, i)
  {
    if i > 0 { MovedSum(bs2, bs, i - 1); }
  }

  // ----- What each overload means, and when it does so

  /** Element index of binding key becomes v, and the binding's other elements keep their values. */
  ghost predicate Sets<V(!new)>(bs2: seq<Binding>, data2: seq<V>, bs: seq<Binding>, data: seq<V>, key: nat, index: nat, v: V)
    requires WellFormed(bs, |data|) && WellFormed(bs2, |data2|)
  {
    forall e: nat :: Value(bs2, data2, key, e) == if e == index then Some(v) else Value(bs, data, key, e)
  }

  /** Binding key consists of the given values, from element 0 on. */
  ghost predicate Consists<V(!new)>(bs: seq<Binding>, data: seq<V>, key: nat, values: seq<V>)
    requires WellFormed(bs, |data|)
  {
    forall e: nat :: Value(bs, data, key, e) == if e < |values| then Some(values[e]) else None
  }

  /** The other bindings keep their values. */
  ghost predicate OthersKeep<V(!new)>(bs2: seq<Binding>, data2: seq<V>, bs: seq<Binding>, data: seq<V>, key: nat)
    requires WellFormed(bs, |data|) && WellFormed(bs2, |data2|)
  {
    forall k: nat, e: nat | k != key :: Value(bs2, data2, k, e) == Value(bs, data, k, e)
  }

  /** The values of binding key are the packed ones of this list of elements. */
  ghost predicate Shows<V(!new)>(bs: seq<Binding>, data: seq<V>, key: nat, es: seq<nat>, values: seq<V>)
    requires WellFormed(bs, |data|)
  {
    |values| == |es| && Increasing(es) && forall e: nat :: Value(bs, data, key, e) == ValueIn(es, values, e)
  }

  lemma ShowsSlice<V(!new)>(bs: seq<Binding>, data: seq<V>, p: nat)
    requires WellFormed(bs, |data|) && p < |bs|
    ensures Shows(bs, data, bs[p].key, Elements(bs[p].ranges), Slice(bs, data, p))
  {
    assert Counted(bs[p]);
    ElementsIncreasing(bs[p].ranges);
    forall e: nat ensures Value(bs, data, bs[p].key, e) == ValueIn(Elements(bs[p].ranges), Slice(bs, data, p), e) {
      ValueAt(bs, data, p, e);
    }
  }

  lemma SetsIsUpdate<V(!new)>(bs2: seq<Binding>, data2: seq<V>, es2: seq<nat>, values2: seq<V>,
                              bs: seq<Binding>, data: seq<V>, es: seq<nat>, values: seq<V>, key: nat, index: nat, v: V)
    requires WellFormed(bs, |data|) && WellFormed(bs2, |data2|)
    requires Shows(bs2, data2, key, es2, values2) && Shows(bs, data, key, es, values)
    ensures Sets(bs2, data2, bs, data, key, index, v) <==> IsUpdate(es2, values2, es, values, index, v)
  {
  }

  /** Only binding p may have no values. */
  predicate NoneEmptyBut(bs: seq<Binding>, p: nat) { forall i | 0 <= i < |bs| && i != p :: bs[i].count > 0 }

  ghost predicate UpdatesElement<V(!new)>(es: seq<nat>, values: seq<V>, index: nat, v: V)
    requires |values| == |es|
  {
    index in es || forall e: nat | index < e :: NoneOr(ValueIn(es, values, e), v)
  }

  lemma InOrderIsUpdates<V(!new)>(bs: seq<Binding>, data: seq<V>, es: seq<nat>, values: seq<V>, key: nat, index: nat, v: V)
    requires WellFormed(bs, |data|) && Shows(bs, data, key, es, values)
    ensures InOrderFor(bs, data, key, index, v) <==> UpdatesElement(es, values, index, v)
  {
  }

  /** The scalar overload: the binding is new, or its one value is that of element 0. */
  ghost predicate ScalarFor<V(!new)>(bs: seq<Binding>, data: seq<V>, key: nat)
    requires WellFormed(bs, |data|)
  {
    !HasKey(bs, key) || Value(bs, data, key, 0) != None
  }

  predicate NoneOr<V(==)>(o: Option<V>, v: V) { o == None || o == Some(v) }

  /** The indexed overload: the element is set already, or every element above it holds v. */
  ghost predicate InOrderFor<V(!new)>(bs: seq<Binding>, data: seq<V>, key: nat, index: nat, v: V)
    requires WellFormed(bs, |data|)
  {
    Value(bs, data, key, index) != None || forall e: nat | index < e :: NoneOr(Value(bs, data, key, e), v)
  }

  /** The vector overload: a binding that has n values has them for its elements 0 to n - 1. */
  ghost predicate WholeFor(bs: seq<Binding>, key: nat, n: nat) {
    forall i | 0 <= i < |bs| && bs[i].key == key && bs[i].count == n :: bs[i].ranges == [Range(0, n)]
  }

  lemma OneRange(rs: seq<Range>, n: nat)
    requires Normal(rs) && n > 0
    ensures rs == [Range(0, n)] <==> Elements(rs) == Span(0, n)
  {
    var s := Span(0, n);
    assert rs == [Range(0, n)] ==> rs[1..] == [];
    if Elements(rs) == s {
      assert s[0] == 0 && s[n - 1] == n - 1;
      forall x: nat ensures Covers(rs, x) <==> x < n {
        ElementsCovered(rs, x);
        assert x < n ==> s[x] == x;
      }
      assert Covers(rs, 0) && Covers(rs, n - 1) && !Covers(rs, n);
      SingleRange(rs, n);
    }
  }

  lemma SingleRange(rs: seq<Range>, n: nat)
    requires Normal(rs) && n > 0 && forall x: nat :: Covers(rs, x) <==> x < n
    ensures rs == [Range(0, n)]
  {
    assert |rs| > 1 ==> Covers(rs, rs[1].low);
    assert Covers(rs, 0);
    assert rs[0].low == 0;
    EndNotCovered(rs, 0);
    assert Covers(rs, rs[0].high - 1);
  }

  lemma EmplacingShape(bs: seq<Binding>, p: nat, b: Binding)
    requires p <= |bs| && b.count == 0 && b.ranges == []
    ensures IsEmplaced(bs[..p] + [b] + bs[p..], bs, p) && (bs[..p] + [b] + bs[p..])[p] == b
  {
  }

  lemma EmplacingFormed(bs2: seq<Binding>, bs: seq<Binding>, p: nat, size: nat)
    requires WellFormed(bs, size) && IsEmplaced(bs2, bs, p)
    requires bs2[p].offset == if p == 0 then 0 else bs[p - 1].offset + bs[p - 1].count
    requires forall i | 0 <= i < p :: bs[i].key < bs2[p].key
    requires forall i | p <= i < |bs| :: bs2[p].key < bs[i].key
    ensures WellFormed(bs2, size)
  {
    assert p > 0 ==> Placed(bs, p - 1);
    EmplacedInOrder(bs2, bs, p);
    EmplacedPacked(bs2, bs, p, size);
    EmplacedCounted(bs2, bs, p);
  }

  lemma EmplacedNoneEmpty(bs2: seq<Binding>, bs: seq<Binding>, p: nat)
    requires IsEmplaced(bs2, bs, p)
    ensures NoneEmptyBut(bs, |bs|) ==> NoneEmptyBut(bs2, p)
  {
    assert forall i | p < i < |bs2| :: bs2[i] == bs[i - 1];
  }

  lemma EmplacingValues<V>(bs2: seq<Binding>, bs: seq<Binding>, p: nat, data: seq<V>)
    requires WellFormed(bs, |data|) && WellFormed(bs2, |data|) && IsEmplaced(bs2, bs, p) && !HasKey(bs, bs2[p].key)
    ensures forall k: nat, e: nat :: Value(bs2, data, k, e) == Value(bs, data, k, e)
  {
    forall k: nat, e: nat ensures Value(bs2, data, k, e) == Value(bs, data, k, e) {
      EmplacedValue(bs2, bs, p, data, k, e);
    }
  }

  lemma StartsPlaced(bs: seq<Binding>, was: seq<Binding>, p: nat)
    requires (forall i | 0 <= i < |was| :: Placed(was, i)) && IsRestocked(bs, was, p)
    requires forall i | 0 <= i <= p :: bs[i].offset == was[i].offset
    ensures forall i | 0 <= i <= p :: Placed(bs, i)
  {
    forall i | 0 <= i <= p ensures Placed(bs, i) {
      assert Placed(was, i);
      RestockedSum(bs, was, p, i);
    }
  }

  /** Once the offsets are recomputed the buffer is packed, and only binding p has other values. */
  lemma Finished<V(!new)>(bs: seq<Binding>, restocked: seq<Binding>, was: seq<Binding>, data: seq<V>, wasData: seq<V>, p: nat,
                    values: seq<V>)
    requires WellFormed(was, |wasData|) && IsRestocked(restocked, was, p) && restocked[p].count == |values|
    requires IsMoved(bs, restocked) && Counted(restocked[p]) && data == Spliced(was, wasData, p, values)
    requires forall i | 0 <= i < |bs| :: Placed(bs, i)
    ensures WellFormed(bs, |data|)
    ensures OthersKeep(bs, data, was, wasData, was[p].key)
    ensures Shows(bs, data, was[p].key, Elements(restocked[p].ranges), values)
  {
    assert IsRestocked(bs, was, p) && Counted(bs[p]);
    SplicedWellFormed(bs, was, wasData, p, values);
    ElementsIncreasing(restocked[p].ranges);
    forall k: nat, e: nat | k != was[p].key ensures Value(bs, data, k, e) == Value(was, wasData, k, e) {
      SplicedOthers(bs, was, wasData, p, values, k, e);
    }
    forall e: nat ensures Value(bs, data, was[p].key, e) == ValueIn(Elements(restocked[p].ranges), values, e) {
      SplicedOwn(bs, was, wasData, p, values, e);
    }
  }

  // ----- Setting one element

  /** The stretch of binding p lies in the buffer. */
  lemma StretchFits(bs: seq<Binding>, size: nat, p: nat)
    requires Packed(bs, size) && p < |bs|
    ensures bs[p].offset + bs[p].count <= size
  {
    assert Placed(bs, p);
    SumGrows(bs, p + 1, |bs|);
  }

  lemma SplicedAppend<V>(bs: seq<Binding>, data: seq<V>, p: nat, v: V)
    requires Packed(bs, |data|) && p < |bs| && bs[p].offset + bs[p].count <= |data|
    ensures Spliced(bs, data, p, Slice(bs, data, p) + [v])
            == data[..bs[p].offset + bs[p].count] + [v] + data[bs[p].offset + bs[p].count..]
  {
    assert data[..bs[p].offset + bs[p].count] == data[..bs[p].offset] + Slice(bs, data, p);
  }

  lemma SplicedOverwrite<V>(bs: seq<Binding>, data: seq<V>, p: nat, k: nat, v: V)
    requires Packed(bs, |data|) && p < |bs| && bs[p].offset + bs[p].count <= |data| && k < bs[p].count
    ensures Spliced(bs, data, p, Slice(bs, data, p)[k := v]) == data[bs[p].offset + k := v]
  {
  }

  /** Inserting one new point into the ranges inserts it into the list of elements. */
  lemma OneMoreElement(rs2: seq<Range>, rs: seq<Range>, x: nat)
    requires Normal(rs) && Normal(rs2) && IsUnion(rs2, rs, x, x + 1) && !Covers(rs, x)
    ensures IsInsertion(Elements(rs2), Elements(rs), Rank(Elements(rs), x), x)
  {
    ElementsIncreasing(rs);
    ElementsIncreasing(rs2);
    ElementsCovered(rs, x);
    forall y: nat ensures y in Elements(rs2) <==> y in Elements(rs) || y == x {
      ElementsCovered(rs, y);
      ElementsCovered(rs2, y);
    }
    Inserted(Elements(rs), x, Elements(rs2));
  }

  lemma OverwriteUpdates<V(!new)>(es: seq<nat>, values: seq<V>, k: nat, v: V)
    requires Increasing(es) && |values| == |es| && k < |es|
    ensures IsUpdate(es, values[k := v], es, values, es[k], v)
  {
    forall e: nat ensures ValueIn(es, values[k := v], e) == if e == es[k] then Some(v) else ValueIn(es, values, e) {
      OverwriteOne(es, values, k, v, e);
    }
  }

  /** The same condition, element by element and value by value. */
  lemma AboveHolds<V(!new)>(es: seq<nat>, values: seq<V>, x: nat, v: V)
    requires Increasing(es) && |values| == |es|
    ensures HoldsAbove(es, values, x, v) <==> forall e: nat | x < e :: NoneOr(ValueIn(es, values, e), v)
  {
    forall k | 0 <= k < |es| ensures ValueIn(es, values, es[k]) == Some(values[k]) {
      ValueInAt(es, values, k);
    }
    if forall e: nat | x < e :: NoneOr(ValueIn(es, values, e), v) {
      forall k | 0 <= k < |es| && x < es[k] ensures values[k] == v {
        assert NoneOr(ValueIn(es, values, es[k]), v);
      }
    }
  }

  /** Appending the value of a new element is an update exactly when everything above it already holds v. */
  lemma AppendExactly<V(!new)>(es2: seq<nat>, es: seq<nat>, values: seq<V>, x: nat, v: V)
    requires Increasing(es) && |values| == |es| && x !in es && IsInsertion(es2, es, Rank(es, x), x)
    ensures IsUpdate(es2, values + [v], es, values, x, v)
            <==> forall e: nat | x < e :: NoneOr(ValueIn(es, values, e), v)
  {
    InsertionIncreasing(es2, es, x);
    AboveHolds(es, values, x, v);
    if HoldsAbove(es, values, x, v) {
      AppendInOrder(es, values, x, v, es2);
    } else if IsUpdate(es2, values + [v], es, values, x, v) {
      AppendOutOfOrder(es, values, x, v, es2);
    }
  }

  // ----- Setting the only value, or all values

  /** Overwriting the only value sets element 0 exactly when it is element 0's. */
  lemma ScalarExactly<V(!new)>(es: seq<nat>, values: seq<V>, v: V)
    requires |es| == |values| == 1
    ensures IsUpdate(es, [v], es, values, 0, v) <==> 0 in es
  {
    if 0 in es {
      assert values[0 := v] == [v];
      OverwriteUpdates(es, values, 0, v);
    } else {
      assert ValueIn(es, [v], 0) == None;
    }
  }

  function OnlyElement(es: seq<nat>): seq<nat> { if es == [] then [0] else es }

  lemma OnlyExactly<V(!new)>(es: seq<nat>, values: seq<V>, v: V)
    requires |es| == |values| <= 1
    ensures IsUpdate(OnlyElement(es), [v], es, values, 0, v) <==> es == [] || 0 in es
  {
    if es == [] {
      assert [] + [0] == [0] && [] + [v] == [v];
      forall e: nat ensures ValueIn([0], [v], e) == if e == 0 then Some(v) else None {
        assert e in [0] <==> e == 0;
      }
    } else {
      ScalarExactly(es, values, v);
    }
  }

  /** The vector overload's two edits of the buffer, copying a prefix and then growing or shrinking the stretch. */
  function Resized<V>(data: seq<V>, o: nat, count: nat, values: seq<V>): (r: seq<V>)
    requires o + count <= |data|
    ensures r == data[..o] + values + data[o + count..]
  {
    var n := if |values| < count then |values| else count;
    var copied := data[..o] + values[..n] + data[o + n..];
    assert copied[..o + n] == data[..o] + values[..n];
    assert copied[o + count..] == data[o + count..];
    if count < |values| then copied[..o + n] + values[n..] + copied[o + n..]
    else copied[..o + n] + copied[o + count..]
  }

  function WholeElements(es: seq<nat>, n: nat): seq<nat> { if |es| == n then es else Span(0, n) }

  lemma ConsistsIsWhole<V(!new)>(bs: seq<Binding>, data: seq<V>, key: nat, rs: seq<Range>, values: seq<V>)
    requires WellFormed(bs, |data|) && Shows(bs, data, key, Elements(rs), values) && Normal(rs) && |values| > 0
    ensures Consists(bs, data, key, values) <==> rs == [Range(0, |values|)]
  {
    assert Consists(bs, data, key, values) <==> IsWhole(Elements(rs), values);
    WholeExactly(Elements(rs), values);
    OneRange(rs, |values|);
  }

  lemma WholeForAt(bs: seq<Binding>, i: nat, n: nat)
    requires InKeyOrder(bs) && i < |bs|
    ensures WholeFor(bs, bs[i].key, n) <==> (bs[i].count == n ==> bs[i].ranges == [Range(0, n)])
  {
  }

  /** A binding made by the vector overload stays one for which that overload, and the scalar one when it has a
      single value, mean what they say. */
  lemma VectorFamily<V(!new)>(bs: seq<Binding>, data: seq<V>, key: nat, values: seq<V>, n: nat)
    requires WellFormed(bs, |data|) && Consists(bs, data, key, values) && |values| > 0
    ensures WholeFor(bs, key, n) && ScalarFor(bs, data, key)
  {
    assert Value(bs, data, key, 0) == Some(values[0]);
    forall i | 0 <= i < |bs| && bs[i].key == key ensures bs[i].ranges == [Range(0, bs[i].count)] {
      ShowsSlice(bs, data, i);
      assert Counted(bs[i]);
      var es, own := Elements(bs[i].ranges), Slice(bs, data, i);
      forall e: nat ensures e in es <==> e < |values| {
        assert Value(bs, data, key, e) == ValueIn(es, own, e);
      }
      var whole := Span(0, |values|);
      forall e: nat ensures e in es <==> e in whole {
        assert e < |values| ==> whole[e] == e;
      }
      IncreasingUnique(es, whole);
      OneRange(bs[i].ranges, |values|);
    }
  }

  // ----- What a binding holds, and what the indexed overload makes of it

  /** The elements of binding key that have values, in ascending order. */
  ghost function ElementsOf(bs: seq<Binding>, key: nat): seq<nat> {
    if HasKey(bs, key) then
      var i :| 0 <= i < |bs| && bs[i].key == key;
      Elements(bs[i].ranges)
    else []
  }

  /** Their values. */
  ghost function ValuesOf<V>(bs: seq<Binding>, data: seq<V>, key: nat): (values: seq<V>)
    requires WellFormed(bs, |data|)
    ensures |values| == |ElementsOf(bs, key)|
  {
    if HasKey(bs, key) then
      var i :| 0 <= i < |bs| && bs[i].key == key;
      assert Counted(bs[i]);
      assert forall j | 0 <= j < |bs| && bs[j].key == key :: j == i;
      Slice(bs, data, i)
    else []
  }

  lemma ContentShown<V(!new)>(bs: seq<Binding>, data: seq<V>, key: nat)
    requires WellFormed(bs, |data|)
    ensures Shows(bs, data, key, ElementsOf(bs, key), ValuesOf(bs, data, key))
  {
    if HasKey(bs, key) {
      var i: nat :| i < |bs| && bs[i].key == key;
      assert forall j | 0 <= j < |bs| && bs[j].key == key :: j == i;
      ShowsSlice(bs, data, i);
    } else {
      forall e: nat ensures Value(bs, data, key, e) == None {
        ValueNone(bs, data, key, e);
      }
    }
  }

  /** Nothing else is what the binding holds. */
  lemma ShowsUnique<V(!new)>(bs: seq<Binding>, data: seq<V>, key: nat, es: seq<nat>, values: seq<V>, es2: seq<nat>, values2: seq<V>)
    requires WellFormed(bs, |data|) && Shows(bs, data, key, es, values) && Shows(bs, data, key, es2, values2)
    ensures es2 == es && values2 == values
  {
    forall e ensures e in es <==> e in es2 {
      if 0 <= e {
        assert Value(bs, data, key, e) == ValueIn(es, values, e) == ValueIn(es2, values2, e);
      }
    }
    IncreasingUnique(es, es2);
    forall k | 0 <= k < |es| ensures values[k] == values2[k] {
      ValueInAt(es, values, k);
      ValueInAt(es, values2, k);
      assert Value(bs, data, key, es[k]) == ValueIn(es, values, es[k]) == ValueIn(es2, values2, es[k]);
    }
  }

  lemma ContentIs<V(!new)>(bs: seq<Binding>, data: seq<V>, key: nat, es: seq<nat>, values: seq<V>)
    requires WellFormed(bs, |data|) && Shows(bs, data, key, es, values)
    ensures ElementsOf(bs, key) == es && ValuesOf(bs, data, key) == values
  {
    ContentShown(bs, data, key);
    ShowsUnique(bs, data, key, es, values, ElementsOf(bs, key), ValuesOf(bs, data, key));
  }

  function PlacedElements(es: seq<nat>, x: nat): seq<nat> {
    if x in es then es else es[..Rank(es, x)] + [x] + es[Rank(es, x)..]
  }

  /** A value for an element that has one takes its place; another one goes to the end, wherever its element
      belongs. */
  function PlacedValues<V>(es: seq<nat>, values: seq<V>, x: nat, v: V): (r: seq<V>)
    requires |values| == |es|
    ensures |r| == |PlacedElements(es, x)|
  {
    if x in es && Rank(es, x) < |values| then values[Rank(es, x) := v] else if x in es then values else values + [v]
  }

  /** The rank of a member is its index. */
  lemma {:induction false} RankOf(es: seq<nat>, k: nat)
    requires Increasing(es) && k < |es|
    ensures Rank(es, es[k]) == k
  {
    if k > 0 {
      assert es[0] < es[k];
      RankOf(es[1..], k - 1);
    }
  }

  lemma PlacedIsInsertion(es: seq<nat>, x: nat, more: seq<nat>)
    requires x !in es && IsInsertion(more, es, Rank(es, x), x)
    ensures more == PlacedElements(es, x)
  {
  }

  /** The placed value is an update exactly under the condition of the indexed overload. */
  lemma PlacedExactly<V(!new)>(es: seq<nat>, values: seq<V>, x: nat, v: V)
    requires Increasing(es) && |values| == |es|
    ensures IsUpdate(PlacedElements(es, x), PlacedValues(es, values, x, v), es, values, x, v)
            <==> UpdatesElement(es, values, x, v)
  {
    if x in es {
      var k: nat :| k < |es| && es[k] == x;
      RankOf(es, k);
      OverwriteUpdates(es, values, k, v);
    } else {
      AppendExactly(PlacedElements(es, x), es, values, x, v);
    }
  }

  /** What the indexed overload leaves is the update it means exactly under its condition. */
  lemma IndexedSets<V(!new)>(bs2: seq<Binding>, data2: seq<V>, bs: seq<Binding>, data: seq<V>, es: seq<nat>, values: seq<V>,
                             key: nat, index: nat, v: V)
    requires WellFormed(bs, |data|) && WellFormed(bs2, |data2|) && Shows(bs, data, key, es, values)
    requires Shows(bs2, data2, key, PlacedElements(es, index), PlacedValues(es, values, index, v))
    ensures Sets(bs2, data2, bs, data, key, index, v) <==> InOrderFor(bs, data, key, index, v)
  {
    SetsIsUpdate(bs2, data2, PlacedElements(es, index), PlacedValues(es, values, index, v), bs, data, es, values, key, index, v);
    InOrderIsUpdates(bs, data, es, values, key, index, v);
    PlacedExactly(es, values, index, v);
  }

  lemma KeyHasElements(bs: seq<Binding>, size: nat, key: nat)
    requires WellFormed(bs, size) && NoneEmptyBut(bs, |bs|)
    ensures HasKey(bs, key) <==> ElementsOf(bs, key) != []
  {
    if HasKey(bs, key) {
      var i: nat :| i < |bs| && bs[i].key == key;
      assert forall j | 0 <= j < |bs| && bs[j].key == key :: j == i;
      assert Counted(bs[i]);
    }
  }

  /** So is what the scalar overload leaves. */
  lemma ScalarSets<V(!new)>(bs2: seq<Binding>, data2: seq<V>, bs: seq<Binding>, data: seq<V>, es: seq<nat>, values: seq<V>,
                            key: nat, v: V)
    requires WellFormed(bs, |data|) && WellFormed(bs2, |data2|) && NoneEmptyBut(bs, |bs|)
    requires Shows(bs, data, key, es, values) && |es| <= 1 && Shows(bs2, data2, key, OnlyElement(es), [v])
    ensures Sets(bs2, data2, bs, data, key, 0, v) <==> ScalarFor(bs, data, key)
  {
    ContentIs(bs, data, key, es, values);
    KeyHasElements(bs, |data|, key);
    SetsIsUpdate(bs2, data2, OnlyElement(es), [v], bs, data, es, values, key, 0, v);
    OnlyExactly(es, values, v);
    assert Value(bs, data, key, 0) == ValueIn(es, values, 0);
  }

  class DescriptorSetData<V(!new, ==)> {
    var bindings: seq<Binding>
    var data: seq<V>
    var setTemplate: seq<Entry>
    var dirty: bool
    const slotSize: nat

    ghost predicate IsPacked()
      reads this
    {
      WellFormed(bindings, |data|)
    }

    /** Packed, no binding is empty, and the template is the one for these bindings. */
    ghost predicate Valid()
      reads this
    {
      && IsPacked()
      && NoneEmptyBut(bindings, |bindings|)
      && setTemplate == Entries(bindings, |bindings|, slotSize)
    }

    constructor (slotSize: nat)
      ensures Valid() && bindings == [] && data == [] && !dirty && this.slotSize == slotSize
    {
      this.slotSize := slotSize;
      bindings, data, setTemplate, dirty := [], [], [], false;
    }

    method LowerBound(key: nat) returns (p: nat)
      requires InKeyOrder(bindings)
      ensures p <= |bindings|
      ensures forall i | 0 <= i < p :: bindings[i].key < key
      ensures forall i | p <= i < |bindings| :: key <= bindings[i].key
    {
      p := 0;
      while p < |bindings| && bindings[p].key < key
        invariant p <= |bindings|
        invariant forall i | 0 <= i < p :: bindings[i].key < key
      {
        p := p + 1;
      }
    }

    /** An absent binding enters with no values, at the offset where the one before it ends. */
    method InsertEmpty(p: nat, key: nat, kind: nat)
      requires IsPacked() && p <= |bindings| && !HasKey(bindings, key)
      requires forall i | 0 <= i < p :: bindings[i].key < key
      requires forall i | p <= i < |bindings| :: key < bindings[i].key
      modifies this`bindings
      ensures IsPacked() && IsEmplaced(bindings, old(bindings), p)
      ensures bindings[p].key == key && bindings[p].kind == kind
      ensures forall k: nat, e: nat :: Value(bindings, data, k, e) == old(Value(bindings, data, k, e))
    {
      var offset := if p == 0 then 0 else bindings[p - 1].offset + bindings[p - 1].count;
      var b := Binding(key, offset, 0, kind, []);
      var more := bindings[..p] + [b] + bindings[p..];
      EmplacingShape(bindings, p, b);
      EmplacingFormed(more, bindings, p, |data|);
      EmplacingValues(more, bindings, p, data);
      bindings := more;
    }

    /** bindingsMap.emplace. */
    method Emplace(key: nat, kind: nat) returns (p: nat, isNew: bool)
      requires IsPacked()
      modifies this`bindings
      ensures IsPacked() && p < |bindings| && bindings[p].key == key
      ensures isNew <==> !HasKey(old(bindings), key)
      ensures !isNew ==> bindings == old(bindings)
      ensures isNew ==> IsEmplaced(bindings, old(bindings), p) && bindings[p].kind == kind
      ensures NoneEmptyBut(old(bindings), |old(bindings)|) ==> NoneEmptyBut(bindings, p)
      ensures forall k: nat, e: nat :: Value(bindings, data, k, e) == old(Value(bindings, data, k, e))
    {
      p := LowerBound(key);
      isNew := p == |bindings| || bindings[p].key > key;
      if isNew {
        InsertEmpty(p, key, kind);
        EmplacedNoneEmpty(bindings, old(bindings), p);
      }
    }

    /** The prefix-sum loop: offsets after binding p are recomputed, each from the one before it. */
    method UpdateOffsets(p: nat)
      requires p < |bindings| && forall i | 0 <= i <= p :: Placed(bindings, i)
      modifies this`bindings
      ensures IsMoved(bindings, old(bindings)) && bindings[p] == old(bindings)[p]
      ensures forall i | 0 <= i < |bindings| :: Placed(bindings, i)
    {
      var at := p + 1;
      while at < |bindings|
        invariant p < at <= |bindings| && IsMoved(bindings, old(bindings)) && bindings[p] == old(bindings)[p]
        invariant forall i | 0 <= i < at :: Placed(bindings, i)
      {
        ghost var was := bindings;
        bindings := bindings[at := bindings[at].(offset := bindings[at - 1].offset + bindings[at - 1].count)];
        assert Placed(was, at - 1);
        forall i | 0 <= i <= at ensures Placed(bindings, i) {
          MovedSum(bindings, was, i);
          if i < at { assert Placed(was, i); } else { MovedSum(bindings, was, at - 1); }
        }
        at := at + 1;
      }
    }

    /** The inner loop of the template: one entry a range. */
    method RangeLoop(b: Binding, entries: seq<Entry>) returns (more: seq<Entry>)
      requires Normal(b.ranges)
      ensures more == entries + RangeEntries(b, b.ranges, 0, slotSize)
    {
      more := entries;
      var rangeOffset, r := 0, 0;
      while r < |b.ranges|
        invariant r <= |b.ranges|
        invariant more + RangeEntries(b, b.ranges[r..], rangeOffset, slotSize)
                  == entries + RangeEntries(b, b.ranges, 0, slotSize)
      {
        var range := b.ranges[r];
        var rangeCount := Width(range);
        more := more + [Entry(b.key, range.low, rangeCount, b.kind, Bytes(b.offset + rangeOffset, slotSize), slotSize)];
        assert b.ranges[r..][1..] == b.ranges[r + 1..];
        rangeOffset := rangeOffset + rangeCount;
        r := r + 1;
      }
    }

    /** InternalUpdateDescriptorSetTemplate, in binding order. */
    method UpdateTemplate()
      requires AllCounted(bindings)
      modifies this`setTemplate
      ensures setTemplate == Entries(bindings, |bindings|, slotSize)
    {
      var entries := [];
      var i := 0;
      while i < |bindings|
        invariant i <= |bindings| && entries == Entries(bindings, i, slotSize)
      {
        assert Counted(bindings[i]);
        entries := RangeLoop(bindings[i], entries);
        i := i + 1;
      }
      setTemplate := entries;
    }

    /** What each overload ends with: offsets, the dirty state, the template. */
    method Finish(p: nat, ghost was: seq<Binding>, ghost wasData: seq<V>, ghost values: seq<V>)
      requires WellFormed(was, |wasData|) && IsRestocked(bindings, was, p) && bindings[p].count == |values|
      requires (forall i | 0 <= i <= p :: bindings[i].offset == was[i].offset) && Counted(bindings[p])
      requires data == Spliced(was, wasData, p, values) && |values| > 0
      requires NoneEmptyBut(was, p)
      modifies this
      ensures Valid() && dirty && data == old(data)
      ensures OthersKeep(bindings, data, was, wasData, was[p].key)
      ensures Shows(bindings, data, was[p].key, Elements(old(bindings)[p].ranges), values)
    {
      ghost var restocked := bindings;
      StartsPlaced(bindings, was, p);
      UpdateOffsets(p);
      Finished(bindings, restocked, was, data, wasData, p, values);
      dirty := true;
      UpdateTemplate();
    }

    /** The search through the ranges of the indexed overload. */
    method FindOffset(rs: seq<Range>, index: nat) returns (found: bool, indexOffset: nat)
      requires Normal(rs)
      ensures found <==> Covers(rs, index)
      ensures found ==> indexOffset < |Elements(rs)| && Elements(rs)[indexOffset] == index
      ensures !found ==> indexOffset == |Elements(rs)|
    {
      var r := 0;
      indexOffset := 0;
      while r < |rs| && !(rs[r].low <= index < rs[r].high)
        invariant r <= |rs|
        invariant IndexOffset(rs, index) == indexOffset + IndexOffset(rs[r..], index)
        invariant forall i | 0 <= i < r :: !(rs[i].low <= index < rs[i].high)
      {
        assert rs[r..][1..] == rs[r + 1..];
        indexOffset := indexOffset + Width(rs[r]);
        r := r + 1;
      }
      found := r < |rs|;
      if found {
        indexOffset := indexOffset + (index - rs[r].low);
        IndexOffsetFinds(rs, index);
      } else {
        IndexOffsetMisses(rs, index);
      }
    }

    /** A value for an element without one goes to the end of the binding's stretch. */
    method AppendElement(p: nat, indexOffset: nat, index: nat, v: V)
      requires IsPacked() && p < |bindings| && indexOffset == bindings[p].count
      requires Counted(bindings[p]) && !Covers(bindings[p].ranges, index)
      modifies this`bindings, this`data
      ensures IsRestocked(bindings, old(bindings), p) && Counted(bindings[p])
      ensures forall i | 0 <= i < |bindings| :: bindings[i].offset == old(bindings)[i].offset
      ensures bindings[p].count == old(bindings)[p].count + 1
      ensures IsInsertion(Elements(bindings[p].ranges), Elements(old(bindings)[p].ranges),
                          Rank(Elements(old(bindings)[p].ranges), index), index)
      ensures data == Spliced(old(bindings), old(data), p, Slice(old(bindings), old(data), p) + [v])
    {
      var b := bindings[p];
      StretchFits(bindings, |data|, p);
      SplicedAppend(bindings, data, p, v);
      data := data[..b.offset + indexOffset] + [v] + data[b.offset + indexOffset..];
      var ranges := new Ranges.RangeSet(b.ranges);
      var _, _ := ranges.Insert(index, index + 1);
      OneMoreElement(ranges.ranges, b.ranges, index);
      bindings := bindings[p := b.(count := b.count + 1, ranges := ranges.ranges)];
    }

    /** Overwriting or appending one value. */
    method Write(p: nat, index: nat, v: V)
      requires IsPacked() && p < |bindings| && Counted(bindings[p])
      modifies this`bindings, this`data
      ensures IsRestocked(bindings, old(bindings), p) && Counted(bindings[p])
      ensures forall i | 0 <= i < |bindings| :: bindings[i].offset == old(bindings)[i].offset
      ensures Elements(bindings[p].ranges) == PlacedElements(Elements(old(bindings)[p].ranges), index)
      ensures data == Spliced(old(bindings), old(data), p,
                              PlacedValues(Elements(old(bindings)[p].ranges), Slice(old(bindings), old(data), p), index, v))
    {
      ghost var es := Elements(bindings[p].ranges);
      var found, indexOffset := FindOffset(bindings[p].ranges, index);
      ElementsIncreasing(bindings[p].ranges);
      ElementsCovered(bindings[p].ranges, index);
      if found {
        RankOf(es, indexOffset);
        StretchFits(bindings, |data|, p);
        SplicedOverwrite(bindings, data, p, indexOffset, v);
        data := data[bindings[p].offset + indexOffset := v];
      } else {
        AppendElement(p, indexOffset, index, v);
        PlacedIsInsertion(es, index, Elements(bindings[p].ranges));
      }
    }

    /** One array element. The other bindings keep their values; in its own one the value takes the place of the
        element's, or goes to the end. The element is set, and its binding otherwise unchanged, exactly when
        InOrderFor holds. */
    method SetIndexed(key: nat, kind: nat, v: V, index: nat)
      requires Valid() && index < 0xFFFF_FFFF
      modifies this
      ensures Valid() && dirty
      ensures OthersKeep(bindings, data, old(bindings), old(data), key)
      ensures Shows(bindings, data, key, PlacedElements(old(ElementsOf(bindings, key)), index),
                    PlacedValues(old(ElementsOf(bindings, key)), old(ValuesOf(bindings, data, key)), index, v))
      ensures Sets(bindings, data, old(bindings), old(data), key, index, v)
              <==> InOrderFor(old(bindings), old(data), key, index, v)
    {
      var p, isNew := Emplace(key, kind);
      ghost var was, wasData := bindings, data;
      ghost var es, values := Elements(was[p].ranges), Slice(was, wasData, p);
      ShowsSlice(was, data, p);
      ContentIs(old(bindings), old(data), key, es, values);
      assert Counted(was[p]);
      Write(p, index, v);
      Finish(p, was, wasData, PlacedValues(es, values, index, v));
      IndexedSets(bindings, data, old(bindings), old(data), es, values, key, index, v);
    }

    /** Overwriting the only value, or storing the first. */
    method WriteOnly(p: nat, v: V)
      requires IsPacked() && p < |bindings| && Counted(bindings[p]) && bindings[p].count <= 1
      modifies this`bindings, this`data
      ensures IsRestocked(bindings, old(bindings), p) && Counted(bindings[p]) && bindings[p].count == 1
      ensures forall i | 0 <= i < |bindings| :: bindings[i].offset == old(bindings)[i].offset
      ensures Elements(bindings[p].ranges) == OnlyElement(Elements(old(bindings)[p].ranges))
      ensures data == Spliced(old(bindings), old(data), p, [v])
    {
      ghost var values := Slice(bindings, data, p);
      if bindings[p].count == 0 {
        ElementsCovered(bindings[p].ranges, 0);
        AppendElement(p, 0, 0, v);
        assert values + [v] == [v];
      } else {
        StretchFits(bindings, |data|, p);
        SplicedOverwrite(bindings, data, p, 0, v);
        data := data[bindings[p].offset := v];
        assert values[0 := v] == [v];
      }
    }

    /** A binding with a single value. The other bindings keep theirs; the value is stored under the element that has
        one, or under element 0 if none has. Element 0 is set exactly when ScalarFor holds. */
    method SetScalar(key: nat, kind: nat, v: V)
      requires Valid() && forall i | 0 <= i < |bindings| && bindings[i].key == key :: bindings[i].count == 1
      modifies this
      ensures Valid() && dirty
      ensures OthersKeep(bindings, data, old(bindings), old(data), key)
      ensures Shows(bindings, data, key, OnlyElement(old(ElementsOf(bindings, key))), [v])
      ensures Sets(bindings, data, old(bindings), old(data), key, 0, v) <==> ScalarFor(old(bindings), old(data), key)
    {
      var p, isNew := Emplace(key, kind);
      ghost var was, wasData := bindings, data;
      ghost var es, values := Elements(was[p].ranges), Slice(was, wasData, p);
      ShowsSlice(was, data, p);
      ContentIs(old(bindings), old(data), key, es, values);
      assert Counted(was[p]);
      WriteOnly(p, v);
      Finish(p, was, wasData, [v]);
      ScalarSets(bindings, data, old(bindings), old(data), es, values, key, v);
    }

    /** The vector overload's edit: the stretch of binding p becomes values; ranges are rebuilt when its length
        changes. */
    method WriteAll(p: nat, values: seq<V>)
      requires IsPacked() && p < |bindings| && Counted(bindings[p]) && |values| > 0
      modifies this`bindings, this`data
      ensures IsRestocked(bindings, old(bindings), p) && Counted(bindings[p]) && bindings[p].count == |values|
      ensures forall i | 0 <= i < |bindings| :: bindings[i].offset == old(bindings)[i].offset
      ensures data == Spliced(old(bindings), old(data), p, values)
      ensures bindings[p].ranges
              == if old(bindings)[p].count == |values| then old(bindings)[p].ranges else [Range(0, |values|)]
      ensures Elements(bindings[p].ranges) == WholeElements(Elements(old(bindings)[p].ranges), |values|)
    {
      StretchFits(bindings, |data|, p);
      var b := bindings[p];
      if b.count == |values| {
        data := data[..b.offset] + values + data[b.offset + b.count..];
      } else {
        data := Resized(data, b.offset, b.count, values);
        var ranges := new Ranges.RangeSet([]);
        var _, _ := ranges.Insert(0, |values|);
        SingleRange(ranges.ranges, |values|);
        OneRange(ranges.ranges, |values|);
        bindings := bindings[p := b.(count := |values|, ranges := ranges.ranges)];
      }
    }

    /** A whole binding. The other bindings keep their values; the given ones are stored under the elements that have
        values if there are as many, else under 0, 1, 2, ... The binding consists of them exactly when WholeFor
        holds. */
    method SetVector(key: nat, kind: nat, values: seq<V>)
      requires Valid() && |values| > 0
      modifies this
      ensures Valid() && dirty
      ensures OthersKeep(bindings, data, old(bindings), old(data), key)
      ensures Shows(bindings, data, key, WholeElements(old(ElementsOf(bindings, key)), |values|), values)
      ensures Consists(bindings, data, key, values) <==> WholeFor(old(bindings), key, |values|)
    {
      var p, isNew := Emplace(key, kind);
      ghost var was, wasData := bindings, data;
      assert Counted(was[p]);
      ShowsSlice(was, data, p);
      ContentIs(old(bindings), old(data), key, Elements(was[p].ranges), Slice(was, wasData, p));
      WriteAll(p, values);
      ghost var rs := bindings[p].ranges;
      Finish(p, was, wasData, values);
      ConsistsIsWhole(bindings, data, key, rs, values);
      if !isNew { WholeForAt(was, p, |values|); }
    }
  }

  // ----- Where the overloads go wrong

  /** The content after element 1 alone was set. */
  lemma OnlyOne<V(!new)>(bs: seq<Binding>, data: seq<V>, key: nat, es: seq<nat>, values: seq<V>, a: V)
    requires WellFormed(bs, |data|) && es == [] && values == []
    requires Shows(bs, data, key, PlacedElements(es, 1), PlacedValues(es, values, 1, a))
    ensures Shows(bs, data, key, [1], [a]) && ElementsOf(bs, key) == [1] && ValuesOf(bs, data, key) == [a]
  {
    assert PlacedElements(es, 1) == [1] && PlacedValues(es, values, 1, a) == [a];
    ContentIs(bs, data, key, [1], [a]);
  }

  lemma EmptyContent<V(!new)>(bs: seq<Binding>, data: seq<V>, key: nat)
    requires WellFormed(bs, |data|) && !HasKey(bs, key)
    ensures ElementsOf(bs, key) == [] && ValuesOf(bs, data, key) == []
  {
  }

  method SetOne<V(!new, ==)>(d: DescriptorSetData<V>, key: nat, kind: nat, a: V)
    requires d.Valid() && !HasKey(d.bindings, key)
    modifies d
    ensures d.Valid() && Shows(d.bindings, d.data, key, [1], [a])
    ensures ElementsOf(d.bindings, key) == [1] && ValuesOf(d.bindings, d.data, key) == [a]
  {
    EmptyContent(d.bindings, d.data, key);
    d.SetIndexed(key, kind, a, 1);
    OnlyOne(d.bindings, d.data, key, [], [], a);
  }

  lemma ZeroBeforeOne<V(!new)>(bs: seq<Binding>, data: seq<V>, key: nat, a: V, b: V)
    requires WellFormed(bs, |data|) && Shows(bs, data, key, PlacedElements([1], 0), PlacedValues([1], [a], 0, b))
    ensures Value(bs, data, key, 0) == Some(a) && Value(bs, data, key, 1) == Some(b)
  {
    var es := PlacedElements([1], 0);
    assert Rank([1], 0) == 0 && es == [0, 1] && PlacedValues([1], [a], 0, b) == [a, b];
    ValueInAt(es, [a, b], 0);
    ValueInAt(es, [a, b], 1);
    assert Value(bs, data, key, 0) == ValueIn(es, [a, b], es[0]) && Value(bs, data, key, 1) == ValueIn(es, [a, b], es[1]);
  }

  /** Element 1 set to a, then element 0 to b: the values end up in each other's place. */
  method DescendingSwaps<V(!new, ==)>(d: DescriptorSetData<V>, key: nat, kind: nat, a: V, b: V)
      returns (ghost bs: seq<Binding>, ghost data: seq<V>)
    requires d.Valid() && !HasKey(d.bindings, key) && a != b
    modifies d
    ensures d.Valid() && WellFormed(bs, |data|) && Shows(bs, data, key, [1], [a])
    ensures Value(d.bindings, d.data, key, 0) == Some(a) && Value(d.bindings, d.data, key, 1) == Some(b)
    ensures !Sets(d.bindings, d.data, bs, data, key, 0, b)
  {
    SetOne(d, key, kind, a);
    bs, data := d.bindings, d.data;
    d.SetIndexed(key, kind, b, 0);
    ZeroBeforeOne(d.bindings, d.data, key, a, b);
  }

  lemma StillOne<V(!new)>(bs: seq<Binding>, data: seq<V>, key: nat, b: V)
    requires WellFormed(bs, |data|) && Shows(bs, data, key, [1], [b])
    ensures Value(bs, data, key, 0) == None && Value(bs, data, key, 1) == Some(b)
  {
    ValueInAt([1], [b], 0);
    assert Value(bs, data, key, 0) == ValueIn([1], [b], 0) && Value(bs, data, key, 1) == ValueIn([1], [b], [1][0]);
  }

  /** Element 1 set to a, then the scalar overload with b: element 1 gets b, element 0 nothing. */
  method ScalarMisses<V(!new, ==)>(d: DescriptorSetData<V>, key: nat, kind: nat, a: V, b: V)
      returns (ghost bs: seq<Binding>, ghost data: seq<V>)
    requires d.Valid() && !HasKey(d.bindings, key)
    modifies d
    ensures d.Valid() && WellFormed(bs, |data|) && Shows(bs, data, key, [1], [a])
    ensures Value(d.bindings, d.data, key, 0) == None && Value(d.bindings, d.data, key, 1) == Some(b)
    ensures !Sets(d.bindings, d.data, bs, data, key, 0, b)
  {
    SetOne(d, key, kind, a);
    bs, data := d.bindings, d.data;
    CountOfKey(d.bindings, |d.data|, key);
    d.SetScalar(key, kind, b);
    StillOne(d.bindings, d.data, key, b);
  }

  /** The count of a binding is the number of its elements. */
  lemma CountOfKey(bs: seq<Binding>, size: nat, key: nat)
    requires WellFormed(bs, size)
    ensures forall i | 0 <= i < |bs| && bs[i].key == key :: bs[i].count == |ElementsOf(bs, key)|
  {
    forall i | 0 <= i < |bs| && bs[i].key == key ensures bs[i].count == |ElementsOf(bs, key)| {
      assert forall j | 0 <= j < |bs| && bs[j].key == key :: j == i;
      assert HasKey(bs, key) && Counted(bs[i]);
    }
  }

  /** Element 1 set to a, then the vector overload with b alone: element 1 gets b, element 0 nothing. */
  method VectorMisses<V(!new, ==)>(d: DescriptorSetData<V>, key: nat, kind: nat, a: V, b: V)
    requires d.Valid() && !HasKey(d.bindings, key)
    modifies d
    ensures d.Valid()
    ensures Value(d.bindings, d.data, key, 0) == None && Value(d.bindings, d.data, key, 1) == Some(b)
    ensures !Consists(d.bindings, d.data, key, [b])
  {
    SetOne(d, key, kind, a);
    d.SetVector(key, kind, [b]);
    StillOne(d.bindings, d.data, key, b);
  }

  // ----- A binding set element by element

  lemma OthersKeepJoin<V(!new)>(bs2: seq<Binding>, data2: seq<V>, bs1: seq<Binding>, data1: seq<V>,
                                bs: seq<Binding>, data: seq<V>, key: nat)
    requires WellFormed(bs, |data|) && WellFormed(bs1, |data1|) && WellFormed(bs2, |data2|)
    requires OthersKeep(bs2, data2, bs1, data1, key) && OthersKeep(bs1, data1, bs, data, key)
    ensures OthersKeep(bs2, data2, bs, data, key)
  {
    forall k: nat, e: nat | k != key ensures Value(bs2, data2, k, e) == Value(bs, data, k, e) {
      assert Value(bs2, data2, k, e) == Value(bs1, data1, k, e);
    }
  }

  /** An element above all others is always in order. */
  lemma AscendingInOrder<V(!new)>(bs: seq<Binding>, data: seq<V>, key: nat, es: seq<nat>, values: seq<V>, index: nat, v: V)
    requires WellFormed(bs, |data|) && Shows(bs, data, key, es, values) && forall x | x in es :: x < index
    ensures InOrderFor(bs, data, key, index, v)
  {
    forall e: nat | index < e ensures NoneOr(Value(bs, data, key, e), v) {
      assert e !in es;
      assert ValueIn(es, values, e) == None;
      assert Value(bs, data, key, e) == None;
    }
  }

  lemma PushUpdates<V(!new)>(es: seq<nat>, values: seq<V>, x: nat, v: V)
    requires Increasing(es + [x]) && |values| == |es|
    ensures Increasing(es) && IsUpdate(es + [x], values + [v], es, values, x, v)
  {
    var more := es + [x];
    forall i, j | 0 <= i < j < |es| ensures es[i] < es[j] {
      assert more[i] < more[j];
    }
    forall e: nat ensures ValueIn(more, values + [v], e) == if e == x then Some(v) else ValueIn(es, values, e) {
      assert e in more <==> e in es || e == x;
      if e in es {
        var k: nat :| k < |es| && es[k] == e;
        assert more[k] == e && more[k] < more[|es|];
        ValueInAt(more, values + [v], k);
        ValueInAt(es, values, k);
      } else if e == x {
        ValueInAt(more, values + [v], |es|);
      }
    }
  }

  lemma SetsShows<V(!new)>(bs2: seq<Binding>, data2: seq<V>, bs: seq<Binding>, data: seq<V>, key: nat,
                           es: seq<nat>, values: seq<V>, x: nat, v: V)
    requires WellFormed(bs, |data|) && WellFormed(bs2, |data2|) && Shows(bs, data, key, es, values)
    requires Increasing(es + [x]) && Sets(bs2, data2, bs, data, key, x, v)
    ensures Shows(bs2, data2, key, es + [x], values + [v])
  {
    PushUpdates(es, values, x, v);
  }

  /** One more element, above all those set before. */
  method SetNext<V(!new, ==)>(d: DescriptorSetData<V>, key: nat, kind: nat, x: nat, v: V, ghost es: seq<nat>, ghost values: seq<V>)
    requires d.Valid() && Shows(d.bindings, d.data, key, es, values) && Increasing(es + [x]) && x < 0xFFFF_FFFF
    modifies d
    ensures d.Valid() && Shows(d.bindings, d.data, key, es + [x], values + [v])
    ensures OthersKeep(d.bindings, d.data, old(d.bindings), old(d.data), key)
  {
    ghost var bs, data := d.bindings, d.data;
    PushAbove(es, x);
    AscendingInOrder(bs, data, key, es, values, x, v);
    d.SetIndexed(key, kind, v, x);
    SetsShows(d.bindings, d.data, bs, data, key, es, values, x, v);
  }

  lemma PushAbove(es: seq<nat>, x: nat)
    requires Increasing(es + [x])
    ensures forall y | y in es :: y < x
  {
    var more := es + [x];
    forall y | y in es ensures y < x {
      var k: nat :| k < |es| && es[k] == y;
      assert more[k] < more[|es|];
    }
  }

  /** A new binding filled by the indexed overload in ascending order holds exactly the values given. */
  method SetAscending<V(!new, ==)>(d: DescriptorSetData<V>, key: nat, kind: nat, indices: seq<nat>, values: seq<V>)
    requires d.Valid() && !HasKey(d.bindings, key)
    requires Increasing(indices) && |values| == |indices|
    requires forall i | 0 <= i < |indices| :: indices[i] < 0xFFFF_FFFF
    modifies d
    ensures d.Valid() && Shows(d.bindings, d.data, key, indices, values)
    ensures OthersKeep(d.bindings, d.data, old(d.bindings), old(d.data), key)
  {
    ghost var bs0, data0 := d.bindings, d.data;
    var i := 0;
    while i < |indices|
      invariant i <= |indices| && d.Valid()
      invariant Shows(d.bindings, d.data, key, indices[..i], values[..i])
      invariant OthersKeep(d.bindings, d.data, bs0, data0, key)
    {
      ghost var bs, data := d.bindings, d.data;
      assert indices[..i + 1] == indices[..i] + [indices[i]] && values[..i + 1] == values[..i] + [values[i]];
      SetNext(d, key, kind, indices[i], values[i], indices[..i], values[..i]);
      OthersKeepJoin(d.bindings, d.data, bs, data, bs0, data0, key);
      i := i + 1;
    }
    assert indices[..i] == indices && values[..i] == values;
  }
}
