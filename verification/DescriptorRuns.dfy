/** Whole sequences of SetDescriptorData calls of src/rhi/vulkan/pipeline.inl, on any bindings in any order, against
    the map that each call is meant to update. */
module DescriptorRuns {
  import opened Bindings
  import opened Options
  import opened DescriptorData

  datatype Call<V> =
    | Scalar(key: nat, kind: nat, v: V)
    | Vector(key: nat, kind: nat, values: seq<V>)
    | Indexed(key: nat, kind: nat, v: V, index: nat)

  /** What the last write to an element stored there: a vector also unsets the elements beyond it. */
  function Last<V>(calls: seq<Call<V>>, key: nat, e: nat): Option<V> {
    if calls == [] then None
    else Meant(Last(calls[..|calls| - 1], key, e), calls[|calls| - 1], key, e)
  }

  /** What a call means for one element. */
  function Meant<V>(was: Option<V>, c: Call<V>, key: nat, e: nat): Option<V> {
    if c.key != key then was
    else
      match c
      case Scalar(_, _, v) => if e == 0 then Some(v) else was
      case Vector(_, _, values) => if e < |values| then Some(values[e]) else None
      case Indexed(_, _, v, index) => if e == index then Some(v) else was
  }

  /** The call may come after the others: a scalar to a binding without elements beyond 0, a vector to one whose
      elements are the first few, an index that is set already or beyond all that are. */
  ghost predicate MayFollow<V(!new)>(calls: seq<Call<V>>, c: Call<V>) {
    match c
    case Scalar(key, _, _) => forall e: nat | e > 0 :: Last(calls, key, e) == None
    case Vector(key, _, values) => |values| > 0 && exists n: nat :: FirstFew(calls, key, n)
    case Indexed(key, _, _, index) =>
      index < 0xFFFF_FFFF && (Last(calls, key, index) != None || forall e: nat | e > index :: Last(calls, key, e) == None)
  }

  ghost predicate FirstFew<V(!new)>(calls: seq<Call<V>>, key: nat, n: nat) {
    forall e: nat :: Last(calls, key, e) != None <==> e < n
  }

  ghost predicate Disciplined<V(!new)>(calls: seq<Call<V>>) {
    forall i | 0 <= i < |calls| :: MayFollow(calls[..i], calls[i])
  }

  /** The packed data stands for the map that the calls mean. */
  ghost predicate Refines<V(!new)>(bs: seq<Binding>, data: seq<V>, calls: seq<Call<V>>)
    requires WellFormed(bs, |data|)
  {
    forall key: nat, e: nat :: Value(bs, data, key, e) == Last(calls, key, e)
  }

  lemma LastSnoc<V>(calls: seq<Call<V>>, c: Call<V>, key: nat, e: nat)
    ensures Last(calls + [c], key, e) == Meant(Last(calls, key, e), c, key, e)
  {
    assert (calls + [c])[..|calls|] == calls;
  }

  // ----- Each call, in its turn, does what it means

  lemma RefinesNext<V(!new)>(bs2: seq<Binding>, data2: seq<V>, bs: seq<Binding>, data: seq<V>, calls: seq<Call<V>>, c: Call<V>)
    requires WellFormed(bs, |data|) && WellFormed(bs2, |data2|) && Refines(bs, data, calls)
    requires OthersKeep(bs2, data2, bs, data, c.key)
    requires forall e: nat :: Value(bs2, data2, c.key, e) == Meant(Value(bs, data, c.key, e), c, c.key, e)
    ensures Refines(bs2, data2, calls + [c])
  {
    forall key: nat, e: nat ensures Value(bs2, data2, key, e) == Last(calls + [c], key, e) {
      LastSnoc(calls, c, key, e);
      assert Value(bs, data, key, e) == Last(calls, key, e);
    }
  }

  lemma InOrder<V(!new)>(bs: seq<Binding>, data: seq<V>, calls: seq<Call<V>>, key: nat, index: nat, v: V)
    requires WellFormed(bs, |data|) && Refines(bs, data, calls)
    requires Last(calls, key, index) != None || forall e: nat | e > index :: Last(calls, key, e) == None
    ensures InOrderFor(bs, data, key, index, v)
  {
    assert Value(bs, data, key, index) == Last(calls, key, index);
    if Last(calls, key, index) == None {
      forall e: nat | index < e ensures NoneOr(Value(bs, data, key, e), v) {
        assert Value(bs, data, key, e) == Last(calls, key, e);
      }
    }
  }

  lemma SetsNext<V(!new)>(bs2: seq<Binding>, data2: seq<V>, bs: seq<Binding>, data: seq<V>, calls: seq<Call<V>>, c: Call<V>,
                          index: nat)
    requires WellFormed(bs, |data|) && WellFormed(bs2, |data2|) && Refines(bs, data, calls)
    requires OthersKeep(bs2, data2, bs, data, c.key)
    requires !c.Vector? && index == (if c.Scalar? then 0 else c.index) && Sets(bs2, data2, bs, data, c.key, index, c.v)
    ensures Refines(bs2, data2, calls + [c])
  {
    RefinesNext(bs2, data2, bs, data, calls, c);
  }

  method CallIndexed<V(!new, ==)>(d: DescriptorSetData<V>, ghost calls: seq<Call<V>>, c: Call<V>)
    requires d.Valid() && Refines(d.bindings, d.data, calls) && c.Indexed? && MayFollow(calls, c)
    modifies d
    ensures d.Valid() && Refines(d.bindings, d.data, calls + [c])
  {
    ghost var bs, data := d.bindings, d.data;
    InOrder(bs, data, calls, c.key, c.index, c.v);
    d.SetIndexed(c.key, c.kind, c.v, c.index);
    SetsNext(d.bindings, d.data, bs, data, calls, c, c.index);
  }

  /** A binding whose elements are the first n has them as one range. */
  lemma FirstFewShape<V(!new)>(bs: seq<Binding>, data: seq<V>, calls: seq<Call<V>>, key: nat, n: nat)
    requires WellFormed(bs, |data|) && Refines(bs, data, calls) && FirstFew(calls, key, n)
    ensures ElementsOf(bs, key) == Span(0, n)
  {
    ContentShown(bs, data, key);
    var es, values, whole := ElementsOf(bs, key), ValuesOf(bs, data, key), Span(0, n);
    forall e: nat ensures e in es <==> e in whole {
      assert Value(bs, data, key, e) == Last(calls, key, e) && Value(bs, data, key, e) == ValueIn(es, values, e);
      assert e < n ==> whole[e] == e;
    }
    IncreasingUnique(es, whole);
  }

  lemma FirstFewWhole<V(!new)>(bs: seq<Binding>, data: seq<V>, calls: seq<Call<V>>, key: nat, n: nat, m: nat)
    requires WellFormed(bs, |data|) && Refines(bs, data, calls) && FirstFew(calls, key, n) && m > 0
    ensures WholeFor(bs, key, m)
  {
    FirstFewShape(bs, data, calls, key, n);
    forall i | 0 <= i < |bs| && bs[i].key == key && bs[i].count == m ensures bs[i].ranges == [Ranges.Range(0, m)] {
      assert Counted(bs[i]);
      ElementsOfAt(bs, i);
      OneRange(bs[i].ranges, m);
    }
  }

  lemma ElementsOfAt(bs: seq<Binding>, i: nat)
    requires InKeyOrder(bs) && i < |bs|
    ensures ElementsOf(bs, bs[i].key) == Elements(bs[i].ranges)
  {
    assert forall j | 0 <= j < |bs| && bs[j].key == bs[i].key :: j == i;
    assert HasKey(bs, bs[i].key);
  }

  method CallVector<V(!new, ==)>(d: DescriptorSetData<V>, ghost calls: seq<Call<V>>, c: Call<V>)
    requires d.Valid() && Refines(d.bindings, d.data, calls) && c.Vector? && MayFollow(calls, c)
    modifies d
    ensures d.Valid() && Refines(d.bindings, d.data, calls + [c])
  {
    ghost var bs, data := d.bindings, d.data;
    ghost var n: nat :| FirstFew(calls, c.key, n);
    FirstFewWhole(bs, data, calls, c.key, n, |c.values|);
    d.SetVector(c.key, c.kind, c.values);
    RefinesNext(d.bindings, d.data, bs, data, calls, c);
  }

  lemma OnlyZero<V(!new)>(bs: seq<Binding>, data: seq<V>, calls: seq<Call<V>>, key: nat)
    requires WellFormed(bs, |data|) && Refines(bs, data, calls) && NoneEmptyBut(bs, |bs|)
    requires forall e: nat | e > 0 :: Last(calls, key, e) == None
    ensures ScalarFor(bs, data, key)
    ensures forall i | 0 <= i < |bs| && bs[i].key == key :: bs[i].count == 1
  {
    var n: nat := if Last(calls, key, 0) != None then 1 else 0;
    forall e: nat ensures Last(calls, key, e) != None <==> e < n {
      assert e > 0 ==> Last(calls, key, e) == None;
    }
    FirstFewShape(bs, data, calls, key, n);
    KeyHasElements(bs, |data|, key);
    CountOfKey(bs, |data|, key);
    assert Value(bs, data, key, 0) == Last(calls, key, 0);
  }

  method CallScalar<V(!new, ==)>(d: DescriptorSetData<V>, ghost calls: seq<Call<V>>, c: Call<V>)
    requires d.Valid() && Refines(d.bindings, d.data, calls) && c.Scalar? && MayFollow(calls, c)
    modifies d
    ensures d.Valid() && Refines(d.bindings, d.data, calls + [c])
  {
    ghost var bs, data := d.bindings, d.data;
    OnlyZero(bs, data, calls, c.key);
    d.SetScalar(c.key, c.kind, c.v);
    SetsNext(d.bindings, d.data, bs, data, calls, c, 0);
  }

  /** After any disciplined sequence of calls the packed data holds the last write to every element of every
      binding. */
  method MakeCalls<V(!new, ==)>(d: DescriptorSetData<V>, calls: seq<Call<V>>)
    requires d.Valid() && d.bindings == [] && Disciplined(calls)
    modifies d
    ensures d.Valid() && Refines(d.bindings, d.data, calls)
  {
    forall key: nat, e: nat ensures Value(d.bindings, d.data, key, e) == None {
      ValueNone(d.bindings, d.data, key, e);
    }
    var i := 0;
    while i < |calls|
      invariant i <= |calls| && d.Valid() && Refines(d.bindings, d.data, calls[..i])
    {
      assert MayFollow(calls[..i], calls[i]);
      match calls[i] {
        case Scalar(_, _, _) => CallScalar(d, calls[..i], calls[i]);
        case Vector(_, _, _) => CallVector(d, calls[..i], calls[i]);
        case Indexed(_, _, _, _) => CallIndexed(d, calls[..i], calls[i]);
      }
      assert calls[..i + 1] == calls[..i] + [calls[i]];
      i := i + 1;
    }
    assert calls[..i] == calls;
  }

  /** Then the template copies, slot by slot, the last write to each element. */
  lemma TemplateCopiesLast<V(!new)>(bs: seq<Binding>, data: seq<V>, calls: seq<Call<V>>, slotSize: nat, slot: nat)
    requires WellFormed(bs, |data|) && Refines(bs, data, calls) && slot < |data|
    ensures |Copies(Entries(bs, |bs|, slotSize))| == |data|
    ensures var c := Copies(Entries(bs, |bs|, slotSize))[slot];
            c.from == Bytes(slot, slotSize) && Last(calls, c.binding, c.element) == Some(data[slot])
  {
    TemplateReadsEverySlot(bs, data, slotSize, slot);
    var c := Copies(Entries(bs, |bs|, slotSize))[slot];
    assert Value(bs, data, c.binding, c.element) == Last(calls, c.binding, c.element);
  }

  /** And it copies all of them. */
  lemma TemplateCopiesAll<V(!new)>(bs: seq<Binding>, data: seq<V>, calls: seq<Call<V>>, slotSize: nat, key: nat, e: nat)
      returns (slot: nat)
    requires WellFormed(bs, |data|) && Refines(bs, data, calls) && Last(calls, key, e) != None
    ensures slot < |data| == |Copies(Entries(bs, |bs|, slotSize))| && Last(calls, key, e) == Some(data[slot])
    ensures Copies(Entries(bs, |bs|, slotSize))[slot] == Copy(key, e, Bytes(slot, slotSize))
  {
    assert Value(bs, data, key, e) == Last(calls, key, e);
    slot := TemplateWritesEveryValue(bs, data, slotSize, key, e);
  }

  // ----- One overload family a binding

  datatype Family = Scalars | Vectors | Elementwise

  predicate OfFamily<V>(c: Call<V>, f: Family) {
    match c
    case Scalar(_, _, _) => f.Scalars?
    case Vector(_, _, values) => f.Vectors? && |values| > 0
    case Indexed(_, _, _, index) => f.Elementwise? && index < 0xFFFF_FFFF
  }

  ghost predicate InFamilies<V>(calls: seq<Call<V>>, families: nat -> Family) {
    forall i | 0 <= i < |calls| :: OfFamily(calls[i], families(calls[i].key))
  }

  predicate SetBefore<V>(calls: seq<Call<V>>, key: nat, e: nat) {
    exists j | 0 <= j < |calls| :: calls[j].key == key && calls[j].Indexed? && calls[j].index == e
  }

  /** A new index lies beyond all those set before for its binding. */
  predicate Ascends<V>(calls: seq<Call<V>>, c: Call<V>) {
    c.Indexed? ==>
      || SetBefore(calls, c.key, c.index)
      || forall j | 0 <= j < |calls| && calls[j].key == c.key && calls[j].Indexed? :: calls[j].index < c.index
  }

  lemma FamiliesPrefix<V>(calls: seq<Call<V>>, families: nat -> Family, n: nat)
    requires InFamilies(calls, families) && n <= |calls|
    ensures InFamilies(calls[..n], families)
  {
  }

  lemma {:induction false} ScalarsOnlyZero<V>(calls: seq<Call<V>>, families: nat -> Family, key: nat, e: nat)
    requires InFamilies(calls, families) && families(key).Scalars? && e > 0
    ensures Last(calls, key, e) == None
  {
    if calls != [] {
      var n := |calls| - 1;
      FamiliesPrefix(calls, families, n);
      ScalarsOnlyZero(calls[..n], families, key, e);
      assert OfFamily(calls[n], families(calls[n].key));
    }
  }

  lemma {:induction false} VectorsFirstFew<V(!new)>(calls: seq<Call<V>>, families: nat -> Family, key: nat) returns (n: nat)
    requires InFamilies(calls, families) && families(key).Vectors?
    ensures FirstFew(calls, key, n)
  {
    if calls == [] {
      n := 0;
    } else {
      var m := |calls| - 1;
      FamiliesPrefix(calls, families, m);
      n := VectorsFirstFew(calls[..m], families, key);
      assert OfFamily(calls[m], families(calls[m].key));
      if calls[m].key == key {
        n := |calls[m].values|;
      } else {
        forall e: nat ensures Last(calls, key, e) == Last(calls[..m], key, e) {
        }
      }
    }
  }

  lemma {:induction false} ElementsSetBefore<V>(calls: seq<Call<V>>, families: nat -> Family, key: nat, e: nat)
    requires InFamilies(calls, families) && families(key).Elementwise?
    ensures Last(calls, key, e) != None <==> SetBefore(calls, key, e)
  {
    if calls != [] {
      var n := |calls| - 1;
      FamiliesPrefix(calls, families, n);
      ElementsSetBefore(calls[..n], families, key, e);
      assert OfFamily(calls[n], families(calls[n].key));
      SetBeforeSnoc(calls[..n], calls[n], key, e);
      assert calls == calls[..n] + [calls[n]];
    }
  }

  lemma SetBeforeSnoc<V>(calls: seq<Call<V>>, c: Call<V>, key: nat, e: nat)
    ensures SetBefore(calls + [c], key, e) <==> SetBefore(calls, key, e) || (c.key == key && c.Indexed? && c.index == e)
  {
    var more := calls + [c];
    if SetBefore(calls, key, e) {
      var j :| 0 <= j < |calls| && calls[j].key == key && calls[j].Indexed? && calls[j].index == e;
      assert more[j] == calls[j];
    }
    assert more[|calls|] == c;
  }

  lemma FamilyMayFollow<V(!new)>(calls: seq<Call<V>>, families: nat -> Family, c: Call<V>)
    requires InFamilies(calls, families) && OfFamily(c, families(c.key)) && Ascends(calls, c)
    ensures MayFollow(calls, c)
  {
    match c
    case Scalar(key, _, _) =>
      forall e: nat | e > 0 ensures Last(calls, key, e) == None {
        ScalarsOnlyZero(calls, families, key, e);
      }
    case Vector(key, _, _) =>
      var n := VectorsFirstFew(calls, families, key);
    case Indexed(key, _, _, index) =>
      ElementsSetBefore(calls, families, key, index);
      if !SetBefore(calls, key, index) {
        forall e: nat | e > index ensures Last(calls, key, e) == None {
          ElementsSetBefore(calls, families, key, e);
        }
      }
  }

  /** Calls of one overload family a binding, with new indices ascending, are disciplined, however the bindings are
      interleaved. */
  lemma FamiliesDisciplined<V(!new)>(calls: seq<Call<V>>, families: nat -> Family)
    requires InFamilies(calls, families) && forall i | 0 <= i < |calls| :: Ascends(calls[..i], calls[i])
    ensures Disciplined(calls)
  {
    forall i | 0 <= i < |calls| ensures MayFollow(calls[..i], calls[i]) {
      FamiliesPrefix(calls, families, i);
      assert OfFamily(calls[i], families(calls[i].key));
      FamilyMayFollow(calls[..i], families, calls[i]);
    }
  }
}
