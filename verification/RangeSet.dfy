/** The interval set of src/core/utils.h: half-open ranges kept sorted by their low end. */
module RangeSet {

  datatype Range = Range(low: nat, high: nat)

  /** Ranges are non-empty, in order, and never touch. */
  predicate Normal(rs: seq<Range>) {
    && (forall i | 0 <= i < |rs| :: rs[i].low < rs[i].high)
    && (forall i, j | 0 <= i < j < |rs| :: rs[i].high < rs[j].low)
  }

  predicate Covers(rs: seq<Range>, x: nat) { exists i | 0 <= i < |rs| :: rs[i].low <= x < rs[i].high }

  predicate CoversAll(rs: seq<Range>, low: nat, high: nat) { forall x | low <= x < high :: Covers(rs, x) }

  /** was plus [low, high) and nothing else. */
  ghost predicate IsUnion(rs: seq<Range>, was: seq<Range>, low: nat, high: nat) {
    forall x: nat :: Covers(rs, x) <==> Covers(was, x) || low <= x < high
  }

  /** Covering, one range at a time. */
  lemma CoversSplit(a: seq<Range>, r: Range, b: seq<Range>, x: nat)
    ensures Covers(a + [r] + b, x) <==> Covers(a, x) || r.low <= x < r.high || Covers(b, x)
  {
    var all := a + [r] + b;
    assert all[|a|] == r;
    if Covers(a, x) {
      var i :| 0 <= i < |a| && a[i].low <= x < a[i].high;
      assert all[i] == a[i];
    }
    if Covers(b, x) {
      var i :| 0 <= i < |b| && b[i].low <= x < b[i].high;
      assert all[|a| + 1 + i] == b[i];
    }
  }

  lemma CoversJoin(a: seq<Range>, b: seq<Range>, x: nat)
    ensures Covers(a + b, x) <==> Covers(a, x) || Covers(b, x)
  {
    if Covers(a, x) {
      var i :| 0 <= i < |a| && a[i].low <= x < a[i].high;
      assert (a + b)[i] == a[i];
    }
    if Covers(b, x) {
      var i :| 0 <= i < |b| && b[i].low <= x < b[i].high;
      assert (a + b)[|a| + i] == b[i];
    }
  }

  /** The point where a range ends is not covered. */
  lemma EndNotCovered(rs: seq<Range>, k: nat)
    requires Normal(rs) && k < |rs|
    ensures !Covers(rs, rs[k].high)
  {
    forall i | 0 <= i < |rs| ensures !(rs[i].low <= rs[k].high < rs[i].high) {
      assert i < k || i == k || k < i;
    }
  }

  /** r covers what mid covers, together with [low, high). */
  ghost predicate Fills(r: Range, mid: seq<Range>, low: nat, high: nat) {
    forall x: nat :: r.low <= x < r.high <==> Covers(mid, x) || low <= x < high
  }

  /** r stands for the ranges at..m of before, together with [low, high). */
  ghost predicate Stands(r: Range, before: seq<Range>, at: nat, m: nat, low: nat, high: nat)
    requires at <= m <= |before|
  {
    && r.low <= low < high <= r.high
    && (r.high == high || (0 < m && r.high == before[m - 1].high))
    && (forall i | 0 <= i < at :: before[i].high < r.low)
    && Fills(r, before[at..m], low, high)
  }

  lemma GlueNormal(r: Range, a: seq<Range>, b: seq<Range>)
    requires Normal(a) && Normal(b) && r.low < r.high
    requires forall i | 0 <= i < |a| :: a[i].high < r.low
    requires forall i | 0 <= i < |b| :: r.high < b[i].low
    ensures Normal(a + [r] + b)
  {
    var all := a + [r] + b;
    forall i | 0 <= i < |all| ensures all[i] == if i < |a| then a[i] else if i == |a| then r else b[i - |a| - 1] {}
  }

  lemma GlueUnion(r: Range, a: seq<Range>, mid: seq<Range>, b: seq<Range>, low: nat, high: nat)
    requires Fills(r, mid, low, high)
    ensures IsUnion(a + [r] + b, a + mid + b, low, high)
  {
    forall x: nat ensures Covers(a + [r] + b, x) <==> Covers(a + mid + b, x) || low <= x < high {
      CoversSplit(a, r, b, x);
      CoversJoin(a, mid, x);
      CoversJoin(a + mid, b, x);
    }
  }

  /** Replacing the stretch by the range that stands for it gives the union, in normal form once the next range
      begins after high. */
  lemma Glue(r: Range, before: seq<Range>, at: nat, m: nat, low: nat, high: nat)
    requires Normal(before) && at <= m <= |before| && Stands(r, before, at, m, low, high)
    requires m < |before| ==> high < before[m].low
    ensures Normal(before[..at] + [r] + before[m..])
    ensures IsUnion(before[..at] + [r] + before[m..], before, low, high)
  {
    GlueNormal(r, before[..at], before[m..]);
    GlueUnion(r, before[..at], before[at..m], before[m..], low, high);
    assert before == before[..at] + before[at..m] + before[m..];
  }

  /** The range the merge loop makes of r when it swallows next. */
  function Merged(r: Range, next: Range): Range {
    Range(r.low, if next.high > r.high then next.high else r.high)
  }

  lemma FillsMore(r: Range, mid: seq<Range>, next: Range, low: nat, high: nat)
    requires Fills(r, mid, low, high) && r.low <= next.low <= r.high && next.low < next.high
    ensures Fills(Merged(r, next), mid + [next], low, high)
  {
    forall x: nat ensures Covers(mid + [next], x) <==> Covers(mid, x) || next.low <= x < next.high {
      CoversSplit(mid, next, [], x);
      assert mid + [next] + [] == mid + [next];
    }
  }

  /** The merge loop's step keeps the standing range. */
  lemma Absorb(r: Range, before: seq<Range>, at: nat, m: nat, low: nat, high: nat)
    requires Normal(before) && at <= m < |before| && Stands(r, before, at, m, low, high)
    requires low < before[m].low <= high
    ensures Stands(Merged(r, before[m]), before, at, m + 1, low, high)
  {
    FillsMore(r, before[at..m], before[m], low, high);
    assert before[at..m + 1] == before[at..m] + [before[m]];
  }

  /** A fresh range stands for itself. */
  lemma StandsAlone(before: seq<Range>, at: nat, low: nat, high: nat)
    requires Normal(before) && at <= |before| && low < high
    requires at == 0 || before[at - 1].high < low
    ensures Stands(Range(low, high), before, at, at, low, high)
  {
    assert before[at..at] == [];
  }

  /** An existing range stretched up to high stands for itself and [low, high). */
  lemma StandsStretched(before: seq<Range>, at: nat, low: nat, high: nat)
    requires Normal(before) && at < |before| && before[at].low <= low <= before[at].high < high
    ensures Stands(Range(before[at].low, high), before, at, at + 1, low, high)
  {
    var mid := before[at..at + 1];
    forall x: nat ensures Covers(mid, x) <==> before[at].low <= x < before[at].high {
      CoversSplit([], before[at], [], x);
      assert [] + [before[at]] + [] == mid;
    }
  }

  class RangeSet {
    var ranges: seq<Range>

    constructor (ranges: seq<Range>)
      ensures this.ranges == ranges
    {
      this.ranges := ranges;
    }

    /** std::upper_bound on the low ends. */
    method UpperBound(low: nat) returns (k: nat)
      requires Normal(ranges)
      ensures k <= |ranges|
      ensures forall i | 0 <= i < k :: ranges[i].low <= low
      ensures forall i | k <= i < |ranges| :: low < ranges[i].low
    {
      k := 0;
      while k < |ranges| && ranges[k].low <= low
        invariant k <= |ranges|
        invariant forall i | 0 <= i < k :: ranges[i].low <= low
      {
        k := k + 1;
      }
    }

    /** Inserting keeps the normal form, adds exactly [low, high), leads to the range that holds it, and says
        whether anything was new. */
    method Insert(low: nat, high: nat) returns (at: nat, grew: bool)
      requires Normal(ranges) && low < high
      modifies this
      ensures Normal(ranges) && IsUnion(ranges, old(ranges), low, high)
      ensures at < |ranges| && ranges[at].low <= low && high <= ranges[at].high
      ensures grew <==> !CoversAll(old(ranges), low, high)
      ensures !grew ==> ranges == old(ranges)
    {
      ghost var before := ranges;
      var after := UpperBound(low);
      ghost var m := after;
      if after == 0 || ranges[after - 1].high < low {
        StandsAlone(before, after, low, high);
        assert !Covers(before, low);
        ranges := ranges[..after] + [Range(low, high)] + ranges[after..];
        at := after;
      } else {
        at := after - 1;
        if ranges[at].high >= high {
          return at, false;
        }
        StandsStretched(before, at, low, high);
        EndNotCovered(before, at);
        ranges := ranges[at := Range(ranges[at].low, high)];
      }
      Merge(at, high, before, m, low);
      grew := true;
    }

    /** The merge loop: the range at `at` swallows the ranges after it that begin no later than high. */
    method Merge(at: nat, high: nat, ghost before: seq<Range>, ghost from: nat, ghost low: nat)
      requires Normal(before) && at <= from <= |before| && (from < |before| ==> low < before[from].low)
      requires at < |ranges| && ranges == before[..at] + [ranges[at]] + before[from..]
      requires Stands(ranges[at], before, at, from, low, high)
      modifies this
      ensures Normal(ranges) && IsUnion(ranges, before, low, high)
      ensures at < |ranges| && ranges[at].low <= low && high <= ranges[at].high
    {
      ghost var m := from;
      while at + 1 < |ranges| && high >= ranges[at + 1].low
        invariant at <= m <= |before|
        invariant m < |before| ==> low < before[m].low
        invariant at < |ranges| && ranges == before[..at] + [ranges[at]] + before[m..]
        invariant Stands(ranges[at], before, at, m, low, high)
        decreases |ranges|
      {
        Absorb(ranges[at], before, at, m, low, high);
        ranges := ranges[..at] + [Merged(ranges[at], ranges[at + 1])] + ranges[at + 2..];
        m := m + 1;
      }
      Glue(ranges[at], before, at, m, low, high);
    }
  }
}
