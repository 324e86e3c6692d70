/** `naive_quantiles` (src/ai_review_test.py): sort the values and read the
    10th, 50th and 90th percentiles at index `int(p * (n - 1))`. */
module Quantiles {
  import opened Wrappers

  predicate Sorted(s: seq<real>) {
    forall i, j :: 0 <= i <= j < |s| ==> s[i] <= s[j]
  }

  /** A sorted sequence stays sorted under a new first element no greater
      than any of its elements. */
  lemma SortedCons(h: real, t: seq<real>)
    requires Sorted(t)
    requires forall k :: 0 <= k < |t| ==> h <= t[k]
    ensures Sorted([h] + t)
  {
    var s := [h] + t;
    forall i, j | 0 <= i <= j < |s|
      ensures s[i] <= s[j]
    {
      if i > 0 { assert s[i] == t[i - 1] && s[j] == t[j - 1]; }
      else if j > 0 { assert s[j] == t[j - 1]; }
    }
  }

  /** The first element of a sorted sequence is no greater than any value
      the sequence holds. */
  lemma SortedHeadIsLeast(s: seq<real>, x: real)
    requires Sorted(s) && x in multiset(s)
    ensures s[0] <= x
  {
    var k :| 0 <= k < |s| && s[k] == x;
  }

  /** A lower bound of every element of `a` bounds every element of any
      rearrangement `b` of `a`. */
  lemma LowerBoundKept(lo: real, a: seq<real>, b: seq<real>)
    requires forall k :: 0 <= k < |a| ==> lo <= a[k]
    requires multiset(b) == multiset(a)
    ensures forall k :: 0 <= k < |b| ==> lo <= b[k]
  {
    forall k | 0 <= k < |b|
      ensures lo <= b[k]
    {
      assert b[k] in multiset(a);
    }
  }

  /** Inserts `x` into a sorted sequence, keeping it sorted. */
  function Insert(x: real, s: seq<real>): (r: seq<real>)
    requires Sorted(s)
    ensures Sorted(r)
    ensures multiset(r) == multiset(s) + multiset{x}
  {
    if |s| == 0 then [x]
    else if x <= s[0] then
      SortedCons(x, s);
      [x] + s
    else
      var rest := Insert(x, s[1..]);
      InsertBehindHead(x, s, rest);
      [s[0]] + rest
  }

  /** Once `x` goes past the head of `s`, putting the head back in front of
      the insertion into the tail gives a sorted rearrangement. */
  lemma InsertBehindHead(x: real, s: seq<real>, rest: seq<real>)
    requires Sorted(s) && |s| > 0 && s[0] < x
    requires Sorted(rest) && multiset(rest) == multiset(s[1..]) + multiset{x}
    ensures Sorted([s[0]] + rest)
    ensures multiset([s[0]] + rest) == multiset(s) + multiset{x}
  {
    assert s == [s[0]] + s[1..];
    var a := s[1..] + [x];
    assert forall k :: 0 <= k < |a| ==> s[0] <= a[k];
    LowerBoundKept(s[0], a, rest);
    SortedCons(s[0], rest);
  }

  /** Python's `sorted(values)`: the values in ascending order. */
  function Sort(s: seq<real>): (r: seq<real>)
    ensures Sorted(r)
    ensures multiset(r) == multiset(s)
  {
    if |s| == 0 then []
    else
      assert s == [s[0]] + s[1..];
      Insert(s[0], Sort(s[1..]))
  }

  /** Two sorted sequences holding the same values are the same sequence. */
  lemma {:induction false} SortedUnique(a: seq<real>, b: seq<real>)
    requires Sorted(a) && Sorted(b)
    requires multiset(a) == multiset(b)
    ensures a == b
    decreases |a|
  {
    assert |a| == |multiset(a)| == |multiset(b)| == |b|;
    if |a| > 0 {
      assert a[0] in multiset(a) && b[0] in multiset(b);
      SortedHeadIsLeast(a, b[0]);
      SortedHeadIsLeast(b, a[0]);
      assert a[0] == b[0];
      var ta, tb := a[1..], b[1..];
      assert multiset(a) == multiset{a[0]} + multiset(ta) by { assert a == [a[0]] + ta; }
      assert multiset(b) == multiset{b[0]} + multiset(tb) by { assert b == [b[0]] + tb; }
      assert multiset(ta) == multiset(tb) by {
        forall z ensures multiset(ta)[z] == multiset(tb)[z] {
          assert multiset(a)[z] == multiset{a[0]}[z] + multiset(ta)[z];
          assert multiset(b)[z] == multiset{b[0]}[z] + multiset(tb)[z];
        }
      }
      SortedTail(a);
      SortedTail(b);
      SortedUnique(a[1..], b[1..]);
    }
  }

  lemma SortedTail(s: seq<real>)
    requires Sorted(s) && |s| > 0
    ensures Sorted(s[1..])
  {
    forall i, j | 0 <= i <= j < |s| - 1
      ensures s[1..][i] <= s[1..][j]
    {
      assert s[1..][i] == s[i + 1] && s[1..][j] == s[j + 1];
    }
  }

  /** Sorting a sorted sequence changes nothing. */
  lemma SortSorted(s: seq<real>)
    requires Sorted(s)
    ensures Sort(s) == s
  {
    SortedUnique(Sort(s), s);
  }

  /** The three cut points. */
  datatype Quantiles = Quantiles(p10: real, p50: real, p90: real)

  /** `int(p * (n - 1))` for `p` = `tenths / 10`: always an index of the
      `n` sorted values. */
  function PickIndex(n: nat, tenths: nat): (idx: nat)
    requires n >= 1 && tenths <= 10
    ensures idx <= n - 1
  {
    assert tenths * (n - 1) <= 10 * (n - 1);
    tenths * (n - 1) / 10
  }

  lemma PickIndexOfTen()
    ensures PickIndex(10, 1) == 0 && PickIndex(10, 5) == 4 && PickIndex(10, 9) == 8
  {
  }

  /** `naive_quantiles(values)`: the 10th, 50th and 90th percentile picks of
      the sorted values; `IndexError` on an empty input, where even index 0
      is out of range. */
  function NaiveQuantiles(values: seq<real>): (r: Result<Quantiles>)
    ensures r.Ok? <==> |values| > 0
    ensures r.Err? ==> r.error == IndexError
    ensures r.Ok? ==> r.value.p10 in values && r.value.p50 in values && r.value.p90 in values
    ensures r.Ok? ==> r.value.p10 <= r.value.p50 <= r.value.p90
  {
    if |values| == 0 then Err(IndexError)
    else
      var sorted := Sort(values);
      var n := |values|;
      assert |sorted| == |multiset(sorted)| == n;
      var q := Quantiles(sorted[PickIndex(n, 1)], sorted[PickIndex(n, 5)], sorted[PickIndex(n, 9)]);
      assert sorted[PickIndex(n, 1)] in multiset(sorted);
      assert sorted[PickIndex(n, 5)] in multiset(sorted);
      assert sorted[PickIndex(n, 9)] in multiset(sorted);
      Ok(q)
  }

  /** The quantiles depend only on the values, not on their order. */
  lemma QuantilesIgnoreOrder(a: seq<real>, b: seq<real>)
    requires multiset(a) == multiset(b)
    ensures NaiveQuantiles(a) == NaiveQuantiles(b)
  {
    assert |a| == |multiset(a)| == |multiset(b)| == |b|;
    SortedUnique(Sort(a), Sort(b));
  }

  /** Values that all agree have that value as every quantile. */
  lemma QuantilesOfConstant(values: seq<real>, v: real)
    requires |values| > 0
    requires forall i :: 0 <= i < |values| ==> values[i] == v
    ensures NaiveQuantiles(values) == Ok(Quantiles(v, v, v))
  {
    var q := NaiveQuantiles(values).value;
    assert q.p10 in values && q.p50 in values && q.p90 in values;
  }

  /** On already sorted values the quantiles are read off directly. */
  lemma QuantilesOfSorted(values: seq<real>)
    requires Sorted(values) && |values| > 0
    ensures var n := |values|;
      NaiveQuantiles(values)
        == Ok(Quantiles(values[PickIndex(n, 1)], values[PickIndex(n, 5)], values[PickIndex(n, 9)]))
  {
    SortSorted(values);
  }

  /** The worked example: the median pick of 1..10 is at index 4, the value 5. */
  lemma QuantilesOfOneToTen()
    ensures NaiveQuantiles([1.0, 2.0, 3.0, 4.0, 5.0, 6.0, 7.0, 8.0, 9.0, 10.0]).value
              == Quantiles(1.0, 5.0, 9.0)
  {
    var v := [1.0, 2.0, 3.0, 4.0, 5.0, 6.0, 7.0, 8.0, 9.0, 10.0];
    assert forall i :: 0 <= i < |v| ==> v[i] == (i + 1) as real;
    forall i, j | 0 <= i <= j < |v|
      ensures v[i] <= v[j]
    {
      assert v[i] == (i + 1) as real && v[j] == (j + 1) as real;
    }
    QuantilesOfSorted(v);
    PickIndexOfTen();
  }
}
