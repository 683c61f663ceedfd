/** Exact-arithmetic counterparts of the two numpy reductions the tracker uses:
    the arithmetic mean and the median of a non-empty sequence of samples. */
module Numerics {

  /** The sum of a sequence, accumulated from the front, one element at a time
      (the order in which a running total grows as samples arrive). */
  function Sum(s: seq<real>): real
  {
    if s == [] then 0.0 else Sum(s[..|s| - 1]) + s[|s| - 1]
  }

  lemma {:induction false} SumAppend(a: seq<real>, b: seq<real>)
    ensures Sum(a + b) == Sum(a) + Sum(b)
  {
    if b == [] {
      assert a + b == a;
    } else {
      assert (a + b)[..|a + b| - 1] == a + b[..|b| - 1];
      SumAppend(a, b[..|b| - 1]);
    }
  }

  /** Every element of s lies in [lo, hi], so its sum lies in [|s| * lo, |s| * hi]. */
  lemma {:induction false} SumBounds(s: seq<real>, lo: real, hi: real)
    requires forall i :: 0 <= i < |s| ==> lo <= s[i] <= hi
    ensures |s| as real * lo <= Sum(s) <= |s| as real * hi
  {
    if s != [] {
      SumBounds(s[..|s| - 1], lo, hi);
    }
  }

  /** Arithmetic mean (numpy.mean) of a non-empty sequence. */
  function Mean(s: seq<real>): real
    requires |s| > 0
  {
    Sum(s) / |s| as real
  }

  /** The mean never leaves the range of the samples it averages. */
  lemma MeanWithin(s: seq<real>, lo: real, hi: real)
    requires |s| > 0
    requires forall i :: 0 <= i < |s| ==> lo <= s[i] <= hi
    ensures lo <= Mean(s) <= hi
  {
    SumBounds(s, lo, hi);
  }

  /** The mean of a concatenation, weighted by the lengths of its two parts. */
  lemma MeanOfConcat(a: seq<real>, b: seq<real>)
    requires |a| > 0 && |b| > 0
    ensures Mean(a + b) * (|a| + |b|) as real == Mean(a) * |a| as real + Mean(b) * |b| as real
  {
    SumAppend(a, b);
  }

  ghost predicate Sorted(t: seq<real>)
  {
    forall i, j :: 0 <= i < j < |t| ==> t[i] <= t[j]
  }

  /** Every element of u, which holds the tail of t and one more value x above
      the head of t, is at least the head of t. */
  lemma HeadBelowRest(x: real, t: seq<real>, u: seq<real>)
    requires Sorted(t) && t != [] && t[0] < x
    requires multiset(u) == multiset(t[1..]) + multiset{x}
    ensures forall j :: 0 <= j < |u| ==> t[0] <= u[j]
  {
    forall j | 0 <= j < |u|
      ensures t[0] <= u[j]
    {
      assert u[j] in multiset(u);
      if u[j] != x {
        assert u[j] in multiset(t[1..]);
        var k :| 0 <= k < |t[1..]| && t[1..][k] == u[j];
        assert t[k + 1] == u[j];
      }
    }
  }

  /** Inserts x into an ascending sequence, keeping it ascending. */
  function Insert(x: real, t: seq<real>): (r: seq<real>)
    requires Sorted(t)
    ensures Sorted(r)
    ensures |r| == |t| + 1
    ensures multiset(r) == multiset(t) + multiset{x}
  {
    if t == [] || x <= t[0] then
      [x] + t
    else
      assert t == [t[0]] + t[1..];
      var u := Insert(x, t[1..]);
      HeadBelowRest(x, t, u);
      [t[0]] + u
  }

  /** Insertion sort: an ascending rearrangement of s. */
  function Sort(s: seq<real>): (t: seq<real>)
    ensures Sorted(t)
    ensures |t| == |s|
    ensures multiset(t) == multiset(s)
  {
    if s == [] then
      []
    else
      assert s == [s[0]] + s[1..];
      Insert(s[0], Sort(s[1..]))
  }

  /** Two ascending sequences holding the same samples start with the same
      element: the smallest of them. */
  lemma HeadsAgree(a: seq<real>, b: seq<real>)
    requires Sorted(a) && Sorted(b)
    requires multiset(a) == multiset(b) && a != []
    ensures b != [] && a[0] == b[0]
  {
    assert a[0] in multiset(a);
    assert |b| == |multiset(b)| == |a|;
    var k :| 0 <= k < |b| && b[k] == a[0];
    assert b[0] <= a[0];
    assert b[0] in multiset(b);
    var m :| 0 <= m < |a| && a[m] == b[0];
  }

  /** Dropping the first element keeps a sequence ascending and removes
      exactly one copy of that element from its multiset. */
  lemma Tail(a: seq<real>)
    requires Sorted(a) && a != []
    ensures Sorted(a[1..])
    ensures multiset(a[1..]) == multiset(a) - multiset{a[0]}
  {
    assert a == [a[0]] + a[1..];
  }

  /** Two ascending sequences holding the same samples are the same sequence:
      "the sorted window" is well defined whatever algorithm sorts it. */
  lemma {:induction false} SortedUnique(a: seq<real>, b: seq<real>)
    requires Sorted(a) && Sorted(b)
    requires multiset(a) == multiset(b)
    ensures a == b
  {
    if a == [] {
      assert |b| == |multiset(b)| == 0;
    } else {
      HeadsAgree(a, b);
      Tail(a);
      Tail(b);
      SortedUnique(a[1..], b[1..]);
      assert a == [a[0]] + a[1..];
      assert b == [b[0]] + b[1..];
    }
  }

  /** The middle element of an ascending sequence of odd length, or the mean
      of its two middle elements when the length is even. */
  function Middle(t: seq<real>): real
    requires |t| > 0
  {
    var n := |t|;
    if n % 2 == 1 then t[n / 2] else (t[n / 2 - 1] + t[n / 2]) / 2.0
  }

  /** Median (numpy.median) of a non-empty sequence: the middle of its sorted
      copy. numpy finds it by partitioning rather than sorting, but the value
      is the same, since the sorted copy is unique (SortedUnique). */
  function Median(s: seq<real>): real
    requires |s| > 0
  {
    Middle(Sort(s))
  }

  /** The median is the middle of ANY ascending arrangement of the samples. */
  lemma MedianOfSorted(s: seq<real>, t: seq<real>)
    requires |s| > 0
    requires Sorted(t) && multiset(t) == multiset(s)
    ensures |t| > 0 && Median(s) == Middle(t)
  {
    assert |t| == |multiset(t)| == |multiset(s)| == |s|;
    SortedUnique(Sort(s), t);
  }

  /** The median depends only on which samples there are, not on their order. */
  lemma MedianIgnoresOrder(s: seq<real>, s': seq<real>)
    requires |s| > 0
    requires multiset(s) == multiset(s')
    ensures |s'| > 0 && Median(s) == Median(s')
  {
    assert |s'| == |multiset(s')| == |multiset(s)| == |s|;
    SortedUnique(Sort(s), Sort(s'));
  }

  /** The middle of an ascending sequence lies between its two central elements. */
  lemma MiddleBetween(t: seq<real>)
    requires Sorted(t) && |t| > 0
    ensures t[(|t| - 1) / 2] <= Middle(t) <= t[|t| / 2]
  {
    assert t[(|t| - 1) / 2] <= t[|t| / 2];
  }

  /** The median lies between the smallest and the largest sample: some
      sample is at or below it and some sample is at or above it. */
  lemma MedianSplits(s: seq<real>)
    requires |s| > 0
    ensures exists i :: 0 <= i < |s| && s[i] <= Median(s)
    ensures exists j :: 0 <= j < |s| && Median(s) <= s[j]
  {
    var t := Sort(s);
    MiddleBetween(t);
    var lo, hi := t[(|t| - 1) / 2], t[|t| / 2];
    assert lo in multiset(s) by {
      assert lo in multiset(t);
    }
    assert hi in multiset(s) by {
      assert hi in multiset(t);
    }
    var i :| 0 <= i < |s| && s[i] == lo;
    var j :| 0 <= j < |s| && s[j] == hi;
  }
}
