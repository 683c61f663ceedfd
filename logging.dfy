/** The SmoothedValue tracker of detectron/utils/logging.py: a bounded FIFO
    window of the most recent samples, the unbounded series of every sample,
    and a running total and count, with the window median, the window mean
    and the global mean read off that state. Samples are exact reals. */
module Logging {
  import opened Numerics

  /** The Python exceptions the tracker can raise. */
  datatype Error = ValueError | OverflowError | ZeroDivisionError

  datatype Result<T> = Ok(value: T) | Raised(error: Error)

  /** The range of a C ssize_t on a 64-bit platform, into which deque converts
      its maxlen before checking its sign. */
  const SsizeMin: int := -0x8000_0000_0000_0000
  const SsizeMax: int := 0x7FFF_FFFF_FFFF_FFFF

  /** What numpy's mean and median return: a number, or nan for an empty input. */
  datatype Reading = Num(value: real) | NaN

  function Min(a: nat, b: nat): nat
  {
    if a <= b then a else b
  }

  /** The contents of a deque(maxlen = n) after every element of s was
      appended to an empty one: the last min(|s|, n) elements of s, oldest first. */
  function Recent(s: seq<real>, n: nat): seq<real>
  {
    s[|s| - Min(|s|, n)..]
  }

  /** One append to a deque(maxlen = n) holding w: drop the oldest element
      when w is already full, then add v at the newest end. A deque with
      maxlen 0 stays empty. */
  function Slide(w: seq<real>, n: nat, v: real): (r: seq<real>)
    requires |w| <= n
    ensures |r| <= n
    ensures |r| == Min(|w| + 1, n)
    ensures n > 0 ==> r[|r| - 1] == v
  {
    if n == 0 then []
    else if |w| < n then w + [v]
    else w[1..] + [v]
  }

  /** Appending one sample and then taking the window is the same as sliding
      the previous window: the step-by-step deque agrees with its definition. */
  lemma SlideRecent(s: seq<real>, n: nat, v: real)
    ensures Slide(Recent(s, n), n, v) == Recent(s + [v], n)
  {
    var w := Recent(s, n);
    var s' := s + [v];
    if n > 0 {
      if |s| < n {
        assert w == s;
        assert Recent(s', n) == s';
      } else {
        assert |w| == n;
        assert Recent(s', n) == s'[|s'| - n..];
        assert s'[|s'| - n..] == s[|s| - n + 1..] + [v];
        assert w[1..] == s[|s| - n + 1..];
      }
    }
  }

  /** Before any eviction the window is the whole series, so the window mean
      and the global mean agree. */
  lemma NoEvictionMeansAgree(s: seq<real>, n: nat)
    requires 0 < |s| <= n
    ensures Recent(s, n) == s && Mean(Recent(s, n)) == Mean(s)
  {
    assert s[0..] == s;
  }

  /** Cancelling the weights of a weighted mean: the overall mean s of parts
      with means e and w and weights k > 0 and m >= 0 equals w exactly when e does. */
  lemma WeightedCancel(s: real, e: real, w: real, k: real, m: real)
    requires s * (k + m) == e * k + w * m
    requires k > 0.0 && m >= 0.0
    ensures s == w <==> e == w
  {
    assert w * (k + m) == w * k + w * m;
    if s == w {
      assert (w - e) * k == 0.0;
    }
    if e == w {
      assert (s - w) * (k + m) == 0.0;
    }
  }

  /** Once samples have been evicted, the series splits into the evicted
      prefix and the window, and the global mean equals the window mean
      exactly when the evicted samples have the same mean as the window. */
  lemma EvictionSplitsMean(s: seq<real>, n: nat)
    requires 0 < n < |s|
    ensures var w, e := Recent(s, n), s[..|s| - n];
      s == e + w && |w| == n &&
      (Mean(s) == Mean(w) <==> Mean(e) == Mean(w))
  {
    var w, e := Recent(s, n), s[..|s| - n];
    assert s == e + w;
    MeanOfConcat(e, w);
    WeightedCancel(Mean(s), Mean(e), Mean(w), |e| as real, |w| as real);
  }

  /** Folds a ring position k < 2 * n back into [0, n). */
  function WrapAt(n: nat, k: nat): nat
  {
    if k < n then k else k - n
  }

  /** The len samples a ring b holds from position start on, oldest first:
      they run to the end of b and continue from its front. */
  function RingView(b: seq<real>, start: nat, len: nat): (w: seq<real>)
    requires len <= |b| && start <= |b|
    ensures |w| == len
  {
    if start + len <= |b| then b[start..start + len]
    else b[start..] + b[..start + len - |b|]
  }

  /** The i-th sample of the view sits at position start + i, folded. */
  lemma RingViewAt(b: seq<real>, start: nat, len: nat, i: nat)
    requires len <= |b| && start < |b| && i < len
    ensures RingView(b, start, len)[i] == b[WrapAt(|b|, start + i)]
  {
  }

  /** Writing v into the first free slot of a ring that is not full appends v. */
  lemma RingPush(b: seq<real>, start: nat, len: nat, v: real)
    requires len < |b| && start < |b|
    ensures RingView(b[WrapAt(|b|, start + len) := v], start, len + 1)
         == RingView(b, start, len) + [v]
  {
    var n, b' := |b|, b[WrapAt(|b|, start + len) := v];
    var w, w' := RingView(b, start, len), RingView(b', start, len + 1);
    forall i | 0 <= i < len + 1
      ensures w'[i] == (w + [v])[i]
    {
      RingViewAt(b', start, len + 1, i);
      if i < len {
        RingViewAt(b, start, len, i);
        assert WrapAt(n, start + i) != WrapAt(n, start + len);
      }
    }
  }

  /** Overwriting the oldest slot of a full ring with v and advancing start
      drops the oldest sample and appends v. */
  lemma RingRotate(b: seq<real>, start: nat, v: real)
    requires 0 < |b| && start < |b|
    ensures RingView(b[start := v], WrapAt(|b|, start + 1), |b|)
         == RingView(b, start, |b|)[1..] + [v]
  {
    var n, b', start' := |b|, b[start := v], WrapAt(|b|, start + 1);
    var w, w' := RingView(b, start, n), RingView(b', start', n);
    forall i | 0 <= i < n
      ensures w'[i] == (w[1..] + [v])[i]
    {
      RingViewAt(b', start', n, i);
      if i < n - 1 {
        RingViewAt(b, start, n, i + 1);
        assert WrapAt(n, start' + i) == WrapAt(n, start + i + 1) != start;
      } else {
        assert WrapAt(n, start' + i) == start;
      }
    }
  }

  /** collections.deque(maxlen = maxlen) restricted to what the tracker uses
      (append and iteration), stored as a ring over a fixed array. */
  class BoundedDeque {
    const maxlen: nat
    /** Ring storage: len samples starting at index start. */
    const buffer: array<real>
    var start: nat
    var len: nat

    /** The deque's contents, oldest first. */
    ghost var Contents: seq<real>

    ghost predicate Valid()
      reads this, buffer
    {
      buffer.Length == maxlen &&
      len <= maxlen && start <= maxlen && (maxlen == 0 || start < maxlen) &&
      Contents == RingView(buffer[..], start, len)
    }

    constructor (maxlen: nat)
      ensures Valid() && fresh(buffer)
      ensures this.maxlen == maxlen && Contents == []
    {
      this.maxlen := maxlen;
      buffer := new real[maxlen];
      start, len := 0, 0;
      Contents := [];
    }

    /** Appends v at the newest end, evicting the oldest sample when full. */
    method Append(v: real)
      requires Valid()
      modifies this, buffer
      ensures Valid()
      ensures Contents == Slide(old(Contents), maxlen, v)
    {
      ghost var b := buffer[..];
      if maxlen == 0 {
        return;
      }
      if len < maxlen {
        var slot := WrapAt(maxlen, start + len);
        RingPush(b, start, len, v);
        buffer[slot] := v;
        assert buffer[..] == b[slot := v];
        len := len + 1;
        Contents := Contents + [v];
      } else {
        RingRotate(b, start, v);
        buffer[start] := v;
        assert buffer[..] == b[start := v];
        start := WrapAt(maxlen, start + 1);
        Contents := Contents[1..] + [v];
      }
    }

    /** The samples, oldest first, read out of the ring (the array numpy
        builds when it is handed the deque). */
    method Items() returns (w: seq<real>)
      requires Valid()
      ensures w == Contents
    {
      w := [];
      var i := 0;
      while i < len
        invariant 0 <= i <= len
        invariant w == Contents[..i]
      {
        RingViewAt(buffer[..], start, len, i);
        w := w + [buffer[WrapAt(maxlen, start + i)]];
        i := i + 1;
      }
    }
  }

  class SmoothedValue {
    /** The window of recent samples. */
    const deque: BoundedDeque
    /** Every sample ever added, in insertion order. */
    var series: seq<real>
    var total: real
    var count: nat

    ghost predicate Valid()
      reads this, deque, deque.buffer
    {
      deque.Valid() &&
      count == |series| && total == Sum(series) &&
      deque.Contents == Recent(series, deque.maxlen)
    }

    /** A tracker whose window keeps at most windowSize samples, with nothing
        recorded yet. */
    constructor (windowSize: nat)
      requires windowSize <= SsizeMax
      ensures Valid() && fresh(deque) && fresh(deque.buffer)
      ensures deque.maxlen == windowSize
      ensures deque.Contents == [] && series == [] && total == 0.0 && count == 0
    {
      deque := new BoundedDeque(windowSize);
      series, total, count := [], 0.0, 0;
    }

    /** SmoothedValue(window_size) for any integer. The deque constructor
        raises OverflowError for a maxlen outside the ssize_t range, and
        ValueError for a negative one inside it. */
    static method Make(windowSize: int) returns (r: Result<SmoothedValue>)
      ensures r.Raised? <==> windowSize < 0 || SsizeMax < windowSize
      ensures r.Raised? && (windowSize < SsizeMin || SsizeMax < windowSize) ==> r.error == OverflowError
      ensures r.Raised? && SsizeMin <= windowSize < 0 ==> r.error == ValueError
      ensures r.Ok? ==> fresh(r.value) && fresh(r.value.deque) && fresh(r.value.deque.buffer)
      ensures r.Ok? ==> r.value.Valid() && r.value.deque.maxlen == windowSize
      ensures r.Ok? ==> r.value.deque.Contents == [] && r.value.series == []
      ensures r.Ok? ==> r.value.total == 0.0 && r.value.count == 0
    {
      if windowSize < SsizeMin || SsizeMax < windowSize {
        return Raised(OverflowError);
      }
      if windowSize < 0 {
        return Raised(ValueError);
      }
      var sv := new SmoothedValue(windowSize);
      r := Ok(sv);
    }

    /** Records one sample: slides it into the window, appends it to the
        series, counts it and adds it to the total. */
    method AddValue(value: real)
      requires Valid()
      modifies this, deque, deque.buffer
      ensures Valid()
      ensures deque.Contents == Slide(old(deque.Contents), deque.maxlen, value)
      ensures series == old(series) + [value]
      ensures count == old(count) + 1 && total == old(total) + value
    {
      deque.Append(value);
      SlideRecent(series, deque.maxlen, value);
      assert (series + [value])[..|series|] == series;
      series := series + [value];
      count := count + 1;
      total := total + value;
    }

    /** numpy.median over the window; nan when the window is empty. */
    method GetMedianValue() returns (r: Reading)
      requires Valid()
      ensures r.NaN? <==> series == [] || deque.maxlen == 0
      ensures r.Num? ==> r.value == Median(Recent(series, deque.maxlen))
    {
      var w := deque.Items();
      if w == [] {
        return NaN;
      }
      r := Num(Median(w));
    }

    /** numpy.mean over the window; nan when the window is empty. */
    method GetAverageValue() returns (r: Reading)
      requires Valid()
      ensures r.NaN? <==> series == [] || deque.maxlen == 0
      ensures r.Num? ==> r.value == Mean(Recent(series, deque.maxlen))
    {
      var w := deque.Items();
      if w == [] {
        return NaN;
      }
      r := Num(Mean(w));
    }

    /** total / count: the mean of every sample ever added, or
        ZeroDivisionError before the first one. */
    method GetGlobalAverageValue() returns (r: Result<real>)
      requires Valid()
      ensures r.Raised? <==> series == []
      ensures r.Raised? ==> r.error == ZeroDivisionError
      ensures r.Ok? ==> r.value == Mean(series)
    {
      if count == 0 {
        return Raised(ZeroDivisionError);
      }
      r := Ok(total / count as real);
    }
  }

  /** A window of 3 fed 1, 2, 3, 4, one Slide step (the effect of one
      AddValue on the window) per sample, has evicted 1 and holds 2, 3, 4,
      which are the last three samples of the series. */
  lemma EvictionExample()
    ensures Slide(Slide(Slide(Slide([], 3, 1.0), 3, 2.0), 3, 3.0), 3, 4.0) == [2.0, 3.0, 4.0]
    ensures Recent([1.0, 2.0, 3.0, 4.0], 3) == [2.0, 3.0, 4.0]
  {
    assert [1.0, 2.0, 3.0][1..] + [4.0] == [2.0, 3.0, 4.0];
  }

  /** A window of 2 fed 10, 20, 30: the window mean is 25, the global mean 20. */
  lemma DivergenceExample()
    ensures Slide(Slide(Slide([], 2, 10.0), 2, 20.0), 2, 30.0) == Recent([10.0, 20.0, 30.0], 2) == [20.0, 30.0]
    ensures Mean([20.0, 30.0]) == 25.0
    ensures Mean([10.0, 20.0, 30.0]) == 20.0
  {
    assert [10.0, 20.0][1..] + [30.0] == [20.0, 30.0];
    assert [10.0, 20.0, 30.0][..2] == [10.0, 20.0];
    assert [10.0, 20.0][..1] == [10.0];
    assert [20.0, 30.0][..1] == [20.0];
    assert [10.0][..0] == [] && [20.0][..0] == [];
    assert Sum([20.0, 30.0]) == 50.0;
    assert Sum([10.0, 20.0, 30.0]) == 60.0;
  }

  /** A fresh tracker with a window of 2, fed x through AddValue. */
  method FedOnce(x: real) returns (sv: SmoothedValue)
    ensures fresh(sv) && fresh(sv.deque) && fresh(sv.deque.buffer)
    ensures sv.Valid() && sv.deque.maxlen == 2
    ensures sv.deque.Contents == [x] && sv.series == [x]
  {
    sv := new SmoothedValue(2);
    sv.AddValue(x);
  }

  /** Then fed y: the window is full and still holds the whole series. */
  method FedTwice(x: real, y: real) returns (sv: SmoothedValue)
    ensures fresh(sv) && fresh(sv.deque) && fresh(sv.deque.buffer)
    ensures sv.Valid() && sv.deque.maxlen == 2
    ensures sv.deque.Contents == [x, y] && sv.series == [x, y]
  {
    sv := FedOnce(x);
    sv.AddValue(y);
  }

  /** Then fed z: x is evicted from the window, and the series keeps all
      three samples. */
  method FedThrice(x: real, y: real, z: real) returns (sv: SmoothedValue)
    ensures fresh(sv) && fresh(sv.deque) && fresh(sv.deque.buffer)
    ensures sv.Valid() && sv.deque.maxlen == 2
    ensures sv.deque.Contents == [y, z] && sv.series == [x, y, z]
  {
    sv := FedTwice(x, y);
    sv.AddValue(z);
    assert [x, y][1..] == [y];
  }

  /** The window of 2 fed 10, 20, 30, driven through the tracker itself: the
      window mean reads 25 and the global mean 20, and reading the window
      mean again gives the same answer. */
  method DivergenceRun() returns (avg: Reading, global: Result<real>, again: Reading)
    ensures avg == Num(25.0) && global == Ok(20.0) && again == avg
  {
    var sv := FedThrice(10.0, 20.0, 30.0);
    DivergenceExample();
    avg := sv.GetAverageValue();
    global := sv.GetGlobalAverageValue();
    again := sv.GetAverageValue();
  }

  /** A window holding 3, 1 and 2, in any order, has median 2: its middle
      sample after sorting. */
  lemma MedianOddExample(w: seq<real>)
    requires multiset(w) == multiset{3.0, 1.0, 2.0}
    ensures |w| == 3 && Median(w) == 2.0
  {
    var t := [1.0, 2.0, 3.0];
    assert |w| == |multiset(w)| == 3;
    assert multiset(t) == multiset(w);
    MedianOfSorted(w, t);
  }

  /** A window holding 3, 1, 2 and 4, in any order, has median 2.5: the mean
      of its two middle samples after sorting. */
  lemma MedianEvenExample(w: seq<real>)
    requires multiset(w) == multiset{3.0, 1.0, 2.0, 4.0}
    ensures |w| == 4 && Median(w) == 2.5
  {
    var t := [1.0, 2.0, 3.0, 4.0];
    assert |w| == |multiset(w)| == 4;
    assert multiset(t) == multiset(w);
    MedianOfSorted(w, t);
  }

  /** Before the first sample, the window readings are nan and the global
      mean raises ZeroDivisionError. */
  method EmptyExample() returns (median: Reading, avg: Reading, global: Result<real>)
    ensures median == NaN && avg == NaN
    ensures global == Raised(ZeroDivisionError)
  {
    var sv := new SmoothedValue(5);
    median := sv.GetMedianValue();
    avg := sv.GetAverageValue();
    global := sv.GetGlobalAverageValue();
  }
}
