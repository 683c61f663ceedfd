# SmoothedValue: a verified model of Detectron's smoothed-statistics tracker

Detectron's training loop reports losses and timings through `SmoothedValue`
(`detectron/utils/logging.py`). The tracker holds four things:

- a bounded FIFO window of the most recent samples (`deque(maxlen=window_size)`);
- the unbounded `series` of every sample, in insertion order;
- a running `total`;
- a running `count`.

`AddValue` updates all four. Three read-only queries sit on top: the median of
the window, the mean of the window, and the global mean `total / count`.

The model has two modules:

- `Numerics` (`numerics.dfy`) gives exact-real counterparts of the two numpy
  reductions the tracker calls: `Mean`, and `Median`, defined through an
  insertion sort. Its lemmas say what these mean. The median is the middle
  of any ascending arrangement of the samples, it ignores their order, and
  it lies between the smallest and the largest sample. The mean stays
  within the samples' range and splits over a concatenation.
- `Logging` (`logging.dfy`) has the tracker itself.
  - `BoundedDeque` is the `deque(maxlen=n)`. It stores the window as a ring
    over a fixed array, and its ghost `Contents` is the window, oldest first.
  - `SmoothedValue` holds that deque plus `series`, `total` and `count`. Its
    `Valid()` invariant says `count == |series|`, `total == Sum(series)`, and
    that the window is `Recent(series, maxlen)`: the last
    `min(count, maxlen)` samples, oldest first.
  - `AddValue` keeps `Valid()`. Its contract states the full new state: the
    window is `Slide(old window, maxlen, value)`, the series gains `value`,
    `count` goes up by one and `total` by `value`.
  - `SlideRecent` proves that one `Slide` step per sample produces exactly
    `Recent`. This is FIFO eviction.
  - The getters change nothing: they have no `modifies` clause, so reading
    twice gives the same answer.

Samples are exact `real`s, so the invariants hold exactly instead of up to
floating-point rounding.

Error paths follow the code:

- With an empty window, `numpy.mean` and `numpy.median` return nan. The model
  returns the `NaN` reading.
- `total / count` with `count == 0` raises `ZeroDivisionError`. The model
  returns `Raised(ZeroDivisionError)`.
- `deque` converts `maxlen` to a C `ssize_t` before it checks the sign. A
  `window_size` outside that range (below -2**63 or above 2**63 - 1) raises
  `OverflowError`, and `SmoothedValue.Make` returns `Raised(OverflowError)`.
- A negative `window_size` inside that range makes `deque` raise `ValueError`.
  `SmoothedValue.Make` returns `Raised(ValueError)`.
- `window_size == 0` is legal. That window stays empty forever.

## Model

| member | source | states |
|---|---|---|
| `Numerics.SumAppend` | detectron/utils/logging.py:97-99 | the sum of a series with more samples appended is the old sum plus theirs (why a running total tracks the series sum) |
| `Numerics.SumBounds` | detectron/utils/logging.py:104-105 | samples within [lo, hi] sum to between n*lo and n*hi |
| `Numerics.MeanWithin` | detectron/utils/logging.py:104-105 | the mean of non-empty samples lies within any range holding all of them |
| `Numerics.MeanOfConcat` | detectron/utils/logging.py:104-108 | the mean of a concatenation is the length-weighted mean of the parts' means |
| `Numerics.Insert` | detectron/utils/logging.py:101-102 | inserting into an ascending sequence gives an ascending sequence one longer, with exactly one more copy of the value |
| `Numerics.Sort` | detectron/utils/logging.py:101-102 | insertion sort yields an ascending permutation of its input; numpy defines the median over the sorted copy of the window, and `SortedUnique` makes that copy unique whatever algorithm produces it |
| `Numerics.SortedUnique` | detectron/utils/logging.py:101-102 | two ascending sequences with the same multiset of samples are equal, so "the sorted window" is unique |
| `Numerics.MedianOfSorted` | detectron/utils/logging.py:101-102 | the median is the middle element (odd length) or the mean of the two middle elements (even length) of any ascending arrangement of the samples |
| `Numerics.MedianIgnoresOrder` | detectron/utils/logging.py:101-102 | two windows holding the same samples in different orders have the same median |
| `Numerics.MedianSplits` | detectron/utils/logging.py:101-102 | some sample is at or below the median and some sample is at or above it |
| `Logging.Slide` | detectron/utils/logging.py:90-96 | one append to a deque of maxlen n keeps at most n samples, grows by one until full, and puts the new sample last |
| `Logging.SlideRecent` | detectron/utils/logging.py:90-97 | sliding the window of a series by v gives the window of the series extended by v: the deque always holds the last min(count, n) samples, oldest first |
| `Logging.NoEvictionMeansAgree` | detectron/utils/logging.py:104-108 | while count <= window size, the window is the whole series and the window mean equals the global mean |
| `Logging.EvictionSplitsMean` | detectron/utils/logging.py:104-108 | after eviction, the series is evicted prefix + window, and the global mean equals the window mean exactly when the evicted samples have the window's mean |
| `Logging.RingView` | detectron/utils/logging.py:90 | the window read off a ring of len samples from position start has length len |
| `Logging.RingPush` | detectron/utils/logging.py:96 | writing into the first free slot of a ring that is not full appends the sample to the window |
| `Logging.RingRotate` | detectron/utils/logging.py:96 | overwriting the oldest slot of a full ring and advancing start drops the oldest sample and appends the new one |
| `Logging.BoundedDeque.constructor` | detectron/utils/logging.py:90 | a new deque of maxlen n is empty and owns a fresh ring of n slots |
| `Logging.BoundedDeque.Append` | detectron/utils/logging.py:96 | append keeps the ring invariant and its contents become Slide(old contents, maxlen, v) |
| `Logging.BoundedDeque.Items` | detectron/utils/logging.py:101-105 | iterating the deque yields exactly its contents, oldest first |
| `Logging.SmoothedValue.constructor` | detectron/utils/logging.py:89-93 | for 0 <= window_size <= 2**63 - 1, a new tracker has an empty window of the given maxlen, an empty series, total 0 and count 0 |
| `Logging.SmoothedValue.Make` | detectron/utils/logging.py:89-93 | SmoothedValue(window_size) raises exactly when window_size < 0 or window_size > 2**63 - 1: OverflowError outside the ssize_t range, ValueError for a negative size inside it; otherwise it gives a fresh, empty, valid tracker |
| `Logging.SmoothedValue.AddValue` | detectron/utils/logging.py:95-99 | keeps count == \|series\|, total == Sum(series) and window == last min(count, maxlen) of series; appends the value to series, adds one to count and the value to total, and slides it into the window |
| `Logging.SmoothedValue.GetMedianValue` | detectron/utils/logging.py:101-102 | nan exactly when the window is empty (no samples yet, or maxlen 0), otherwise the median of the last min(count, maxlen) samples |
| `Logging.SmoothedValue.GetAverageValue` | detectron/utils/logging.py:104-105 | nan exactly when the window is empty, otherwise the mean of the last min(count, maxlen) samples |
| `Logging.SmoothedValue.GetGlobalAverageValue` | detectron/utils/logging.py:107-108 | ZeroDivisionError exactly when no sample was added, otherwise the mean of the whole series |
| `Logging.EvictionExample` | detectron/utils/logging.py:90-96 | a window of 3 fed 1, 2, 3, 4 holds 2, 3, 4 |
| `Logging.DivergenceExample` | detectron/utils/logging.py:104-108 | a window of 2 fed 10, 20, 30 holds 20, 30: window mean 25, global mean 20 |
| `Logging.MedianOddExample` | detectron/utils/logging.py:101-102 | a window holding 3, 1, 2 in any order has median 2 |
| `Logging.MedianEvenExample` | detectron/utils/logging.py:101-102 | a window holding 3, 1, 2, 4 in any order has median 2.5 |
| `Logging.FedOnce` | detectron/utils/logging.py:89-99 | a fresh tracker with window 2 fed x holds window [x] and series [x] |
| `Logging.FedTwice` | detectron/utils/logging.py:89-99 | fed x then y, it holds window [x, y] and series [x, y] |
| `Logging.FedThrice` | detectron/utils/logging.py:89-99 | fed x, y, z, the window has evicted x and holds [y, z], while the series keeps [x, y, z] |
| `Logging.DivergenceRun` | detectron/utils/logging.py:89-108 | a tracker with window 2 fed 10, 20, 30 through AddValue reads window mean 25 and global mean 20, and a second read of the window mean gives 25 again |
| `Logging.EmptyExample` | detectron/utils/logging.py:89-108 | on a fresh tracker both window readings are nan and the global mean raises ZeroDivisionError |

## Left out

- `log_json_stats` (logging.py:35-41): it formats floats as strings and prints JSON to standard output. That is I/O and float formatting.
- `log_for_aml` and `log_test_results_for_aml` (logging.py:43-81): they call the external AzureML `Run` API, read the global configuration and print. These are foreign calls.
- `send_email` (logging.py:111-116): it sends mail over SMTP, which is network I/O.
- `setup_logging` (logging.py:119-126): it reconfigures the process-wide logging system.
- IEEE floating point: `total += value`, `np.mean` and `np.median` round in the source. The model uses exact reals. numpy's empty-input warning is not modelled, only its nan result.
- `BoundedDeque` models only what the tracker uses: `append` with eviction, and iteration. Other deque operations are not part of this model.
- `window_size=None` (an unbounded deque) and non-integer sizes (a `TypeError` from `deque`): the tracker's constructor takes an integer, so the model takes an `int`.
- The ssize_t range is that of a 64-bit build. On a 32-bit build `deque` raises `OverflowError` from 2**31 on, which the model does not cover.
- `SmoothedValue.constructor` requires a window size of at most 2**63 - 1. Larger sizes are handled by `SmoothedValue.Make`, which returns the `OverflowError`.
