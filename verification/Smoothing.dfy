/** Traffic rates smoothed by a sliding mean, rebuilt or kept up incrementally, over exact reals. */
module Smoothing {
  const MAX_SAMPLES: nat := 86400
  const DEFAULT_WINDOW: nat := 30

  // ---- The sliding mean ----

  function Min(a: nat, b: nat): nat {
    if a < b then a else b
  }

  /** The samples from `i` up to `j`, added up. */
  function RangeSum(rates: seq<real>, i: nat, j: nat): real
    requires i <= j <= |rates|
    decreases j - i
  {
    if i == j then 0.0 else RangeSum(rates, i, j - 1) + rates[j - 1]
  }

  /** Where the window that starts at `i` ends. */
  function WindowEnd(size: nat, window: nat, i: nat): nat {
    Min(i + window, size)
  }

  /** The mean of the window that starts at sample `i`; newest samples come first. */
  function MeanAt(rates: seq<real>, window: nat, i: nat): real
    requires i < |rates| && window > 0
  {
    RangeSum(rates, i, WindowEnd(|rates|, window, i)) / (WindowEnd(|rates|, window, i) - i) as real
  }

  ghost predicate IsSmoothed(smoothed: seq<real>, rates: seq<real>, window: nat)
    requires window > 0
  {
    |smoothed| == |rates| && forall i :: 0 <= i < |rates| ==> smoothed[i] == MeanAt(rates, window, i)
  }

  lemma {:induction false} RangeSumFront(rates: seq<real>, i: nat, j: nat)
    requires i < j <= |rates|
    ensures RangeSum(rates, i, j) == rates[i] + RangeSum(rates, i + 1, j)
    decreases j
  {
    if i + 1 < j {
      RangeSumFront(rates, i, j - 1);
    }
  }

  /** Equal samples, possibly at shifted places, have equal sums. */
  lemma {:induction false} RangeSumSame(a: seq<real>, i: nat, b: seq<real>, k: nat, n: nat)
    requires i + n <= |a| && k + n <= |b|
    requires forall m :: i <= m < i + n ==> a[m] == b[m - i + k]
    ensures RangeSum(a, i, i + n) == RangeSum(b, k, k + n)
  {
    if n > 0 {
      RangeSumSame(a, i, b, k, n - 1);
    }
  }

  /** The running sum visits every window once. */
  method CalculateSmoothedHistory(rates: seq<real>, window: nat) returns (smoothed: seq<real>)
    requires window > 0
    ensures IsSmoothed(smoothed, rates, window)
  {
    smoothed := [];
    if |rates| == 0 {
      return;
    }
    var size := Min(|rates|, window);
    var sum := 0.0;
    for i := 0 to size
      invariant sum == RangeSum(rates, 0, i)
    {
      sum := sum + rates[i];
    }
    for i := 0 to |rates|
      invariant |smoothed| == i
      invariant forall j :: 0 <= j < i ==> smoothed[j] == MeanAt(rates, window, j)
      invariant sum == RangeSum(rates, i, WindowEnd(|rates|, window, i))
    {
      var count := Min(size, |rates| - i);
      assert i + count == WindowEnd(|rates|, window, i);
      smoothed := smoothed + [sum / count as real];
      RangeSumFront(rates, i, WindowEnd(|rates|, window, i));
      sum := sum - rates[i];
      var incoming := i + size;
      if incoming < |rates| {
        sum := sum + rates[incoming];
      }
    }
  }

  method CurrentMovingAverage(rates: seq<real>, window: nat) returns (mean: real)
    requires window > 0
    ensures mean == if rates == [] then 0.0 else MeanAt(rates, window, 0)
  {
    var count := Min(|rates|, window);
    if count == 0 {
      return 0.0;
    }
    var sum := 0.0;
    for i := 0 to count
      invariant sum == RangeSum(rates, 0, i)
    {
      sum := sum + rates[i];
    }
    mean := sum / count as real;
  }

  // ---- Incremental against rebuilt ----

  /**
   * `full` is what the smoother has seen since its last rebuild: the retained samples, and behind them
   * those discarded since. The kept list is the mean over `full`, cut to the retained length.
   */
  ghost predicate KeptUp(smoothed: seq<real>, rates: seq<real>, full: seq<real>, window: nat, capacity: nat) {
    && 0 < window <= capacity && |rates| <= capacity && |rates| <= |full|
    && (forall i :: 0 <= i < |rates| ==> full[i] == rates[i])
    && (|full| > |rates| ==> |rates| == capacity)
    && |smoothed| == |rates| && forall i :: 0 <= i < |rates| ==> smoothed[i] == MeanAt(full, window, i)
  }

  lemma Rebuilt(smoothed: seq<real>, rates: seq<real>, window: nat, capacity: nat)
    requires 0 < window <= capacity && |rates| <= capacity && IsSmoothed(smoothed, rates, window)
    ensures KeptUp(smoothed, rates, rates, window, capacity)
  {
  }

  /** A window that both lists contain has one mean. */
  lemma MeanSame(a: seq<real>, i: nat, b: seq<real>, k: nat, window: nat)
    requires window > 0 && i < |a| && k < |b| && WindowEnd(|a|, window, i) - i == WindowEnd(|b|, window, k) - k
    requires forall m :: i <= m < WindowEnd(|a|, window, i) ==> a[m] == b[m - i + k]
    ensures MeanAt(a, window, i) == MeanAt(b, window, k)
  {
    RangeSumSame(a, i, b, k, WindowEnd(|a|, window, i) - i);
  }

  /** The samples and means after one more sample. */
  function Pushed(list: seq<real>, x: real, keep: nat): (r: seq<real>)
    ensures keep > 0 ==> |r| > 0
  {
    if |list| + 1 <= keep then [x] + list else ([x] + list)[..keep]
  }

  /** One incremental step keeps up with the samples. */
  lemma PushedSamples(rates: seq<real>, full: seq<real>, x: real, capacity: nat)
    requires |rates| <= capacity && |rates| <= |full| && 0 < capacity
    requires forall i :: 0 <= i < |rates| ==> full[i] == rates[i]
    requires |full| > |rates| ==> |rates| == capacity
    ensures var next := Pushed(rates, x, capacity); var more := [x] + full;
      && 0 < |next| <= capacity && |next| <= |more| && (|more| > |next| ==> |next| == capacity)
      && forall i :: 0 <= i < |next| ==> more[i] == next[i]
  {
  }

  lemma AppendKeepsUp(smoothed: seq<real>, rates: seq<real>, full: seq<real>, window: nat, capacity: nat, x: real)
    requires KeptUp(smoothed, rates, full, window, capacity)
    ensures var next := Pushed(rates, x, capacity);
      |next| > 0 && KeptUp(Pushed(smoothed, MeanAt(next, window, 0), |next|), next, [x] + full, window, capacity)
  {
    hide MeanAt;
    var next := Pushed(rates, x, capacity);
    var more := [x] + full;
    PushedSamples(rates, full, x, capacity);
    MeanSame(next, 0, more, 0, window);
    forall i | 1 <= i < |next| ensures MeanAt(more, window, i) == smoothed[i - 1] {
      MeanSame(more, i, full, i - 1, window);
    }
    var means := Pushed(smoothed, MeanAt(next, window, 0), |next|);
    assert |means| == |next| && means[0] == MeanAt(more, window, 0);
    assert forall i :: 1 <= i < |next| ==> means[i] == smoothed[i - 1];
  }

  /** The kept list against a rebuild where the rebuild's window is complete, or nothing was discarded. */
  lemma IncrementalAgrees(smoothed: seq<real>, rates: seq<real>, full: seq<real>, window: nat, capacity: nat)
    requires KeptUp(smoothed, rates, full, window, capacity)
    ensures forall i :: 0 <= i && i + window <= |rates| ==> smoothed[i] == MeanAt(rates, window, i)
    ensures |full| == |rates| ==> IsSmoothed(smoothed, rates, window)
  {
    forall i | 0 <= i < |rates| && (i + window <= |rates| || |full| == |rates|)
      ensures smoothed[i] == MeanAt(rates, window, i)
    {
      MeanSame(full, i, rates, i, window);
    }
  }

  lemma {:induction false} RangeSumSplit(rates: seq<real>, i: nat, m: nat, j: nat)
    requires i <= m <= j <= |rates|
    ensures RangeSum(rates, i, j) == RangeSum(rates, i, m) + RangeSum(rates, m, j)
    decreases j
  {
    if m < j {
      RangeSumSplit(rates, i, m, j - 1);
    }
  }

  function Product(x: real, n: nat): real {
    x * n as real
  }

  /** More samples leave a mean unchanged exactly if they have the same mean. */
  lemma MeansEqual(r: real, d: real, a: nat, extra: nat)
    requires a > 0
    ensures (r + d) / (a + extra) as real == r / a as real <==> Product(d, a) == Product(r, extra)
  {
    var x, y := a as real, extra as real;
    var p, q := (r + d) / (x + y), r / x;
    assert p * (x + y) == r + d && q * x == r;
    assert (a + extra) as real == x + y;
    Swap(q, y, x);
    assert r * y == (q * y) * x;
    if p == q {
      assert r + d == q * x + q * y;
      assert d == q * y;
    } else if d * x == r * y {
      Cancel(d, q * y, x);
      assert (p - q) * (x + y) == 0.0;
      Cancel(p, q, x + y);
    }
  }

  lemma Swap(q: real, y: real, x: real)
    ensures (q * y) * x == (q * x) * y
  {
  }

  lemma Cancel(u: real, v: real, x: real)
    requires x > 0.0 && u * x == v * x
    ensures u == v
  {
    assert (u - v) * x == 0.0;
  }

  /** Whether the discarded part of entry `i`'s window has the mean of the retained part. */
  predicate Balanced(rates: seq<real>, full: seq<real>, window: nat, i: nat)
    requires i < |rates| <= WindowEnd(|full|, window, i) <= |full|
  {
    var end := WindowEnd(|full|, window, i);
    Product(RangeSum(full, |rates|, end), |rates| - i) == Product(RangeSum(rates, i, |rates|), end - |rates|)
  }

  /**
   * The exact condition for every entry: it equals a rebuild if and only if its window lies inside the retained
   * samples, or nothing was discarded, or the discarded part of its window has the mean of the retained part.
   */
  lemma IncrementalExact(smoothed: seq<real>, rates: seq<real>, full: seq<real>, window: nat, capacity: nat, i: nat)
    requires KeptUp(smoothed, rates, full, window, capacity) && i < |rates|
    ensures smoothed[i] == MeanAt(rates, window, i)
            <==> i + window <= |rates| || |full| == |rates| || Balanced(rates, full, window, i)
  {
    var n := |rates|;
    if i + window <= n || |full| == n {
      MeanSame(full, i, rates, i, window);
    } else {
      var end := WindowEnd(|full|, window, i);
      RangeSumSplit(full, i, n, end);
      RangeSumSame(full, i, rates, i, n - i);
      MeansEqual(RangeSum(rates, i, n), RangeSum(full, n, end), n - i, end - n);
    }
  }

  // ---- Whole runs of samples ----

  /** Retained rates, kept means and all samples seen. */
  datatype Track = Track(rates: seq<real>, means: seq<real>, full: seq<real>)

  /** The lists of an active page after the given samples, oldest first. */
  function AfterSamples(samples: seq<real>, window: nat, capacity: nat): Track
    requires 0 < window <= capacity
    decreases |samples|
  {
    if samples == [] then Track([], [], [])
    else
      var t := AfterSamples(samples[..|samples| - 1], window, capacity);
      var x := samples[|samples| - 1];
      var next := Pushed(t.rates, x, capacity);
      Track(next, Pushed(t.means, MeanAt(next, window, 0), |next|), [x] + t.full)
  }

  lemma PushedSize(list: seq<real>, x: real, keep: nat)
    ensures |Pushed(list, x, keep)| == Min(|list| + 1, keep)
  {
  }

  /** The newest sample goes in front of a reversed list. */
  lemma Reversed(samples: seq<real>, full: seq<real>)
    requires samples != [] && |full| == |samples| - 1
    requires forall i :: 0 <= i < |full| ==> full[i] == samples[..|samples| - 1][|full| - 1 - i]
    ensures var more := [samples[|samples| - 1]] + full;
      |more| == |samples| && forall i :: 0 <= i < |samples| ==> more[i] == samples[|samples| - 1 - i]
  {
  }

  lemma {:induction false} AfterSamplesKept(samples: seq<real>, window: nat, capacity: nat)
    requires 0 < window <= capacity
    ensures var t := AfterSamples(samples, window, capacity);
      && KeptUp(t.means, t.rates, t.full, window, capacity)
      && |t.rates| == Min(|samples|, capacity) && |t.full| == |samples|
      && forall i :: 0 <= i < |samples| ==> t.full[i] == samples[|samples| - 1 - i]
    decreases |samples|
  {
    if samples != [] {
      hide MeanAt;
      var n := |samples| - 1;
      var t := AfterSamples(samples[..n], window, capacity);
      AfterSamplesKept(samples[..n], window, capacity);
      AppendKeepsUp(t.means, t.rates, t.full, window, capacity, samples[n]);
      PushedSize(t.rates, samples[n], capacity);
      Reversed(samples, t.full);
      hide KeptUp, Pushed;
    }
  }

  lemma SingleSum(rates: seq<real>, i: nat)
    requires i < |rates|
    ensures RangeSum(rates, i, i + 1) == rates[i]
  {
    assert RangeSum(rates, i, i) == 0.0;
  }

  /**
   * The first discarded sample, at every capacity and window: with one sample more than fits, the oldest entry equals
   * a rebuild if and only if the discarded sample equals the oldest retained one.
   */
  lemma DiscardedSampleWeighs(samples: seq<real>, window: nat, capacity: nat)
    requires 2 <= window <= capacity && |samples| == capacity + 1
    ensures var t := AfterSamples(samples, window, capacity);
      && |t.rates| == |t.means| == capacity
      && (t.means[capacity - 1] == MeanAt(t.rates, window, capacity - 1) <==> samples[0] == samples[1])
      && (samples[0] != samples[1] ==> !IsSmoothed(t.means, t.rates, window))
  {
    hide MeanAt, AfterSamples;
    var t := AfterSamples(samples, window, capacity);
    AfterSamplesKept(samples, window, capacity);
    assert t.full[capacity] == samples[0] && t.full[capacity - 1] == samples[1] == t.rates[capacity - 1];
    IncrementalExact(t.means, t.rates, t.full, window, capacity, capacity - 1);
    SingleSum(t.full, capacity);
    SingleSum(t.rates, capacity - 1);
    hide KeptUp, RangeSum;
    assert WindowEnd(capacity + 1, window, capacity - 1) == capacity + 1;
  }

  /** At the source's own sizes: one busy second followed by a day of silence. The entry is beyond those shown. */
  lemma DiscardedSampleWeighsInPractice()
    ensures var samples := [1.0] + seq(MAX_SAMPLES, _ => 0.0);
      var t := AfterSamples(samples, DEFAULT_WINDOW, MAX_SAMPLES); !IsSmoothed(t.means, t.rates, DEFAULT_WINDOW)
  {
    hide IsSmoothed, AfterSamples;
    DiscardedSampleWeighs([1.0] + seq(MAX_SAMPLES, _ => 0.0), DEFAULT_WINDOW, MAX_SAMPLES);
  }

  // ---- What is published ----

  /** Every entry that is shown equals a rebuild. */
  ghost predicate ShownExactly(means: seq<real>, rates: seq<real>, window: nat)
    requires window > 0 && |means| == |rates|
  {
    forall i :: 0 <= i < Min(|means|, window * 10) ==> means[i] == MeanAt(rates, window, i)
  }

  /** With room for eleven windows less one sample the discarded samples never show, in any run. */
  lemma PublishedExact(samples: seq<real>, window: nat, capacity: nat)
    requires 0 < window <= capacity && 11 * window - 1 <= capacity
    ensures var t := AfterSamples(samples, window, capacity);
      |t.means| == |t.rates| && ShownExactly(t.means, t.rates, window)
  {
    hide MeanAt, AfterSamples;
    var t := AfterSamples(samples, window, capacity);
    AfterSamplesKept(samples, window, capacity);
    IncrementalAgrees(t.means, t.rates, t.full, window, capacity);
  }

  lemma {:induction false} SumOfZeros(rates: seq<real>, i: nat, j: nat)
    requires i <= j <= |rates| && forall k :: i <= k < j ==> rates[k] == 0.0
    ensures RangeSum(rates, i, j) == 0.0
    decreases j
  {
    if i < j {
      SumOfZeros(rates, i, j - 1);
    }
  }

  /** With less room they do: one busy sample, then silence until it is discarded, shows at the oldest entry on view. */
  lemma PublishedDiffers(window: nat, capacity: nat)
    requires 2 <= window <= capacity < 11 * window - 1
    ensures var t := AfterSamples([1.0] + seq(capacity, _ => 0.0), window, capacity);
      |t.means| == |t.rates| && !ShownExactly(t.means, t.rates, window)
  {
    hide MeanAt, AfterSamples;
    var samples := [1.0] + seq(capacity, _ => 0.0);
    var t := AfterSamples(samples, window, capacity);
    var i := Min(capacity, window * 10) - 1;
    AfterSamplesKept(samples, window, capacity);
    assert t.full[capacity] == samples[0] == 1.0;
    assert forall k :: 0 <= k < capacity ==> t.full[k] == samples[capacity - k] == 0.0;
    SingleSum(t.full, capacity);
    SumOfZeros(t.rates, i, capacity);
    IncrementalExact(t.means, t.rates, t.full, window, capacity, i);
    hide KeptUp, RangeSum;
    assert WindowEnd(capacity + 1, window, i) == capacity + 1;
    assert Product(1.0, capacity - i) > 0.0 && Product(0.0, 1) == 0.0;
    assert !Balanced(t.rates, t.full, window, i);
  }

  // ---- The worker ----

  function NonNegativeTotal(total: int): nat {
    if total > 0 then total else 0
  }

  function RateDelta(current: nat, previous: nat): real {
    if current >= previous then (current - previous) as real else 0.0
  }

  /** The rates that a series of counter readings gives, newest first. */
  function RatesOf(readings: seq<int>): (r: seq<real>)
    ensures |r| == if readings == [] then 0 else |readings| - 1
  {
    if |readings| <= 1 then []
    else
      var n := |readings| - 1;
      [RateDelta(NonNegativeTotal(readings[n]), NonNegativeTotal(readings[n - 1]))] + RatesOf(readings[..n])
  }

  /** No reading is below an earlier one; readings below zero count as zero. */
  predicate NeverFalls(readings: seq<int>) {
    forall i :: 0 <= i < |readings| - 1 ==> readings[i] <= readings[i + 1] || readings[i] <= 0
  }

  lemma LastReading(readings: seq<int>)
    requires |readings| > 1
    ensures var n := |readings| - 1;
      NeverFalls(readings) <==> NeverFalls(readings[..n]) && (readings[n - 1] <= readings[n] || readings[n - 1] <= 0)
  {
    var n := |readings| - 1;
    assert forall i :: 0 <= i < n ==> readings[..n][i] == readings[i];
  }

  /**
   * Traffic is conserved: the rates never add up to less than the growth of the counter, and to exactly that if and
   * only if the counter never fell.
   */
  lemma {:induction false} TrafficConserved(readings: seq<int>)
    requires readings != []
    ensures var n := |readings| - 1;
      var total := RangeSum(RatesOf(readings), 0, n);
      var growth := (if readings[n] > 0 then readings[n] else 0) - if readings[0] > 0 then readings[0] else 0;
      total >= growth as real && (total == growth as real <==> NeverFalls(readings))
  {
    var n := |readings| - 1;
    if n > 0 {
      TrafficConserved(readings[..n]);
      LastReading(readings);
      var rates := RatesOf(readings);
      RangeSumFront(rates, 0, n);
      RangeSumSame(rates, 1, RatesOf(readings[..n]), 0, n - 1);
      hide RangeSum, NeverFalls;
    }
  }

  /** The peak of the entries that are shown. */
  ghost predicate IsPeak(peak: real, smoothed: seq<real>, window: nat) {
    && peak >= 0.0 && (forall i :: 0 <= i < Min(|smoothed|, window * 10) ==> smoothed[i] <= peak)
    && (peak == 0.0 || exists i :: 0 <= i < Min(|smoothed|, window * 10) && smoothed[i] == peak)
  }

  method CalculateMaxRate(smoothed: seq<real>, window: nat) returns (peak: real)
    ensures IsPeak(peak, smoothed, window)
  {
    var lookback := Min(|smoothed|, window * 10);
    peak := 0.0;
    for i := 0 to lookback
      invariant peak >= 0.0 && forall j :: 0 <= j < i ==> smoothed[j] <= peak
      invariant peak == 0.0 || exists j :: 0 <= j < i && smoothed[j] == peak
    {
      if peak < smoothed[i] {
        peak := smoothed[i];
      }
    }
  }

  /** Puts a value in front and drops from the back down to `keep`. */
  method PushFront(list: seq<real>, x: real, keep: nat) returns (r: seq<real>)
    ensures r == Pushed(list, x, keep)
  {
    r := [x] + list;
    while |r| > keep
      invariant |r| <= |list| + 1 && r == ([x] + list)[..|r|] && (|r| <= keep ==> r == Pushed(list, x, keep))
    {
      r := r[..|r| - 1];
    }
  }

  datatype Snapshot = Silent | Snapshot(
    generation: nat, totalReceived: nat, totalSent: nat, maxReceived: real, maxSent: real,
    received: seq<real>, sent: seq<real>)

  class NetworkTrafficWorker {
    var active: bool
    var hasBaseline: bool
    var valid: bool
    var generation: nat
    var totalReceived: nat
    var totalSent: nat
    var window: nat
    var maxReceived: real
    var maxSent: real
    var received: seq<real>
    var sent: seq<real>
    var smoothedReceived: seq<real>
    var smoothedSent: seq<real>
    ghost var fullReceived: seq<real>
    ghost var fullSent: seq<real>

    /** While the derived history is valid it is kept up; while the page is active it is valid. */
    ghost predicate Valid()
      reads this
    {
      && 0 < window <= MAX_SAMPLES && |received| <= MAX_SAMPLES && |sent| <= MAX_SAMPLES
      && (active ==> valid)
      && (valid ==> KeptUp(smoothedReceived, received, fullReceived, window, MAX_SAMPLES)
                    && KeptUp(smoothedSent, sent, fullSent, window, MAX_SAMPLES)
                    && IsPeak(maxReceived, smoothedReceived, window) && IsPeak(maxSent, smoothedSent, window))
    }

    /** What an active page is shown. */
    ghost predicate Shows(s: Snapshot)
      reads this
    {
      if !active then s == Silent
      else
        s == Snapshot(generation, totalReceived, totalSent, maxReceived, maxSent,
                      smoothedReceived[..Min(|smoothedReceived|, window * 10)],
                      smoothedSent[..Min(|smoothedSent|, window * 10)])
    }

    constructor ()
      ensures Valid() && !active && received == [] && sent == []
    {
      active, hasBaseline, valid, generation := false, false, false, 0;
      totalReceived, totalSent, window, maxReceived, maxSent := 0, 0, DEFAULT_WINDOW, 0.0, 0.0;
      received, sent, smoothedReceived, smoothedSent, fullReceived, fullSent := [], [], [], [], [], [];
    }

    method PublishSnapshot() returns (s: Snapshot)
      ensures Shows(s)
    {
      if !active {
        return Silent;
      }
      s := Snapshot(generation, totalReceived, totalSent, maxReceived, maxSent,
                    smoothedReceived[..Min(|smoothedReceived|, window * 10)],
                    smoothedSent[..Min(|smoothedSent|, window * 10)]);
    }

    method EnsureSmoothedHistory()
      requires 0 < window <= MAX_SAMPLES && |received| <= MAX_SAMPLES && |sent| <= MAX_SAMPLES
      requires valid ==> Valid()
      modifies this`valid, this`maxReceived, this`maxSent, this`smoothedReceived, this`smoothedSent,
               this`fullReceived, this`fullSent
      ensures Valid() && valid
      ensures !old(valid) ==> IsSmoothed(smoothedReceived, received, window) && IsSmoothed(smoothedSent, sent, window)
    {
      if valid {
        return;
      }
      smoothedReceived := CalculateSmoothedHistory(received, window);
      smoothedSent := CalculateSmoothedHistory(sent, window);
      maxReceived := CalculateMaxRate(smoothedReceived, window);
      maxSent := CalculateMaxRate(smoothedSent, window);
      valid := true;
      fullReceived, fullSent := received, sent;
      Rebuilt(smoothedReceived, received, window, MAX_SAMPLES);
      Rebuilt(smoothedSent, sent, window, MAX_SAMPLES);
    }

    method SetActive(on: bool, number: nat) returns (s: Snapshot)
      requires Valid()
      modifies this
      ensures Valid() && active == on && generation == number && Shows(s)
      ensures received == old(received) && sent == old(sent) && window == old(window)
      ensures totalReceived == old(totalReceived) && totalSent == old(totalSent)
    {
      hide KeptUp, IsPeak, IsSmoothed, Min;
      active, generation := on, number;
      if !active {
        valid := false;
        return Silent;
      }
      EnsureSmoothedHistory();
      s := PublishSnapshot();
    }

    method SetFilterWindowSize(size: int) returns (s: Snapshot)
      requires Valid()
      modifies this
      ensures Valid() && window == (if size < 1 then 1 else if size > MAX_SAMPLES then MAX_SAMPLES else size)
      ensures received == old(received) && sent == old(sent) && active == old(active)
      ensures window != old(window) && active ==>
                Shows(s) && IsSmoothed(smoothedReceived, received, window) && IsSmoothed(smoothedSent, sent, window)
    {
      s := Silent;
      var clamped := if size < 1 then 1 else if size > MAX_SAMPLES then MAX_SAMPLES else size;
      if window == clamped {
        return;
      }
      window := clamped;
      valid := false;
      if active {
        EnsureSmoothedHistory();
        s := PublishSnapshot();
      }
    }

    method AppendSmoothedSample(ghost x: real, ghost y: real, ghost was: seq<real>, ghost were: seq<real>)
      requires valid && 0 < window <= MAX_SAMPLES
      requires KeptUp(smoothedReceived, was, fullReceived, window, MAX_SAMPLES)
          && received == Pushed(was, x, MAX_SAMPLES)
      requires KeptUp(smoothedSent, were, fullSent, window, MAX_SAMPLES) && sent == Pushed(were, y, MAX_SAMPLES)
      modifies this`maxReceived, this`maxSent, this`smoothedReceived, this`smoothedSent, this`fullReceived,
          this`fullSent
      ensures Valid()
      ensures fullReceived == [x] + old(fullReceived) && fullSent == [y] + old(fullSent)
    {
      hide KeptUp, MeanAt, IsPeak;
      AppendKeepsUp(smoothedReceived, was, fullReceived, window, MAX_SAMPLES, x);
      AppendKeepsUp(smoothedSent, were, fullSent, window, MAX_SAMPLES, y);
      var mean := CurrentMovingAverage(received, window);
      smoothedReceived := PushFront(smoothedReceived, mean, |received|);
      mean := CurrentMovingAverage(sent, window);
      smoothedSent := PushFront(smoothedSent, mean, |sent|);
      fullReceived, fullSent := [x] + fullReceived, [y] + fullSent;
      maxReceived := CalculateMaxRate(smoothedReceived, window);
      maxSent := CalculateMaxRate(smoothedSent, window);
    }

    /** Retains one pair of rates; an inactive page only drops its derived history. */
    method Record(x: real, y: real)
      requires Valid()
      modifies this`received, this`sent, this`valid, this`maxReceived, this`maxSent, this`smoothedReceived,
               this`smoothedSent, this`fullReceived, this`fullSent
      ensures Valid()
      ensures received == Pushed(old(received), x, MAX_SAMPLES) && sent == Pushed(old(sent), y, MAX_SAMPLES)
      ensures active ==> fullReceived == [x] + old(fullReceived) && fullSent == [y] + old(fullSent)
    {
      hide KeptUp, IsPeak;
      ghost var was, were := received, sent;
      received := PushFront(received, x, MAX_SAMPLES);
      sent := PushFront(sent, y, MAX_SAMPLES);
      if !active {
        valid := false;
        return;
      }
      AppendSmoothedSample(x, y, was, were);
    }

    /** One timer tick. */
    method Sample(bytesReceived: int, bytesSent: int) returns (s: Snapshot)
      requires Valid()
      modifies this
      ensures Valid() && Shows(s) && hasBaseline
      ensures active == old(active) && window == old(window) && generation == old(generation)
      ensures totalReceived == NonNegativeTotal(bytesReceived) && totalSent == NonNegativeTotal(bytesSent)
      ensures old(hasBaseline) ==>
                received == Pushed(old(received), RateDelta(totalReceived, old(totalReceived)), MAX_SAMPLES)
                && sent == Pushed(old(sent), RateDelta(totalSent, old(totalSent)), MAX_SAMPLES)
      ensures !old(hasBaseline) ==> received == old(received) && sent == old(sent)
    {
      hide KeptUp, IsPeak, RateDelta, NonNegativeTotal, Min, Pushed;
      var newReceived, newSent := NonNegativeTotal(bytesReceived), NonNegativeTotal(bytesSent);
      if !hasBaseline {
        hasBaseline := true;
        totalReceived, totalSent := newReceived, newSent;
        s := PublishSnapshot();
        return;
      }
      Record(RateDelta(newReceived, totalReceived), RateDelta(newSent, totalSent));
      totalReceived, totalSent := newReceived, newSent;
      s := PublishSnapshot();
    }
  }
}
