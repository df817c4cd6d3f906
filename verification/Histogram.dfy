/**
 The latency histogram of metrics.go. Durations are nanoseconds; `sum` is a mathematical
 integer here, and every method is one section of the histogram's mutex.
 */
module Histogram {

  /** Go's integer division, which truncates toward zero. */
  function TruncDiv(a: int, b: int): (q: int)
    requires b > 0
  {
    if a >= 0 then a / b else -(-a / b)
  }

  const MILLISECOND: int := 1_000_000

  /** Bucket bounds in milliseconds: bucket i holds [BOUNDS[i], BOUNDS[i+1]), the last is open. */
  const BOUNDS: seq<int> := [0, 1, 5, 10, 25, 50, 100, 250, 500, 1000]

  function BucketOf(ns: int): (i: nat)
    ensures i < 10
  {
    var ms := TruncDiv(ns, MILLISECOND);
    if ms < 1 then 0 else if ms < 5 then 1 else if ms < 10 then 2 else if ms < 25 then 3 else if ms < 50 then 4
    else if ms < 100 then 5 else if ms < 250 then 6 else if ms < 500 then 7 else if ms < 1000 then 8 else 9
  }

  datatype Summary = Summary(count: int, sum: int, min: int, max: int, buckets: seq<int>)

  const EMPTY: Summary := Summary(0, 0, -1, 0, [0, 0, 0, 0, 0, 0, 0, 0, 0, 0])

  function Add(h: Summary, ns: int): (h': Summary)
    requires |h.buckets| == 10
    ensures |h'.buckets| == 10
  {
    var i := BucketOf(ns);
    Summary(h.count + 1, h.sum + ns,
            if h.min < 0 || ns < h.min then ns else h.min,
            if ns > h.max then ns else h.max,
            h.buckets[i := h.buckets[i] + 1])
  }

  /** What the fields hold after the given samples, starting from an empty histogram. */
  function Summarize(samples: seq<int>): (h: Summary)
    ensures |h.buckets| == 10
  {
    if samples == [] then EMPTY
    else Add(Summarize(samples[..|samples| - 1]), samples[|samples| - 1])
  }

  lemma SummarizeSnoc(samples: seq<int>, ns: int)
    ensures Summarize(samples + [ns]) == Add(Summarize(samples), ns)
  {
    assert (samples + [ns])[..|samples|] == samples;
  }

  datatype LatencyStats = LatencyStats(count: int, min: int, max: int, avg: int, buckets: seq<int>)

  /** The report of `Stats` on given fields. */
  function Report(h: Summary): (r: LatencyStats) {
    if h.count > 0 then LatencyStats(h.count, h.min, h.max, TruncDiv(h.sum, h.count), h.buckets)
    else LatencyStats(h.count, 0, 0, 0, h.buckets)
  }

  class LatencyHistogram {
    var count: int
    var sum: int
    var min: int
    var max: int
    const buckets: array<int>
    ghost var samples: seq<int>

    ghost function Fields(): (h: Summary)
      reads this, buckets
    {
      Summary(count, sum, min, max, buckets[..])
    }

    /** The fields are the summary of the samples since the last reset. */
    ghost predicate Valid()
      reads this, buckets
    {
      buckets.Length == 10 && Fields() == Summarize(samples)
    }

    constructor ()
      ensures Valid() && samples == [] && fresh(buckets)
    {
      count, sum, max := 0, 0, 0;
      min := -1;
      buckets := new int[10](_ => 0);
      samples := [];
      new;
      assert buckets[..] == EMPTY.buckets;
    }

    /** The switch on whole milliseconds. */
    static method FindBucket(ns: int) returns (i: nat)
      ensures i == BucketOf(ns)
    {
      var ms := TruncDiv(ns, MILLISECOND);
      if ms < 1 { i := 0; }
      else if ms < 5 { i := 1; }
      else if ms < 10 { i := 2; }
      else if ms < 25 { i := 3; }
      else if ms < 50 { i := 4; }
      else if ms < 100 { i := 5; }
      else if ms < 250 { i := 6; }
      else if ms < 500 { i := 7; }
      else if ms < 1000 { i := 8; }
      else { i := 9; }
    }

    method Record(ns: int)
      requires Valid()
      modifies this, buckets
      ensures Valid() && samples == old(samples) + [ns]
    {
      hide BucketOf, Summarize;
      count := count + 1;
      sum := sum + ns;
      if min < 0 || ns < min { min := ns; }
      if ns > max { max := ns; }
      var i := FindBucket(ns);
      ghost var before := buckets[..];
      buckets[i] := buckets[i] + 1;
      assert buckets[..] == before[i := before[i] + 1];
      samples := samples + [ns];
      SummarizeSnoc(old(samples), ns);
    }

    /** Reading the statistics; see `StatsAreTrue` for what they say about the samples. */
    method Stats() returns (r: LatencyStats)
      requires Valid()
      ensures r == Report(Summarize(samples))
    {
      if count > 0 {
        r := LatencyStats(count, min, max, TruncDiv(sum, count), buckets[..]);
      } else {
        r := LatencyStats(count, 0, 0, 0, buckets[..]);
      }
    }

    method Reset()
      requires Valid()
      modifies this, buckets
      ensures Valid() && samples == []
    {
      count := 0;
      sum := 0;
      min := -1;
      max := 0;
      for i := 0 to buckets.Length
        invariant count == sum == max == 0 && min == -1
        invariant forall j :: 0 <= j < i ==> buckets[j] == 0
      {
        buckets[i] := 0;
      }
      samples := [];
      assert buckets[..] == EMPTY.buckets;
    }
  }

  /** Nothing recorded, nothing reported. */
  lemma NothingToReport()
    ensures Report(Summarize([])) == LatencyStats(0, 0, 0, 0, [0, 0, 0, 0, 0, 0, 0, 0, 0, 0])
  {
  }

  /** The average of any samples, negative ones too, is their sum divided and cut toward zero. */
  lemma AverageIsCut(samples: seq<int>)
    requires samples != []
    ensures var avg, sum, n := Report(Summarize(samples)).avg, SumSeq(samples), |samples|;
            if sum >= 0 then 0 <= sum - avg * n < n else 0 <= avg * n - sum < n
  {
    BucketsCount(samples, 0);
    SumField(samples);
    hide Summarize, SumSeq, TruncDiv;
    TruncCuts(SumSeq(samples), |samples|);
  }

  lemma TruncCuts(a: int, n: int)
    requires n > 0
    ensures var q := TruncDiv(a, n); if a >= 0 then 0 <= a - q * n < n else 0 <= q * n - a < n
  {
    var m := if a >= 0 then a else -a;
    var d := m / n;
    assert m == d * n + m % n;
    if a < 0 {
      assert TruncDiv(a, n) == -d;
      NegatedProduct(d, n);
    }
  }

  lemma NegatedProduct(a: int, b: int)
    ensures -a * b == -(a * b)
  {
  }

  // ---- Buckets -------------------------------------------------------------

  /** How many samples fall into bucket `i`. */
  function CountIn(samples: seq<int>, i: nat): (n: nat) {
    if samples == [] then 0
    else CountIn(samples[..|samples| - 1], i) + if BucketOf(samples[|samples| - 1]) == i then 1 else 0
  }

  lemma {:induction false} BucketsCount(samples: seq<int>, i: nat)
    requires i < 10
    ensures Summarize(samples).buckets[i] == CountIn(samples, i)
    ensures Summarize(samples).count == |samples|
  {
    if samples != [] {
      BucketsCount(samples[..|samples| - 1], i);
    }
  }

  /** The sample lies between the bounds of bucket `i`. */
  predicate InRange(ns: int, i: nat)
    requires i < 10
  {
    BOUNDS[i] * MILLISECOND <= ns && (i < 9 ==> ns < BOUNDS[i + 1] * MILLISECOND)
  }

  /** For durations the bucket is the one whose range holds the sample. */
  lemma BucketRange(ns: int, i: nat)
    requires ns >= 0 && i < 10
    ensures BucketOf(ns) == i <==> InRange(ns, i)
  {
  }

  /** How many samples lie between the bounds of bucket `i`. */
  function CountWithin(samples: seq<int>, i: nat): (n: nat)
    requires i < 10
  {
    if samples == [] then 0
    else CountWithin(samples[..|samples| - 1], i) + if InRange(samples[|samples| - 1], i) then 1 else 0
  }

  lemma {:induction false} CountsAgree(samples: seq<int>, i: nat)
    requires i < 10 && NonNegative(samples)
    ensures CountIn(samples, i) == CountWithin(samples, i)
  {
    hide BucketOf, InRange;
    if samples != [] {
      var front, last := samples[..|samples| - 1], samples[|samples| - 1];
      assert last in samples;
      BucketRange(last, i);
      forall x | x in front ensures x >= 0 { MembersOfLast(samples, x); }
      CountsAgree(front, i);
    }
  }

  function SumSeq(s: seq<int>): (n: int) {
    if s == [] then 0 else SumSeq(s[..|s| - 1]) + s[|s| - 1]
  }

  lemma {:induction false} SumUpdate(s: seq<int>, i: nat, d: int)
    requires i < |s|
    ensures SumSeq(s[i := s[i] + d]) == SumSeq(s) + d
  {
    var t := s[i := s[i] + d];
    if i == |s| - 1 {
      assert t[..|t| - 1] == s[..|s| - 1];
    } else {
      SumUpdate(s[..|s| - 1], i, d);
      assert t[..|t| - 1] == s[..|s| - 1][i := s[i] + d];
    }
  }

  /** The buckets partition the samples. */
  lemma {:induction false} BucketsSum(samples: seq<int>)
    ensures SumSeq(Summarize(samples).buckets) == Summarize(samples).count == |samples|
  {
    if samples == [] {
      ZerosSum(10);
      assert EMPTY.buckets == seq(10, _ => 0);
    } else {
      var front := samples[..|samples| - 1];
      BucketsSum(front);
      SumUpdate(Summarize(front).buckets, BucketOf(samples[|samples| - 1]), 1);
    }
  }

  lemma {:induction false} ZerosSum(n: nat)
    ensures SumSeq(seq(n, _ => 0)) == 0
  {
    if n > 0 {
      assert seq(n, _ => 0)[..n - 1] == seq(n - 1, _ => 0);
      ZerosSum(n - 1);
    }
  }

  // ---- Extremes ------------------------------------------------------------

  ghost predicate IsMin(samples: seq<int>, m: int) {
    m in samples && forall x :: x in samples ==> m <= x
  }

  ghost predicate IsMax(samples: seq<int>, m: int) {
    m in samples && forall x :: x in samples ==> x <= m
  }

  predicate NonNegative(samples: seq<int>) {
    forall x :: x in samples ==> x >= 0
  }

  lemma MembersOfLast(samples: seq<int>, x: int)
    requires samples != []
    ensures x in samples <==> x in samples[..|samples| - 1] || x == samples[|samples| - 1]
  {
    assert samples == samples[..|samples| - 1] + [samples[|samples| - 1]];
  }

  /** A negative minimum counts as "none yet", so it is overwritten by whatever comes next. */
  lemma {:induction false} MinField(samples: seq<int>)
    requires samples != []
    ensures var m, last := Summarize(samples).min, samples[|samples| - 1];
            && (last < 0 ==> m == last) && (last >= 0 ==> m >= 0)
            && (NonNegative(samples) ==> IsMin(samples, m))
  {
    var front := samples[..|samples| - 1];
    forall x ensures x in samples <==> x in front || x == samples[|samples| - 1] { MembersOfLast(samples, x); }
    if front != [] {
      MinField(front);
    }
  }

  /** The minimum is true exactly without negative samples, or when the last one is both negative and least. */
  lemma MinIsTrue(samples: seq<int>)
    requires samples != []
    ensures IsMin(samples, Summarize(samples).min)
            <==> NonNegative(samples) || (samples[|samples| - 1] < 0 && IsMin(samples, samples[|samples| - 1]))
  {
    MinField(samples);
  }

  lemma {:induction false} MaxField(samples: seq<int>)
    ensures var m := Summarize(samples).max;
            m >= 0 && (m == 0 || m in samples) && forall x :: x in samples ==> x <= m
  {
    if samples != [] {
      var front := samples[..|samples| - 1];
      forall x ensures x in samples <==> x in front || x == samples[|samples| - 1] { MembersOfLast(samples, x); }
      MaxField(front);
    }
  }

  /** The maximum starts at zero, so it is true exactly when some sample is not negative. */
  lemma MaxIsTrue(samples: seq<int>)
    ensures IsMax(samples, Summarize(samples).max) <==> exists x :: x in samples && x >= 0
  {
    MaxField(samples);
  }

  /** A clock that runs backwards: the true minimum -5 is forgotten. */
  lemma NegativeSampleIsForgotten()
    ensures Summarize([-5, 3]).min == 3 && !IsMin([-5, 3], 3)
  {
    assert [-5, 3][..1] == [-5] && [-5][..0] == [];
    assert -5 in [-5, 3];
  }

  // ---- The average ---------------------------------------------------------

  lemma {:induction false} SumField(samples: seq<int>)
    ensures Summarize(samples).sum == SumSeq(samples)
  {
    if samples != [] {
      SumField(samples[..|samples| - 1]);
    }
  }

  lemma MulSucc(a: int, k: int)
    ensures a * (k + 1) == a * k + a
  {
  }

  lemma {:induction false} SumBounds(s: seq<int>, lo: int, hi: int)
    requires forall x :: x in s ==> lo <= x <= hi
    ensures lo * |s| <= SumSeq(s) <= hi * |s|
  {
    if s != [] {
      var front, last := s[..|s| - 1], s[|s| - 1];
      assert last in s;
      forall x | x in front ensures lo <= x <= hi { MembersOfLast(s, x); }
      SumBounds(front, lo, hi);
      MulSucc(lo, |front|);
      MulSucc(hi, |front|);
      assert |s| == |front| + 1;
    }
  }

  lemma MulCancel(a: int, b: int, n: int)
    requires n > 0 && a * n < b * n
    ensures a < b
  {
    assert 0 < (b - a) * n;
  }

  lemma QuotientBounds(sum: int, n: int, lo: int, hi: int)
    requires n > 0 && 0 <= sum && lo * n <= sum <= hi * n
    ensures lo <= sum / n <= hi
  {
    var q := sum / n;
    assert sum == q * n + sum % n;
    MulSucc(n, q);
    MulSucc(n, hi);
    MulCancel(lo, q + 1, n);
    MulCancel(q, hi + 1, n);
  }

  /** The fields of a non-empty list of durations, one by one. */
  lemma CountsAreTrue(samples: seq<int>)
    requires NonNegative(samples)
    ensures var h := Summarize(samples);
            && h.count == |samples| == SumSeq(h.buckets)
            && forall i :: 0 <= i < 10 ==> h.buckets[i] == CountWithin(samples, i)
  {
    hide Summarize, CountIn, CountWithin, NonNegative;
    forall i | 0 <= i < 10 ensures Summarize(samples).buckets[i] == CountWithin(samples, i) {
      BucketsCount(samples, i);
      CountsAgree(samples, i);
    }
    BucketsSum(samples);
  }

  lemma ExtremesAreTrue(samples: seq<int>)
    requires samples != [] && NonNegative(samples)
    ensures IsMin(samples, Summarize(samples).min) && IsMax(samples, Summarize(samples).max)
  {
    hide Summarize;
    MinIsTrue(samples);
    assert samples[0] in samples && samples[0] >= 0;
    MaxIsTrue(samples);
  }

  lemma AverageIsBetween(samples: seq<int>, lo: int, hi: int)
    requires samples != [] && NonNegative(samples) && IsMin(samples, lo) && IsMax(samples, hi)
    ensures 0 <= SumSeq(samples) && lo <= SumSeq(samples) / |samples| <= hi
  {
    hide SumSeq;
    SumBounds(samples, lo, hi);
    SumBounds(samples, 0, hi);
    QuotientBounds(SumSeq(samples), |samples|, lo, hi);
  }

  /**
   On any non-empty list of durations the report is right: the count, the number of samples
   between each bucket's bounds, the true extremes, and an average between them.
   */
  lemma StatsAreTrue(samples: seq<int>)
    requires samples != [] && NonNegative(samples)
    ensures var r := Report(Summarize(samples));
            && r.count == |samples| == SumSeq(r.buckets)
            && (forall i :: 0 <= i < 10 ==> r.buckets[i] == CountWithin(samples, i))
            && IsMin(samples, r.min) && IsMax(samples, r.max)
            && r.min <= r.avg <= r.max && r.avg == SumSeq(samples) / |samples|
  {
    hide Summarize, SumSeq, CountWithin, IsMin, IsMax, NonNegative;
    var h := Summarize(samples);
    CountsAreTrue(samples);
    ExtremesAreTrue(samples);
    SumField(samples);
    AverageIsBetween(samples, h.min, h.max);
  }
}
