/** The descriptive statistics reported for each team's weekly scores: mean, median, sample variance,
    maximum and minimum, computed exactly over the reals. */
module Statistics {

  /** What is reported for one team. `variance` stands for the sample standard deviation, which is
      its square root. */
  datatype TeamStats = TeamStats(
    mean: real,
    median: real,
    variance: real,
    scores: seq<real>,
    maximum: real,
    minimum: real)

  function Sum(s: seq<real>): real
  {
    if s == [] then 0.0 else s[0] + Sum(s[1..])
  }

  /** The largest score; the first of equal largest ones does not matter for a value. */
  function Maximum(s: seq<real>): (m: real)
    requires |s| > 0
    ensures m in s
    ensures forall i :: 0 <= i < |s| ==> s[i] <= m
  {
    if |s| == 1 then s[0]
    else
      var rest := Maximum(s[1..]);
      if s[0] >= rest then s[0] else rest
  }

  function Minimum(s: seq<real>): (m: real)
    requires |s| > 0
    ensures m in s
    ensures forall i :: 0 <= i < |s| ==> m <= s[i]
  {
    if |s| == 1 then s[0]
    else
      var rest := Minimum(s[1..]);
      if s[0] <= rest then s[0] else rest
  }

  /** The arithmetic mean. */
  function Mean(s: seq<real>): real
    requires |s| > 0
  {
    Sum(s) / |s| as real
  }

  predicate Ascending(s: seq<real>)
  {
    forall i, j :: 0 <= i < j < |s| ==> s[i] <= s[j]
  }

  /** `x` placed into an ascending sequence. */
  function Insert(x: real, s: seq<real>): seq<real>
  {
    if s == [] || x <= s[0] then [x] + s else [s[0]] + Insert(x, s[1..])
  }

  lemma {:induction false} InsertPermutes(x: real, s: seq<real>)
    ensures multiset(Insert(x, s)) == multiset(s) + multiset{x}
  {
    if s != [] && x > s[0] {
      InsertPermutes(x, s[1..]);
      assert s == [s[0]] + s[1..];
    }
  }

  /** Inserting a value no smaller than a bound keeps every element above the bound. */
  lemma {:induction false} InsertAbove(x: real, s: seq<real>, b: real)
    requires b <= x
    requires forall k :: 0 <= k < |s| ==> b <= s[k]
    ensures forall k :: 0 <= k < |Insert(x, s)| ==> b <= Insert(x, s)[k]
  {
    if s != [] && x > s[0] {
      InsertAbove(x, s[1..], b);
    }
  }

  lemma {:induction false} InsertKeepsOrder(x: real, s: seq<real>)
    requires Ascending(s)
    ensures Ascending(Insert(x, s))
  {
    if s != [] && x > s[0] {
      var tail := Insert(x, s[1..]);
      InsertKeepsOrder(x, s[1..]);
      InsertAbove(x, s[1..], s[0]);
      var r := [s[0]] + tail;
      forall i, j | 0 <= i < j < |r|
        ensures r[i] <= r[j]
      {
        if i > 0 {
          assert r[i] == tail[i - 1] && r[j] == tail[j - 1];
        }
      }
    }
  }

  /** The scores in ascending order, as `sorted` gives them. */
  function Sort(s: seq<real>): (r: seq<real>)
    ensures Ascending(r)
    ensures multiset(r) == multiset(s)
  {
    if s == [] then []
    else
      assert s == [s[0]] + s[1..];
      InsertKeepsOrder(s[0], Sort(s[1..]));
      InsertPermutes(s[0], Sort(s[1..]));
      Insert(s[0], Sort(s[1..]))
  }

  /** The middle score, or the mean of the two middle scores when their number is even. */
  function Median(s: seq<real>): real
    requires |s| > 0
  {
    var t := Sort(s);
    var n := |t|;
    if n % 2 == 1 then t[n / 2] else (t[n / 2 - 1] + t[n / 2]) / 2.0
  }

  /** The sum of squared distances of the scores from `c`. */
  function SquaredDeviations(s: seq<real>, c: real): real
  {
    if s == [] then 0.0 else (s[0] - c) * (s[0] - c) + SquaredDeviations(s[1..], c)
  }

  /** The sample variance (divisor `n - 1`): the square of what `stdev` reports. */
  function SampleVariance(s: seq<real>): real
    requires |s| >= 2
  {
    SquaredDeviations(s, Mean(s)) / (|s| - 1) as real
  }

  /** The statistics reported for one team's scores: they bracket each other as the names say,
      and the score list is handed through unchanged. */
  function Summary(s: seq<real>): (r: TeamStats)
    requires |s| >= 2
    ensures r.scores == s
    ensures r.minimum in s && r.maximum in s
    ensures forall i :: 0 <= i < |s| ==> r.minimum <= s[i] <= r.maximum
    ensures r.minimum <= r.mean <= r.maximum
    ensures r.minimum <= r.median <= r.maximum
    ensures r.variance >= 0.0
  {
    MeanBounds(s);
    MedianBounds(s);
    VarianceNonNegative(s);
    TeamStats(Mean(s), Median(s), SampleVariance(s), s, Maximum(s), Minimum(s))
  }

  lemma {:induction false} SumBounds(s: seq<real>, lo: real, hi: real)
    requires forall i :: 0 <= i < |s| ==> lo <= s[i] <= hi
    ensures |s| as real * lo <= Sum(s) <= |s| as real * hi
  {
    if s != [] {
      SumBounds(s[1..], lo, hi);
    }
  }

  lemma QuotientBounds(total: real, n: real, lo: real, hi: real)
    requires n > 0.0
    requires n * lo <= total <= n * hi
    ensures lo <= total / n <= hi
  {
    assert (total / n) * n == total;
  }

  lemma MeanBetween(s: seq<real>, lo: real, hi: real)
    requires |s| > 0
    requires |s| as real * lo <= Sum(s) <= |s| as real * hi
    ensures lo <= Mean(s) <= hi
  {
    QuotientBounds(Sum(s), |s| as real, lo, hi);
  }

  /** The mean lies between the smallest and the largest score. */
  lemma MeanBounds(s: seq<real>)
    requires |s| > 0
    ensures Minimum(s) <= Mean(s) <= Maximum(s)
  {
    var lo, hi := Minimum(s), Maximum(s);
    assert |s| as real * lo <= Sum(s) <= |s| as real * hi by {
      SumBounds(s, lo, hi);
    }
    MeanBetween(s, lo, hi);
  }

  /** The median is one of the scores or the mean of two of them, so it lies between the smallest
      and the largest score. */
  lemma MedianBounds(s: seq<real>)
    requires |s| > 0
    ensures Minimum(s) <= Median(s) <= Maximum(s)
  {
    var t := Sort(s);
    var n := |t|;
    var lo, hi := Minimum(s), Maximum(s);
    SortedWithin(s);
    assert n == |s| by {
      assert |multiset(t)| == |multiset(s)|;
    }
    if n % 2 == 1 {
      assert lo <= t[n / 2] <= hi;
    } else {
      assert lo <= t[n / 2 - 1] <= hi;
      assert lo <= t[n / 2] <= hi;
    }
  }

  /** Sorting keeps every score between the smallest and the largest. */
  lemma SortedWithin(s: seq<real>)
    requires |s| > 0
    ensures forall k :: 0 <= k < |Sort(s)| ==> Minimum(s) <= Sort(s)[k] <= Maximum(s)
  {
    var t := Sort(s);
    forall k | 0 <= k < |t|
      ensures Minimum(s) <= t[k] <= Maximum(s)
    {
      assert t[k] in multiset(t);
      assert t[k] in multiset(s);
      var j :| 0 <= j < |s| && s[j] == t[k];
    }
  }

  lemma {:induction false} SquaredDeviationsNonNegative(s: seq<real>, c: real)
    ensures SquaredDeviations(s, c) >= 0.0
  {
    if s != [] {
      SquaredDeviationsNonNegative(s[1..], c);
      assert (s[0] - c) * (s[0] - c) >= 0.0;
    }
  }

  lemma VarianceNonNegative(s: seq<real>)
    requires |s| >= 2
    ensures SampleVariance(s) >= 0.0
  {
    SquaredDeviationsNonNegative(s, Mean(s));
    QuotientBounds(SquaredDeviations(s, Mean(s)), (|s| - 1) as real, 0.0, SquaredDeviations(s, Mean(s)));
  }
}
