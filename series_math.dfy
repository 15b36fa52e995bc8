/** Shared primitives of the indicator engine: the "undefined" marker that
    stands for a NaN padding entry, sums and means over windows of a price
    series, and the minimum and maximum of a non-empty window. */
module SeriesMath {

  /** A value of an indicator series: `None` where the source writes NaN. */
  datatype Option<+T> = None | Some(value: T)

  /** Subtraction as IEEE arithmetic does it on NaN: undefined minus anything
      (or anything minus undefined) is undefined. */
  function OptSub(a: Option<real>, b: Option<real>): (r: Option<real>)
    ensures r.Some? <==> a.Some? && b.Some?
    ensures r.Some? ==> r.value + b.value == a.value
  {
    if a.Some? && b.Some? then Some(a.value - b.value) else None
  }

  /** `Array(n).fill(NaN)`. */
  function Pad(n: nat): (r: seq<Option<real>>)
    ensures |r| == n
    ensures forall k :: 0 <= k < n ==> r[k] == None
  {
    seq(n, k => None)
  }

  function Max(a: int, b: int): int
  {
    if a < b then b else a
  }

  /** `s.slice(0, n)`: the first n entries, or all of them when there are fewer. */
  function Take(s: seq<real>, n: nat): (r: seq<real>)
    ensures |r| == if n <= |s| then n else |s|
    ensures r <= s
  {
    if n <= |s| then s[..n] else s
  }

  /** The sum of a sequence, accumulated from the front; a sum of
      non-negative entries is non-negative. */
  function Sum(s: seq<real>): (r: real)
    ensures NonNegative(s) ==> 0.0 <= r
  {
    if s == [] then 0.0 else s[0] + Sum(s[1..])
  }

  /** The arithmetic mean of a non-empty sequence; the mean of non-negative
      entries is non-negative. */
  function Mean(s: seq<real>): (r: real)
    requires |s| > 0
    ensures NonNegative(s) ==> 0.0 <= r
  {
    Sum(s) / |s| as real
  }

  /** The sum of squared deviations of the entries of `s` from `m`, which is
      never negative. */
  function SumSqDev(s: seq<real>, m: real): (r: real)
    ensures 0.0 <= r
  {
    if s == [] then 0.0
    else
      var d := s[0] - m;
      assert 0.0 <= d * d;
      d * d + SumSqDev(s[1..], m)
  }

  /** Every entry of `s` equals `v`. */
  predicate Constant(s: seq<real>, v: real)
  {
    forall k :: 0 <= k < |s| ==> s[k] == v
  }

  predicate NonNegative(s: seq<real>)
  {
    forall k :: 0 <= k < |s| ==> 0.0 <= s[k]
  }

  /** `Math.min(...s)` on a non-empty window. */
  function SeqMin(s: seq<real>): (m: real)
    requires |s| > 0
    ensures m in s
    ensures forall k :: 0 <= k < |s| ==> m <= s[k]
  {
    if |s| == 1 then s[0]
    else
      var rest := SeqMin(s[1..]);
      if s[0] <= rest then s[0] else rest
  }

  /** `Math.max(...s)` on a non-empty window. */
  function SeqMax(s: seq<real>): (m: real)
    requires |s| > 0
    ensures m in s
    ensures forall k :: 0 <= k < |s| ==> s[k] <= m
  {
    if |s| == 1 then s[0]
    else
      var rest := SeqMax(s[1..]);
      if rest <= s[0] then s[0] else rest
  }

  /** Entries between `lo` and `hi` sum to between `|s| * lo` and `|s| * hi`. */
  lemma {:induction false} SumBounds(s: seq<real>, lo: real, hi: real)
    requires forall k :: 0 <= k < |s| ==> lo <= s[k] <= hi
    ensures |s| as real * lo <= Sum(s) <= |s| as real * hi
  {
    if s != [] {
      SumBounds(s[1..], lo, hi);
      var n := |s[1..]| as real;
      assert |s| as real * lo == lo + n * lo;
      assert |s| as real * hi == hi + n * hi;
    }
  }

  /** The mean of entries between `lo` and `hi` lies between them. */
  lemma {:induction false} MeanBounds(s: seq<real>, lo: real, hi: real)
    requires |s| > 0
    requires forall k :: 0 <= k < |s| ==> lo <= s[k] <= hi
    ensures lo <= Mean(s) <= hi
  {
    SumBounds(s, lo, hi);
    QuotientBounds(Sum(s), |s| as real, lo, hi);
  }

  /** The mean of the first `n` prices lies within the range of the whole
      series. */
  lemma {:induction false} PrefixMeanInRange(data: seq<real>, n: nat)
    requires 1 <= n <= |data|
    ensures SeqMin(data) <= Mean(data[..n]) <= SeqMax(data)
  {
    var w := data[..n];
    var lo, hi := SeqMin(data), SeqMax(data);
    forall k | 0 <= k < |w| ensures lo <= w[k] <= hi {
      assert w[k] == data[k];
    }
    MeanBounds(w, lo, hi);
  }

  /** A sum between `p * lo` and `p * hi`, divided by a positive `p`, lies
      between `lo` and `hi`. */
  lemma {:induction false} QuotientBounds(sum: real, p: real, lo: real, hi: real)
    requires 0.0 < p && p * lo <= sum <= p * hi
    ensures lo <= sum / p <= hi
  {
    assert sum / p - lo == (sum - p * lo) / p;
    assert hi - sum / p == (p * hi - sum) / p;
  }

  /** The sum of a constant sequence is its length times the constant. */
  lemma {:induction false} SumConstant(s: seq<real>, v: real)
    requires Constant(s, v)
    ensures Sum(s) == |s| as real * v
  {
    if s != [] {
      SumConstant(s[1..], v);
    }
  }

  /** The mean of a constant window is the constant. */
  lemma {:induction false} MeanConstant(s: seq<real>, v: real)
    requires |s| > 0 && Constant(s, v)
    ensures Mean(s) == v
  {
    SumConstant(s, v);
  }

  /** A constant window has no deviation from its constant. */
  lemma {:induction false} SumSqDevConstant(s: seq<real>, v: real)
    requires Constant(s, v)
    ensures SumSqDev(s, v) == 0.0
  {
    if s != [] {
      SumSqDevConstant(s[1..], v);
    }
  }
}
