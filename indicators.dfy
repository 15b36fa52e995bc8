/** The technical-indicator engine. Each `Calculate…` method builds its result
    the way the source does, with loops that push onto a list and a NaN
    (here `None`) padding in front, and is proved equal to a declarative
    `…Series` function; the lemmas after each pair state what the series
    means. Prices are exact reals. */
module Indicators {
  import opened SeriesMath

  type Series = seq<Option<real>>

  datatype Bands = Bands(upper: Series, middle: Series, lower: Series)

  datatype MacdResult = MacdResult(macd: Series, signal: Series, histogram: Series)

  datatype Envelope = Envelope(support: Series, resistance: Series)

  // ---------------------------------------------------------------------------
  // Simple moving average

  /** The mean of the `period` prices ending at index `i`, inclusive. */
  function SmaAt(data: seq<real>, period: nat, i: nat): real
    requires 1 <= period <= i + 1 && i < |data|
  {
    Mean(data[i + 1 - period..i + 1])
  }

  /** The SMA series: `period - 1` undefined entries, then one mean per index.
      When the series is shorter than `period - 1`, the padding alone is longer
      than the input, as in the source. */
  function SmaSeries(data: seq<real>, period: nat): (r: Series)
    requires period >= 1
    ensures |r| == Max(|data|, period - 1)
  {
    var n := Max(|data|, period - 1);
    seq(n, i requires 0 <= i < n =>
      if i < period - 1 then None else Some(SmaAt(data, period, i)))
  }

  /** The inner loop of the SMA: the `period` prices ending at index `i`,
      summed from `data[i]` backwards. */
  method WindowSum(data: seq<real>, period: nat, i: nat) returns (sum: real)
    requires 1 <= period <= i + 1 && i < |data|
    ensures sum == Sum(data[i + 1 - period..i + 1])
  {
    sum := 0.0;
    var j := 0;
    while j < period
      invariant 0 <= j <= period
      invariant sum == Sum(data[i + 1 - j..i + 1])
    {
      assert data[i - j..i + 1][1..] == data[i + 1 - j..i + 1];
      sum := sum + data[i - j];
      j := j + 1;
    }
  }

  /** The outer loop of the SMA: one window mean per index from `period - 1`. */
  method WindowMeans(data: seq<real>, period: nat) returns (result: Series)
    requires period >= 1
    ensures |result| == Max(|data|, period - 1) - (period - 1)
    ensures forall k :: 0 <= k < |result| ==> result[k] == Some(SmaAt(data, period, k + period - 1))
  {
    result := [];
    var i := period - 1;
    while i < |data|
      invariant period - 1 <= i <= Max(|data|, period - 1)
      invariant |result| == i - (period - 1)
      invariant forall k :: 0 <= k < |result| ==> result[k] == Some(SmaAt(data, period, k + period - 1))
    {
      var sum := WindowSum(data, period, i);
      result := result + [Some(sum / period as real)];
      i := i + 1;
    }
  }

  method CalculateSma(data: seq<real>, period: nat) returns (r: Series)
    requires period >= 1
    ensures r == SmaSeries(data, period)
  {
    var result := WindowMeans(data, period);
    r := Pad(period - 1) + result;
    forall k | 0 <= k < |r| ensures r[k] == SmaSeries(data, period)[k] {
      if k >= period - 1 {
        assert r[k] == result[k - (period - 1)];
      }
    }
  }

  /** For a period the data can fill, the SMA is aligned with the input, its
      first `period - 1` entries are undefined, and every later entry is the
      mean of the window of `period` prices ending there. */
  lemma {:induction false} SmaShape(data: seq<real>, period: nat)
    requires 1 <= period <= |data|
    ensures |SmaSeries(data, period)| == |data|
    ensures forall i :: 0 <= i < period - 1 ==> SmaSeries(data, period)[i] == None
    ensures forall i :: period - 1 <= i < |data| ==>
      SmaSeries(data, period)[i] == Some(Mean(data[i + 1 - period..i + 1]))
  {
  }

  /** On a constant series every defined SMA value is the constant. */
  lemma {:induction false} SmaConstant(data: seq<real>, period: nat, v: real)
    requires period >= 1 && Constant(data, v)
    ensures forall i :: 0 <= i < |SmaSeries(data, period)| && SmaSeries(data, period)[i].Some? ==>
      SmaSeries(data, period)[i].value == v
  {
    forall i | 0 <= i < |SmaSeries(data, period)| && SmaSeries(data, period)[i].Some?
      ensures SmaSeries(data, period)[i].value == v
    {
      MeanConstant(data[i + 1 - period..i + 1], v);
    }
  }

  // ---------------------------------------------------------------------------
  // Exponential moving average

  /** The smoothing constant `2 / (period + 1)`. */
  function Multiplier(period: nat): (m: real)
    ensures 0.0 < m <= 1.0 || period == 0
  {
    2.0 / (period as real + 1.0)
  }

  /** `data.slice(0, period).reduce(+) / period`: the seed of the EMA. It is the
      simple mean of the first `period` prices when there are that many, and
      it is never negative when no price is. */
  function EmaSeed(data: seq<real>, period: nat): (seed: real)
    requires period >= 1
    ensures period <= |data| ==> seed == Mean(data[..period])
    ensures NonNegative(data) ==> 0.0 <= seed
  {
    assert period <= |data| ==> Take(data, period) == data[..period];
    assert NonNegative(data) ==> NonNegative(Take(data, period));
    Sum(Take(data, period)) / period as real
  }

  /** A step `(x - prev) * m + prev` with `0 < m <= 1` stays between any bounds
      that hold for both `prev` and `x`. */
  lemma {:induction false} StepBetween(prev: real, x: real, m: real, lo: real, hi: real)
    requires lo <= prev <= hi && lo <= x <= hi && 0.0 < m <= 1.0
    ensures lo <= (x - prev) * m + prev <= hi
  {
    var r := (x - prev) * m + prev;
    assert r - lo == m * (x - lo) + (1.0 - m) * (prev - lo);
    assert hi - r == m * (hi - x) + (1.0 - m) * (hi - prev);
    ProductNonNegative(m, x - lo);
    ProductNonNegative(1.0 - m, prev - lo);
    ProductNonNegative(m, hi - x);
    ProductNonNegative(1.0 - m, hi - prev);
  }

  lemma {:induction false} ProductNonNegative(a: real, b: real)
    requires 0.0 <= a && 0.0 <= b
    ensures 0.0 <= a * b
  {
  }

  /** The EMA value at index `i`: the seed at `period - 1`, then the
      recurrence. Non-negative prices give a non-negative average. */
  function EmaAt(data: seq<real>, period: nat, i: nat): (e: real)
    requires 1 <= period <= i + 1
    requires i == period - 1 || i < |data|
    ensures NonNegative(data) ==> 0.0 <= e
    decreases i
  {
    if i == period - 1 then EmaSeed(data, period)
    else
      var prev := EmaAt(data, period, i - 1);
      var m := Multiplier(period);
      StepNonNegative(prev, data[i], m);
      (data[i] - prev) * m + prev
  }

  /** A step `(x - prev) * m + prev` with `0 < m <= 1` keeps non-negative
      values non-negative. */
  lemma {:induction false} StepNonNegative(prev: real, x: real, m: real)
    ensures 0.0 <= prev && 0.0 <= x && 0.0 < m <= 1.0 ==> 0.0 <= (x - prev) * m + prev
  {
    if 0.0 <= prev && 0.0 <= x && 0.0 < m <= 1.0 {
      StepBetween(prev, x, m, 0.0, if prev < x then x else prev);
    }
  }

  /** The EMA series: `period - 1` undefined entries, then the seed and one
      value per later price. A series shorter than `period` still gets the seed,
      so the result is then longer than the input, as in the source. */
  function EmaSeries(data: seq<real>, period: nat): (r: Series)
    requires period >= 1
    ensures |r| == Max(|data|, period)
  {
    var n := Max(|data|, period);
    seq(n, i requires 0 <= i < n =>
      if i < period - 1 then None else Some(EmaAt(data, period, i)))
  }

  method CalculateEma(data: seq<real>, period: nat) returns (r: Series)
    requires period >= 1
    ensures r == EmaSeries(data, period)
  {
    var result: Series := [];
    var multiplier := 2.0 / (period as real + 1.0);
    var ema := Sum(Take(data, period)) / period as real;
    result := result + [Some(ema)];
    var i := period;
    while i < |data|
      invariant period <= i <= Max(|data|, period)
      invariant |result| == i - period + 1
      invariant ema == EmaAt(data, period, i - 1)
      invariant forall k :: 0 <= k < |result| ==> result[k] == Some(EmaAt(data, period, k + period - 1))
    {
      ema := (data[i] - ema) * multiplier + ema;
      result := result + [Some(ema)];
      i := i + 1;
    }
    r := Pad(period - 1) + result;
  }

  /** For a period the data can fill, the EMA is aligned with the input, its
      first `period - 1` entries are undefined, the entry at `period - 1` is the
      simple mean of the first `period` prices, and each later entry follows
      `e[i] = (data[i] - e[i-1]) * 2/(period+1) + e[i-1]`. */
  lemma {:induction false} EmaShape(data: seq<real>, period: nat)
    requires 1 <= period <= |data|
    ensures |EmaSeries(data, period)| == |data|
    ensures forall i :: 0 <= i < period - 1 ==> EmaSeries(data, period)[i] == None
    ensures EmaSeries(data, period)[period - 1] == Some(Mean(data[..period]))
    ensures forall i {:trigger EmaSeries(data, period)[i]} :: period <= i < |data| ==>
      EmaSeries(data, period)[i].Some? && EmaSeries(data, period)[i - 1].Some? &&
      EmaSeries(data, period)[i].value ==
        (data[i] - EmaSeries(data, period)[i - 1].value) * Multiplier(period)
        + EmaSeries(data, period)[i - 1].value
  {
    assert Take(data, period) == data[..period];
    forall i {:trigger EmaSeries(data, period)[i]} | period <= i < |data|
      ensures EmaSeries(data, period)[i].Some? && EmaSeries(data, period)[i - 1].Some? &&
        EmaSeries(data, period)[i].value ==
          (data[i] - EmaSeries(data, period)[i - 1].value) * Multiplier(period)
          + EmaSeries(data, period)[i - 1].value
    {
      EmaStep(data, period, i);
    }
  }

  /** One step of the recurrence, read off the series at index `i`. */
  lemma {:induction false} EmaStep(data: seq<real>, period: nat, i: nat)
    requires 1 <= period <= i < |data|
    ensures EmaSeries(data, period)[i] == Some(EmaAt(data, period, i))
    ensures EmaSeries(data, period)[i - 1] == Some(EmaAt(data, period, i - 1))
    ensures EmaAt(data, period, i) == (data[i] - EmaAt(data, period, i - 1)) * Multiplier(period) + EmaAt(data, period, i - 1)
  {
  }

  /** Exactly the indices from `period - 1` on carry an EMA value. */
  lemma {:induction false} EmaDefined(data: seq<real>, period: nat, i: nat)
    requires period >= 1 && i < Max(|data|, period)
    ensures EmaSeries(data, period)[i].Some? <==> i >= period - 1
  {
  }

  /** Inside the data every EMA value lies within the range of the prices:
      the seed is a mean of prices, and each step moves the average part of
      the way towards the next price. */
  lemma {:induction false} EmaInRange(data: seq<real>, period: nat, i: nat)
    requires 1 <= period <= i + 1 && i < |data|
    ensures SeqMin(data) <= EmaAt(data, period, i) <= SeqMax(data)
    decreases i
  {
    if i > period - 1 {
      EmaInRange(data, period, i - 1);
      EmaStepBetween(data, period, i, SeqMin(data), SeqMax(data));
    } else {
      PrefixMeanInRange(data, period);
    }
  }

  /** One step of the recurrence keeps the EMA within any bounds that hold for
      the previous value and the new price. */
  lemma {:induction false} EmaStepBetween(data: seq<real>, period: nat, i: nat, lo: real, hi: real)
    requires 1 <= period <= i < |data|
    requires lo <= EmaAt(data, period, i - 1) <= hi && lo <= data[i] <= hi
    ensures lo <= EmaAt(data, period, i) <= hi
  {
    var prev := EmaAt(data, period, i - 1);
    var m := Multiplier(period);
    assert EmaAt(data, period, i) == (data[i] - prev) * m + prev;
    StepBetween(prev, data[i], m, lo, hi);
  }

  /** On a constant series the EMA recurrence stays at the constant, from the
      seed on, at every index that lies inside the data. */
  lemma {:induction false} EmaAtConstant(data: seq<real>, period: nat, i: nat, v: real)
    requires 1 <= period <= i + 1 && i < |data|
    requires Constant(data, v)
    ensures EmaAt(data, period, i) == v
    decreases i
  {
    if i == period - 1 {
      MeanConstant(data[..period], v);
    } else {
      EmaAtConstant(data, period, i - 1, v);
    }
  }

  /** Every defined EMA value of a constant series that lies inside the data
      equals the constant. */
  lemma {:induction false} EmaConstant(data: seq<real>, period: nat, v: real)
    requires period >= 1 && Constant(data, v)
    ensures forall i :: 0 <= i < |data| && EmaSeries(data, period)[i].Some? ==>
      EmaSeries(data, period)[i].value == v
  {
    forall i | 0 <= i < |data| && EmaSeries(data, period)[i].Some?
      ensures EmaSeries(data, period)[i].value == v
    {
      EmaAtConstant(data, period, i, v);
    }
  }

  /** An EMA of an all-zero series is zero everywhere it is defined, even where
      the seed is taken from fewer than `period` entries. */
  lemma {:induction false} EmaAtZero(data: seq<real>, period: nat, i: nat)
    requires 1 <= period <= i + 1 && (i == period - 1 || i < |data|)
    requires Constant(data, 0.0)
    ensures EmaAt(data, period, i) == 0.0
    decreases i
  {
    if i == period - 1 {
      SumConstant(Take(data, period), 0.0);
    } else {
      EmaAtZero(data, period, i - 1);
    }
  }

  // ---------------------------------------------------------------------------
  // Bollinger Bands

  /** What the model relies on about `Math.sqrt`: the root of zero is zero and
      the root of a non-negative number is non-negative. */
  ghost predicate SqrtLaw(sqrt: real -> real)
  {
    sqrt(0.0) == 0.0 && forall x :: 0.0 <= x ==> 0.0 <= sqrt(x)
  }

  /** The population variance of the SMA window ending at `i`, taken around the
      already computed SMA value. */
  function VarianceAt(data: seq<real>, period: nat, i: nat): (v: real)
    requires 1 <= period <= i + 1 && i < |data|
    ensures 0.0 <= v
  {
    SumSqDev(data[i + 1 - period..i + 1], SmaAt(data, period, i)) / period as real
  }

  /** The standard deviation: the root of the variance, never negative for a
      square root that keeps non-negative numbers non-negative. */
  function StdDevAt(data: seq<real>, period: nat, i: nat, sqrt: real -> real): (sd: real)
    requires 1 <= period <= i + 1 && i < |data|
    ensures SqrtLaw(sqrt) ==> 0.0 <= sd
  {
    sqrt(VarianceAt(data, period, i))
  }

  /** The upper band at a defined index: `deviation` standard deviations above the SMA. */
  function UpperAt(data: seq<real>, period: nat, i: nat, deviation: real, sqrt: real -> real): real
    requires 1 <= period <= i + 1 && i < |data|
  {
    SmaAt(data, period, i) + deviation * StdDevAt(data, period, i, sqrt)
  }

  /** The lower band at a defined index: `deviation` standard deviations below the SMA. */
  function LowerAt(data: seq<real>, period: nat, i: nat, deviation: real, sqrt: real -> real): real
    requires 1 <= period <= i + 1 && i < |data|
  {
    SmaAt(data, period, i) - deviation * StdDevAt(data, period, i, sqrt)
  }

  /** The three bands: the SMA, and the SMA plus and minus `deviation` standard
      deviations, all with the SMA's undefined prefix. */
  function BollingerSeries(data: seq<real>, period: nat, deviation: real, sqrt: real -> real): (b: Bands)
    requires period >= 1
    ensures |b.upper| == |b.middle| == |b.lower| == Max(|data|, period - 1)
  {
    var n := Max(|data|, period - 1);
    Bands(
      seq(n, i requires 0 <= i < n =>
        if i < period - 1 then None else Some(UpperAt(data, period, i, deviation, sqrt))),
      SmaSeries(data, period),
      seq(n, i requires 0 <= i < n =>
        if i < period - 1 then None else Some(LowerAt(data, period, i, deviation, sqrt))))
  }

  /** The inner loop of the bands: the squared deviations from `mean` of the
      `period` prices ending at index `i`, summed from `data[i]` backwards. */
  method SquaredDeviationSum(data: seq<real>, period: nat, i: nat, mean: real) returns (sum: real)
    requires 1 <= period <= i + 1 && i < |data|
    ensures sum == SumSqDev(data[i + 1 - period..i + 1], mean)
  {
    sum := 0.0;
    var j := 0;
    while j < period
      invariant 0 <= j <= period
      invariant sum == SumSqDev(data[i + 1 - j..i + 1], mean)
    {
      assert data[i - j..i + 1][1..] == data[i + 1 - j..i + 1];
      sum := sum + (data[i - j] - mean) * (data[i - j] - mean);
      j := j + 1;
    }
  }

  /** The body of the band loop at a defined index `i`: the standard deviation
      of the window around the SMA value `mean`, and the two bands. */
  method BandPoint(data: seq<real>, period: nat, i: nat, deviation: real, sqrt: real -> real, mean: real)
    returns (up: real, low: real)
    requires 1 <= period <= i + 1 && i < |data|
    requires mean == SmaAt(data, period, i)
    ensures up == UpperAt(data, period, i, deviation, sqrt)
    ensures low == LowerAt(data, period, i, deviation, sqrt)
  {
    var sum := SquaredDeviationSum(data, period, i, mean);
    var stdDev := sqrt(sum / period as real);
    assert stdDev == StdDevAt(data, period, i, sqrt);
    up, low := mean + deviation * stdDev, mean - deviation * stdDev;
  }

  /** The band loop: one upper and one lower value per index from
      `period - 1` on, each made around the SMA value at that index. */
  method BandValues(data: seq<real>, period: nat, deviation: real, sqrt: real -> real, sma: Series)
    returns (upper: Series, lower: Series)
    requires period >= 1 && sma == SmaSeries(data, period)
    ensures |upper| == |lower| == Max(|data|, period - 1) - (period - 1)
    ensures forall k :: 0 <= k < |upper| ==> upper[k] == Some(UpperAt(data, period, k + period - 1, deviation, sqrt))
    ensures forall k :: 0 <= k < |lower| ==> lower[k] == Some(LowerAt(data, period, k + period - 1, deviation, sqrt))
  {
    upper, lower := [], [];
    var i := period - 1;
    while i < |data|
      invariant period - 1 <= i <= Max(|data|, period - 1)
      invariant |upper| == |lower| == i - (period - 1)
      invariant forall k :: 0 <= k < |upper| ==> upper[k] == Some(UpperAt(data, period, k + period - 1, deviation, sqrt))
      invariant forall k :: 0 <= k < |lower| ==> lower[k] == Some(LowerAt(data, period, k + period - 1, deviation, sqrt))
    {
      var up, low := BandPoint(data, period, i, deviation, sqrt, sma[i].value);
      upper := upper + [Some(up)];
      lower := lower + [Some(low)];
      i := i + 1;
    }
  }

  method CalculateBollingerBands(data: seq<real>, period: nat, deviation: real, sqrt: real -> real)
    returns (b: Bands)
    requires period >= 1
    ensures b == BollingerSeries(data, period, deviation, sqrt)
  {
    var sma := CalculateSma(data, period);
    var upper, lower := BandValues(data, period, deviation, sqrt, sma);
    var padding := Pad(period - 1);
    b := Bands(padding + upper, sma, padding + lower);
  }

  /** The middle band is the SMA; all three bands share the undefined prefix of
      `period - 1` entries; at every defined index the upper and lower bands lie
      `deviation` standard deviations above and below the middle, the standard
      deviation is non-negative, and so for a non-negative `deviation` the
      bands are ordered lower <= middle <= upper. */
  lemma {:induction false} BollingerShape(data: seq<real>, period: nat, deviation: real, sqrt: real -> real)
    requires period >= 1 && SqrtLaw(sqrt)
    ensures var b := BollingerSeries(data, period, deviation, sqrt);
      && b.middle == SmaSeries(data, period)
      && (forall i :: 0 <= i < |b.middle| ==>
            (b.upper[i].Some? <==> i >= period - 1) && (b.middle[i].Some? <==> i >= period - 1)
            && (b.lower[i].Some? <==> i >= period - 1))
      && (forall i :: period - 1 <= i < |data| ==>
            var sd := StdDevAt(data, period, i, sqrt);
            && 0.0 <= sd
            && b.upper[i].value - b.middle[i].value == deviation * sd
            && b.middle[i].value - b.lower[i].value == deviation * sd
            && (0.0 <= deviation ==> b.lower[i].value <= b.middle[i].value <= b.upper[i].value))
  {
    var b := BollingerSeries(data, period, deviation, sqrt);
    forall i | period - 1 <= i < |data|
      ensures 0.0 <= StdDevAt(data, period, i, sqrt)
    {
      assert 0.0 <= SumSqDev(data[i + 1 - period..i + 1], SmaAt(data, period, i));
      assert 0.0 <= VarianceAt(data, period, i);
    }
    forall i | period - 1 <= i < |data| && 0.0 <= deviation
      ensures b.lower[i].value <= b.middle[i].value <= b.upper[i].value
    {
      var sd := StdDevAt(data, period, i, sqrt);
      assert 0.0 <= deviation * sd;
    }
  }

  /** On a constant series the standard deviation is zero, so the three bands
      coincide (as whole series, prefix included). */
  lemma {:induction false} BollingerConstant(data: seq<real>, period: nat, deviation: real, sqrt: real -> real, v: real)
    requires period >= 1 && SqrtLaw(sqrt) && Constant(data, v)
    ensures var b := BollingerSeries(data, period, deviation, sqrt);
      b.upper == b.middle && b.lower == b.middle
  {
    var b := BollingerSeries(data, period, deviation, sqrt);
    forall i | 0 <= i < |b.middle|
      ensures b.upper[i] == b.middle[i] && b.lower[i] == b.middle[i]
    {
      if i >= period - 1 {
        BandsConstantAt(data, period, i, deviation, sqrt, v);
      }
    }
  }

  /** At one defined index of a constant series both bands equal the SMA. */
  lemma {:induction false} BandsConstantAt(data: seq<real>, period: nat, i: nat, deviation: real, sqrt: real -> real, v: real)
    requires 1 <= period <= i + 1 && i < |data|
    requires SqrtLaw(sqrt) && Constant(data, v)
    ensures UpperAt(data, period, i, deviation, sqrt) == SmaAt(data, period, i)
    ensures LowerAt(data, period, i, deviation, sqrt) == SmaAt(data, period, i)
  {
    var w := data[i + 1 - period..i + 1];
    MeanConstant(w, v);
    SumSqDevConstant(w, v);
    assert VarianceAt(data, period, i) == 0.0;
    assert StdDevAt(data, period, i, sqrt) == 0.0;
  }

  // ---------------------------------------------------------------------------
  // Relative strength index

  /** The price changes `data[i+1] - data[i]`, one fewer than the prices. */
  function Changes(data: seq<real>): (c: seq<real>)
    ensures |c| == if |data| == 0 then 0 else |data| - 1
  {
    if |data| == 0 then []
    else seq(|data| - 1, i requires 0 <= i < |data| - 1 => data[i + 1] - data[i])
  }

  /** The positive part of each change. */
  function Gains(changes: seq<real>): (g: seq<real>)
    ensures |g| == |changes| && NonNegative(g)
  {
    seq(|changes|, i requires 0 <= i < |changes| => if changes[i] > 0.0 then changes[i] else 0.0)
  }

  /** The magnitude of each negative change. */
  function Losses(changes: seq<real>): (l: seq<real>)
    ensures |l| == |changes| && NonNegative(l)
  {
    seq(|changes|, i requires 0 <= i < |changes| => if changes[i] < 0.0 then -changes[i] else 0.0)
  }

  /** One step of Wilder's smoothing, `(avg * (period - 1) + x) / period`;
      it keeps non-negative inputs non-negative and zero inputs zero. */
  function WilderStep(avg: real, x: real, period: nat): (r: real)
    requires period >= 1
    ensures 0.0 <= avg && 0.0 <= x ==> 0.0 <= r
    ensures avg == 0.0 && x == 0.0 ==> r == 0.0
    ensures 0.0 <= avg && 0.0 < x ==> 0.0 < r
  {
    var p := period as real;
    assert 0.0 <= avg ==> 0.0 <= avg * (p - 1.0);
    if 0.0 <= avg && 0.0 < x then
      StepPositive(avg, x, p);
      (avg * (p - 1.0) + x) / p
    else
      (avg * (p - 1.0) + x) / p
  }

  /** Wilder's smoothed average of `xs` after consuming entry `k`: the simple
      mean of the first `period` entries at `k = period - 1`, then one
      `WilderStep` per later entry. The average of non-negative entries is
      non-negative. */
  function WilderAvg(xs: seq<real>, period: nat, k: nat): (a: real)
    requires 1 <= period <= k + 1
    requires k == period - 1 || k < |xs|
    ensures NonNegative(xs) ==> 0.0 <= a
    decreases k
  {
    if k == period - 1 then
      var seed := Take(xs, period);
      assert NonNegative(xs) ==> NonNegative(seed);
      Sum(seed) / period as real
    else
      WilderStep(WilderAvg(xs, period, k - 1), xs[k], period)
  }

  /** The loss that replaces an average loss of exactly zero. */
  const ZeroLossSubstitute: real := 0.001

  /** `100 - 100 / (1 + avgGain / avgLoss)`, with a zero `avgLoss` replaced by
      0.001 so that nothing is divided by zero. The result lies in [0, 100). */
  function RsiValue(avgGain: real, avgLoss: real): (r: real)
    requires 0.0 <= avgGain && 0.0 <= avgLoss
    ensures 0.0 <= r < 100.0
  {
    var divisor := if avgLoss == 0.0 then ZeroLossSubstitute else avgLoss;
    var rs := avgGain / divisor;
    assert 0.0 <= rs;
    assert 0.0 < 100.0 / (1.0 + rs) <= 100.0;
    100.0 - 100.0 / (1.0 + rs)
  }

  /** The RSI series: `period` undefined entries, then one value per price from
      index `period` on, the value at `i` made from the averages after change
      `i - 1`. When there are at most `period` prices, the one value computed
      from the partial seed still follows the padding, as in the source. */
  function RsiSeries(data: seq<real>, period: nat): (r: Series)
    requires period >= 1
    ensures |r| == Max(|data|, period + 1)
  {
    var gains := Gains(Changes(data));
    var losses := Losses(Changes(data));
    var n := Max(|data|, period + 1);
    seq(n, i requires 0 <= i < n =>
      if i < period then None
      else Some(RsiValue(WilderAvg(gains, period, i - 1), WilderAvg(losses, period, i - 1))))
  }

  /** The first loop of the RSI: one price change per consecutive pair. */
  method PriceChanges(data: seq<real>) returns (changes: seq<real>)
    ensures changes == Changes(data)
  {
    changes := [];
    var i := 1;
    while i < |data|
      invariant 1 <= i <= Max(|data|, 1)
      invariant |data| > 0 ==> changes == Changes(data[..i])
      invariant |data| == 0 ==> changes == []
    {
      assert data[..i + 1][..i] == data[..i];
      changes := changes + [data[i] - data[i - 1]];
      i := i + 1;
    }
    if |data| > 0 {
      assert data[..i] == data;
    }
  }

  /** The second loop of the RSI: the seeded averages, smoothed one change at
      a time, and one RSI value per step. */
  method SmoothedRsiValues(gains: seq<real>, losses: seq<real>, period: nat) returns (result: Series)
    requires period >= 1 && |gains| == |losses|
    requires NonNegative(gains) && NonNegative(losses)
    ensures |result| == Max(|gains|, period) - period + 1
    ensures forall m :: 0 <= m < |result| ==>
      result[m] == Some(RsiValue(WilderAvg(gains, period, m + period - 1), WilderAvg(losses, period, m + period - 1)))
  {
    var avgGain := Sum(Take(gains, period)) / period as real;
    var avgLoss := Sum(Take(losses, period)) / period as real;
    assert avgGain == WilderAvg(gains, period, period - 1);
    assert avgLoss == WilderAvg(losses, period, period - 1);
    result := [Some(RsiValue(avgGain, avgLoss))];
    var k := period;
    while k < |gains|
      invariant period <= k <= Max(|gains|, period)
      invariant |result| == k - period + 1
      invariant avgGain == WilderAvg(gains, period, k - 1)
      invariant avgLoss == WilderAvg(losses, period, k - 1)
      invariant forall m :: 0 <= m < |result| ==>
        result[m] == Some(RsiValue(WilderAvg(gains, period, m + period - 1), WilderAvg(losses, period, m + period - 1)))
    {
      avgGain := WilderStep(avgGain, gains[k], period);
      avgLoss := WilderStep(avgLoss, losses[k], period);
      result := result + [Some(RsiValue(avgGain, avgLoss))];
      k := k + 1;
    }
  }

  method CalculateRsi(data: seq<real>, period: nat) returns (r: Series)
    requires period >= 1
    ensures r == RsiSeries(data, period)
  {
    var changes := PriceChanges(data);
    var gains := Gains(changes);
    var losses := Losses(changes);
    var result := SmoothedRsiValues(gains, losses, period);
    r := Pad(period) + result;
    assert |r| == |RsiSeries(data, period)|;
  }

  /** With more prices than the period, the RSI is aligned with the input,
      exactly its first `period` entries are undefined, and every defined value
      lies in [0, 100). */
  lemma {:induction false} RsiShape(data: seq<real>, period: nat)
    requires 1 <= period < |data|
    ensures |RsiSeries(data, period)| == |data|
    ensures forall i :: 0 <= i < |data| ==> (RsiSeries(data, period)[i].Some? <==> i >= period)
    ensures forall i :: period <= i < |data| ==>
      0.0 <= RsiSeries(data, period)[i].value < 100.0
  {
  }

  /** Each change splits into a non-negative gain and a non-negative loss whose
      difference is the change. */
  lemma {:induction false} RsiGainsLosses(data: seq<real>)
    ensures var c := Changes(data);
      forall k :: 0 <= k < |c| ==>
        0.0 <= Gains(c)[k] && 0.0 <= Losses(c)[k] && Gains(c)[k] - Losses(c)[k] == data[k + 1] - data[k]
  {
  }

  /** The averages start as the simple means of the first `period` gains and
      losses. */
  lemma {:induction false} RsiSeeds(data: seq<real>, period: nat)
    requires 1 <= period < |data|
    ensures var c := Changes(data);
      && WilderAvg(Gains(c), period, period - 1) == Mean(Gains(c)[..period])
      && WilderAvg(Losses(c), period, period - 1) == Mean(Losses(c)[..period])
  {
    var c := Changes(data);
    assert Take(Gains(c), period) == Gains(c)[..period];
    assert Take(Losses(c), period) == Losses(c)[..period];
  }

  /** Wilder's smoothing step satisfies `r * period == avg * (period - 1) + x`:
      the new average carries `period - 1` shares of the old one and one share
      of the new entry. */
  lemma {:induction false} WilderStepLaw(avg: real, x: real, period: nat)
    requires period >= 1
    ensures WilderStep(avg, x, period) * period as real == avg * (period as real - 1.0) + x
  {
  }

  /** A zero average loss is treated exactly as an average loss of 0.001: the
      division is never by zero, and the result is still below 100. */
  lemma {:induction false} RsiZeroLoss(avgGain: real)
    requires 0.0 <= avgGain
    ensures RsiValue(avgGain, 0.0) == RsiValue(avgGain, ZeroLossSubstitute)
    ensures RsiValue(avgGain, 0.0) == 100.0 - 100.0 / (1.0 + avgGain / 0.001)
  {
  }

  /** Wilder's average of an all-zero series is zero. */
  lemma {:induction false} WilderAvgZero(xs: seq<real>, period: nat, k: nat)
    requires 1 <= period <= k + 1 && (k == period - 1 || k < |xs|)
    requires Constant(xs, 0.0)
    ensures WilderAvg(xs, period, k) == 0.0
    decreases k
  {
    if k == period - 1 {
      SumConstant(Take(xs, period), 0.0);
    } else {
      WilderAvgZero(xs, period, k - 1);
    }
  }

  /** A series that never rises has no gains, so every defined RSI value is
      exactly 0; in particular a flat series reads 0, not 50, because its zero
      average loss is replaced by 0.001. */
  lemma {:induction false} RsiNeverRising(data: seq<real>, period: nat)
    requires period >= 1
    requires forall k :: 0 <= k < |data| - 1 ==> data[k + 1] <= data[k]
    ensures forall i :: 0 <= i < |RsiSeries(data, period)| && RsiSeries(data, period)[i].Some? ==>
      RsiSeries(data, period)[i].value == 0.0
  {
    var g := Gains(Changes(data));
    forall i | period <= i < |RsiSeries(data, period)|
      ensures RsiSeries(data, period)[i].value == 0.0
    {
      WilderAvgZero(g, period, i - 1);
    }
  }

  /** A series that never falls has no losses, so the zero average loss is
      always replaced by 0.001: every defined RSI value is
      `100 - 100 / (1 + avgGain / 0.001)`, below 100. */
  lemma {:induction false} RsiNeverFalling(data: seq<real>, period: nat)
    requires period >= 1
    requires forall k :: 0 <= k < |data| - 1 ==> data[k] <= data[k + 1]
    ensures forall i :: period <= i < |RsiSeries(data, period)| ==>
      RsiSeries(data, period)[i].Some?
      && RsiSeries(data, period)[i].value
         == 100.0 - 100.0 / (1.0 + WilderAvg(Gains(Changes(data)), period, i - 1) / 0.001)
      && RsiSeries(data, period)[i].value < 100.0
  {
    var g := Gains(Changes(data));
    var l := Losses(Changes(data));
    forall i | period <= i < |RsiSeries(data, period)|
      ensures RsiSeries(data, period)[i].value == 100.0 - 100.0 / (1.0 + WilderAvg(g, period, i - 1) / 0.001)
    {
      WilderAvgZero(l, period, i - 1);
      RsiZeroLoss(WilderAvg(g, period, i - 1));
    }
  }

  /** Wilder's average of positive entries is positive once the seed window
      is full. */
  lemma {:induction false} WilderAvgPositive(xs: seq<real>, period: nat, k: nat)
    requires 1 <= period <= k + 1 && k < |xs|
    requires forall j :: 0 <= j < |xs| ==> 0.0 < xs[j]
    ensures 0.0 < WilderAvg(xs, period, k)
    decreases k
  {
    if k == period - 1 {
      assert Take(xs, period) == xs[..period];
      assert WilderAvg(xs, period, k) == Mean(xs[..period]);
      PrefixMeanInRange(xs, period);
      assert 0.0 < SeqMin(xs);
    } else {
      WilderAvgPositive(xs, period, k - 1);
      assert WilderAvg(xs, period, k) == WilderStep(WilderAvg(xs, period, k - 1), xs[k], period);
    }
  }

  /** `(avg * (p - 1) + x) / p` is positive for `avg >= 0`, `x > 0`, `p >= 1`. */
  lemma {:induction false} StepPositive(avg: real, x: real, p: real)
    requires 0.0 <= avg && 0.0 < x && 1.0 <= p
    ensures 0.0 < (avg * (p - 1.0) + x) / p
  {
    ProductNonNegative(avg, p - 1.0);
  }

  /** A strictly rising series has a positive average gain and no loss, so with
      more prices than the period every defined RSI value lies strictly
      between 0 and 100, and it is `100 - 100 / (1 + 1000 * avgGain)`. */
  lemma {:induction false} RsiRising(data: seq<real>, period: nat)
    requires 1 <= period < |data|
    requires forall k :: 0 <= k < |data| - 1 ==> data[k] < data[k + 1]
    ensures forall k :: period - 1 <= k < |data| - 1 ==> 0.0 < WilderAvg(Gains(Changes(data)), period, k)
    ensures forall i :: period <= i < |data| ==>
      RsiSeries(data, period)[i] == Some(100.0 - 100.0 / (1.0 + 1000.0 * WilderAvg(Gains(Changes(data)), period, i - 1)))
    ensures forall i :: period <= i < |data| ==>
      RsiSeries(data, period)[i].Some? && 0.0 < RsiSeries(data, period)[i].value < 100.0
  {
    forall k | period - 1 <= k < |data| - 1
      ensures 0.0 < WilderAvg(Gains(Changes(data)), period, k)
    {
      RsiRisingAt(data, period, k + 1);
    }
    forall i | period <= i < |data|
      ensures RsiSeries(data, period)[i]
        == Some(100.0 - 100.0 / (1.0 + 1000.0 * WilderAvg(Gains(Changes(data)), period, i - 1)))
      ensures 0.0 < RsiSeries(data, period)[i].value < 100.0
    {
      RsiRisingAt(data, period, i);
    }
  }

  /** The rising-series RSI at one index `i >= period`: the average gain after
      change `i - 1` is positive, the average loss is zero, and the value is
      `100 - 100 / (1 + 1000 * avgGain)`, strictly between 0 and 100. */
  lemma {:induction false} RsiRisingAt(data: seq<real>, period: nat, i: nat)
    requires 1 <= period <= i < |data|
    requires forall k :: 0 <= k < |data| - 1 ==> data[k] < data[k + 1]
    ensures var g := WilderAvg(Gains(Changes(data)), period, i - 1);
      && 0.0 < g
      && RsiSeries(data, period)[i] == Some(100.0 - 100.0 / (1.0 + 1000.0 * g))
      && 0.0 < RsiSeries(data, period)[i].value < 100.0
  {
    var c := Changes(data);
    var gains, losses := Gains(c), Losses(c);
    forall j | 0 <= j < |gains| ensures 0.0 < gains[j] {
      assert c[j] == data[j + 1] - data[j];
    }
    forall j | 0 <= j < |losses| ensures losses[j] == 0.0 {
      assert c[j] == data[j + 1] - data[j];
    }
    WilderAvgPositive(gains, period, i - 1);
    WilderAvgZero(losses, period, i - 1);
    var g := WilderAvg(gains, period, i - 1);
    assert RsiSeries(data, period)[i] == Some(RsiValue(g, WilderAvg(losses, period, i - 1)));
    RsiZeroLoss(g);
    RisingValue(g);
  }

  /** With no losses, an average gain `g > 0` reads `100 - 100 / (1 + 1000 g)`,
      which is positive. */
  lemma {:induction false} RisingValue(g: real)
    requires 0.0 < g
    ensures g / 0.001 == 1000.0 * g
    ensures 0.0 < 100.0 - 100.0 / (1.0 + 1000.0 * g)
  {
    assert 1.0 < 1.0 + 1000.0 * g;
  }

  // ---------------------------------------------------------------------------
  // MACD

  /** `filter(value => !isNaN(value))`: the defined values, in order. */
  function Compact(s: Series): (r: seq<real>)
    ensures |r| <= |s|
  {
    if s == [] then [] else (if s[0].Some? then [s[0].value] else []) + Compact(s[1..])
  }

  /** When the defined entries of `s` are exactly those from index `n` on,
      compacting keeps just those values, in order. */
  lemma {:induction false} CompactDefinedSuffix(s: Series, n: nat)
    requires n <= |s|
    requires forall k :: 0 <= k < |s| ==> (s[k].Some? <==> n <= k)
    ensures |Compact(s)| == |s| - n
    ensures forall j :: 0 <= j < |s| - n ==> Compact(s)[j] == s[j + n].value
  {
    if s != [] {
      if n == 0 {
        CompactDefinedSuffix(s[1..], 0);
        assert Compact(s) == [s[0].value] + Compact(s[1..]);
      } else {
        CompactDefinedSuffix(s[1..], n - 1);
        assert Compact(s) == Compact(s[1..]);
      }
    }
  }

  /** The MACD line: the fast EMA minus the slow EMA, index by index. */
  function MacdLine(data: seq<real>, fastPeriod: nat, slowPeriod: nat): (line: Series)
    requires fastPeriod >= 1 && slowPeriod >= 1
    ensures |line| == |data|
  {
    var fast := EmaSeries(data, fastPeriod);
    var slow := EmaSeries(data, slowPeriod);
    seq(|data|, i requires 0 <= i < |data| => OptSub(fast[i], slow[i]))
  }

  /** The signal line: the EMA of the compacted MACD line, padded in front by
      as many undefined entries as the compaction removed, so that each value
      stands at the index of the last MACD value it has seen. */
  function SignalLine(line: Series, signalPeriod: nat): (r: Series)
    requires signalPeriod >= 1
    ensures |r| >= |line|
    ensures signalPeriod <= |Compact(line)| ==> |r| == |line|
    ensures forall k :: 0 <= k < |r| && r[k].Some? ==> k >= |line| - |Compact(line)| + signalPeriod - 1
  {
    var valid := Compact(line);
    Pad(|line| - |valid|) + EmaSeries(valid, signalPeriod)
  }

  /** `macd[i] - signal[i]` for every index of the MACD line. */
  function Histogram(line: Series, signal: Series): (h: Series)
    requires |line| <= |signal|
    ensures |h| == |line|
  {
    seq(|line|, i requires 0 <= i < |line| => OptSub(line[i], signal[i]))
  }

  /** The three MACD series with the signal line aligned: the MACD line and
      the histogram have one entry per price, and the histogram is defined
      exactly where both the MACD line and the signal line are. */
  function MacdSeries(data: seq<real>, fastPeriod: nat, slowPeriod: nat, signalPeriod: nat): (m: MacdResult)
    requires fastPeriod >= 1 && slowPeriod >= 1 && signalPeriod >= 1
    ensures |m.macd| == |data| && |m.histogram| == |data| && |m.signal| >= |data|
    ensures forall i :: 0 <= i < |data| ==>
      (m.histogram[i].Some? <==> m.macd[i].Some? && m.signal[i].Some?)
  {
    var line := MacdLine(data, fastPeriod, slowPeriod);
    var signal := SignalLine(line, signalPeriod);
    MacdResult(line, signal, Histogram(line, signal))
  }

  /** The first MACD loop: the fast EMA minus the slow EMA, index by index. */
  method Differences(fastEma: Series, slowEma: Series, n: nat) returns (line: Series)
    requires n <= |fastEma| && n <= |slowEma|
    ensures |line| == n
    ensures forall i :: 0 <= i < n ==> line[i] == OptSub(fastEma[i], slowEma[i])
  {
    line := [];
    var i := 0;
    while i < n
      invariant 0 <= i <= n
      invariant |line| == i
      invariant forall k :: 0 <= k < i ==> line[k] == OptSub(fastEma[k], slowEma[k])
    {
      line := line + [OptSub(fastEma[i], slowEma[i])];
      i := i + 1;
    }
  }

  method CalculateMacd(data: seq<real>, fastPeriod: nat, slowPeriod: nat, signalPeriod: nat)
    returns (m: MacdResult)
    requires fastPeriod >= 1 && slowPeriod >= 1 && signalPeriod >= 1
    ensures m == MacdSeries(data, fastPeriod, slowPeriod, signalPeriod)
  {
    var fastEma := CalculateEma(data, fastPeriod);
    var slowEma := CalculateEma(data, slowPeriod);
    var macdLine := Differences(fastEma, slowEma, |data|);
    assert macdLine == MacdLine(data, fastPeriod, slowPeriod);
    var validMacd := Compact(macdLine);
    var signalLine := CalculateEma(validMacd, signalPeriod);
    var paddedSignalLine := Pad(|data| - |validMacd|) + signalLine;
    var histogram := Differences(macdLine, paddedSignalLine, |data|);
    assert histogram == Histogram(macdLine, paddedSignalLine);
    m := MacdResult(macdLine, paddedSignalLine, histogram);
  }

  /** The MACD line is defined exactly from the later of the two EMA seeds on,
      and there it is the difference of the two EMAs. */
  lemma {:induction false} MacdLineDefined(data: seq<real>, fastPeriod: nat, slowPeriod: nat)
    requires fastPeriod >= 1 && slowPeriod >= 1
    ensures var line := MacdLine(data, fastPeriod, slowPeriod);
      forall i :: 0 <= i < |data| ==>
        && (line[i].Some? <==> i >= Max(fastPeriod, slowPeriod) - 1)
        && (line[i].Some? ==>
              line[i].value == EmaAt(data, fastPeriod, i) - EmaAt(data, slowPeriod, i))
  {
  }

  /** The MACD line is aligned with the input and has `max(fast, slow) - 1`
      undefined entries (`slow - 1` in the usual configuration fast < slow);
      compacting it keeps exactly its values from that index on. */
  lemma {:induction false} MacdShape(data: seq<real>, fastPeriod: nat, slowPeriod: nat)
    requires fastPeriod >= 1 && slowPeriod >= 1
    requires Max(fastPeriod, slowPeriod) <= |data| + 1
    ensures var line := MacdLine(data, fastPeriod, slowPeriod);
      var lead := Max(fastPeriod, slowPeriod) - 1;
      var valid := Compact(line);
      && |line| == |data|
      && (forall i :: 0 <= i < |data| ==> (line[i].Some? <==> i >= lead))
      && |valid| == |data| - lead
      && (forall j :: 0 <= j < |valid| ==> valid[j] == line[j + lead].value)
  {
    MacdLineDefined(data, fastPeriod, slowPeriod);
    CompactDefinedSuffix(MacdLine(data, fastPeriod, slowPeriod), Max(fastPeriod, slowPeriod) - 1);
  }

  /** With enough data for one signal value (`|data| - max(fast, slow) + 1 >=
      signal`), the signal line and the histogram are aligned with the input
      and undefined exactly for the first `(max(fast, slow) - 1) + (signal - 1)`
      indices. */
  lemma {:induction false} MacdSignalShape(data: seq<real>, fastPeriod: nat, slowPeriod: nat, signalPeriod: nat)
    requires fastPeriod >= 1 && slowPeriod >= 1 && signalPeriod >= 1
    requires |data| + 1 >= Max(fastPeriod, slowPeriod) + signalPeriod
    ensures var m := MacdSeries(data, fastPeriod, slowPeriod, signalPeriod);
      var lead := Max(fastPeriod, slowPeriod) - 1;
      && |m.signal| == |data| && |m.histogram| == |data|
      && (forall i :: 0 <= i < |data| ==>
            (m.signal[i].Some? <==> i >= lead + signalPeriod - 1)
            && (m.histogram[i].Some? <==> i >= lead + signalPeriod - 1))
  {
    var line := MacdLine(data, fastPeriod, slowPeriod);
    var lead := Max(fastPeriod, slowPeriod) - 1;
    MacdSignalValues(data, fastPeriod, slowPeriod, signalPeriod);
    var valid := Compact(line);
    var e := EmaSeries(valid, signalPeriod);
    var signal := SignalLine(line, signalPeriod);
    forall i | 0 <= i < |data|
      ensures signal[i].Some? <==> i >= lead + signalPeriod - 1
    {
      if i >= lead {
        EmaDefined(valid, signalPeriod, i - lead);
      }
    }
  }

  /** From index `max(fast, slow) - 1` on, the signal line is the EMA of the
      compacted MACD line at the matching position; before it, it is
      undefined. */
  lemma {:induction false} MacdSignalValues(data: seq<real>, fastPeriod: nat, slowPeriod: nat, signalPeriod: nat)
    requires fastPeriod >= 1 && slowPeriod >= 1 && signalPeriod >= 1
    requires |data| + 1 >= Max(fastPeriod, slowPeriod) + signalPeriod
    ensures var line := MacdLine(data, fastPeriod, slowPeriod);
      var lead := Max(fastPeriod, slowPeriod) - 1;
      var signal := SignalLine(line, signalPeriod);
      && |Compact(line)| == |data| - lead
      && |signal| == |data|
      && (forall i :: 0 <= i < lead ==> signal[i] == None)
      && (forall i :: lead <= i < |data| ==> signal[i] == EmaSeries(Compact(line), signalPeriod)[i - lead])
  {
    var line := MacdLine(data, fastPeriod, slowPeriod);
    var lead := Max(fastPeriod, slowPeriod) - 1;
    MacdShape(data, fastPeriod, slowPeriod);
    var valid := Compact(line);
    var e := EmaSeries(valid, signalPeriod);
    assert |e| == |valid|;
    assert SignalLine(line, signalPeriod) == Pad(lead) + e;
  }

  /** On a constant series the two EMAs agree wherever both are defined, so
      every defined MACD, signal and histogram value is 0. */
  lemma {:induction false} MacdConstant(data: seq<real>, fastPeriod: nat, slowPeriod: nat, signalPeriod: nat, v: real)
    requires fastPeriod >= 1 && slowPeriod >= 1 && signalPeriod >= 1
    requires Constant(data, v)
    ensures var m := MacdSeries(data, fastPeriod, slowPeriod, signalPeriod);
      && (forall i :: 0 <= i < |data| && m.macd[i].Some? ==> m.macd[i].value == 0.0)
      && (forall i :: 0 <= i < |data| && m.signal[i].Some? ==> m.signal[i].value == 0.0)
      && (forall i :: 0 <= i < |data| && m.histogram[i].Some? ==> m.histogram[i].value == 0.0)
  {
    var line := MacdLine(data, fastPeriod, slowPeriod);
    forall i | 0 <= i < |data| && line[i].Some?
      ensures line[i].value == 0.0
    {
      MacdLineDefined(data, fastPeriod, slowPeriod);
      EmaAtConstant(data, fastPeriod, i, v);
      EmaAtConstant(data, slowPeriod, i, v);
    }
    var valid := Compact(line);
    CompactZero(line);
    var signal := SignalLine(line, signalPeriod);
    var pad := |line| - |valid|;
    forall i | 0 <= i < |data| && signal[i].Some?
      ensures signal[i].value == 0.0
    {
      assert signal[i] == EmaSeries(valid, signalPeriod)[i - pad];
      EmaAtZero(valid, signalPeriod, i - pad);
    }
  }

  /** Compacting a series whose defined values are all zero gives zeros. */
  lemma {:induction false} CompactZero(s: Series)
    requires forall k :: 0 <= k < |s| && s[k].Some? ==> s[k].value == 0.0
    ensures Constant(Compact(s), 0.0)
  {
    if s != [] {
      CompactZero(s[1..]);
    }
  }

  // ---------------------------------------------------------------------------
  // MACD as the source writes it

  /** The signal line as the source pads it: `len - valid + signal - 1`
      undefined entries in front of an EMA that already begins with its own
      `signal - 1` undefined entries. */
  function SignalLineAsWritten(line: Series, signalPeriod: nat): (r: Series)
    requires signalPeriod >= 1
    ensures |r| == |SignalLine(line, signalPeriod)| + signalPeriod - 1
    ensures |r| >= |line| + signalPeriod - 1
  {
    var valid := Compact(line);
    Pad(|line| - |valid| + signalPeriod - 1) + EmaSeries(valid, signalPeriod)
  }

  /** The three MACD series as the source builds them: the MACD line is the
      aligned one, the signal line is at least `signal - 1` entries longer
      than the prices, and the histogram still has one entry per price. */
  function MacdSeriesAsWritten(data: seq<real>, fastPeriod: nat, slowPeriod: nat, signalPeriod: nat)
    : (m: MacdResult)
    requires fastPeriod >= 1 && slowPeriod >= 1 && signalPeriod >= 1
    ensures m.macd == MacdSeries(data, fastPeriod, slowPeriod, signalPeriod).macd
    ensures |m.signal| >= |data| + signalPeriod - 1
    ensures |m.histogram| == |data|
  {
    var line := MacdLine(data, fastPeriod, slowPeriod);
    var signal := SignalLineAsWritten(line, signalPeriod);
    assert |signal| >= |line|;
    MacdResult(line, signal, Histogram(line, signal))
  }

  /** The signal line as written is the aligned one delayed by `signal - 1`
      entries: it is `signal - 1` entries longer than the prices, and its value
      at index `i` is the aligned signal of index `i - (signal - 1)`. With
      enough data, the histogram as written is undefined at index
      `(max(fast, slow) - 1) + (signal - 1)`, where the aligned one has its
      first value. */
  lemma {:induction false} MacdAsWrittenLags(data: seq<real>, fastPeriod: nat, slowPeriod: nat, signalPeriod: nat)
    requires fastPeriod >= 1 && slowPeriod >= 1 && signalPeriod >= 2
    requires |data| + 1 >= Max(fastPeriod, slowPeriod) + signalPeriod
    ensures var written := MacdSeriesAsWritten(data, fastPeriod, slowPeriod, signalPeriod);
      var aligned := MacdSeries(data, fastPeriod, slowPeriod, signalPeriod);
      var first := Max(fastPeriod, slowPeriod) - 1 + signalPeriod - 1;
      && written.signal == Pad(signalPeriod - 1) + aligned.signal
      && |written.signal| == |data| + signalPeriod - 1 != |data|
      && written.histogram[first] == None && aligned.histogram[first].Some?
  {
    var line := MacdLine(data, fastPeriod, slowPeriod);
    SignalDelayed(line, signalPeriod);
    var written := MacdSeriesAsWritten(data, fastPeriod, slowPeriod, signalPeriod);
    var aligned := MacdSeries(data, fastPeriod, slowPeriod, signalPeriod);
    var first := Max(fastPeriod, slowPeriod) - 1 + signalPeriod - 1;
    MacdSignalShape(data, fastPeriod, slowPeriod, signalPeriod);
    assert |aligned.signal| == |data|;
    assert written.signal[first] == aligned.signal[first - (signalPeriod - 1)];
    assert aligned.signal[first - (signalPeriod - 1)] == None;
  }

  /** The padding as written is the aligned padding plus `signal - 1` more. */
  lemma {:induction false} SignalDelayed(line: Series, signalPeriod: nat)
    requires signalPeriod >= 1
    ensures SignalLineAsWritten(line, signalPeriod) == Pad(signalPeriod - 1) + SignalLine(line, signalPeriod)
  {
    var valid := Compact(line);
    var e := EmaSeries(valid, signalPeriod);
    var pad := |line| - |valid|;
    assert Pad(pad + signalPeriod - 1) == Pad(signalPeriod - 1) + Pad(pad);
    assert Pad(pad + signalPeriod - 1) + e == Pad(signalPeriod - 1) + (Pad(pad) + e);
  }

  /** The delay does not change the values: on a constant series every defined
      signal and histogram entry as written is still 0. */
  lemma {:induction false} MacdConstantAsWritten(data: seq<real>, fastPeriod: nat, slowPeriod: nat, signalPeriod: nat, v: real)
    requires fastPeriod >= 1 && slowPeriod >= 1 && signalPeriod >= 1
    requires Constant(data, v)
    ensures var m := MacdSeriesAsWritten(data, fastPeriod, slowPeriod, signalPeriod);
      && (forall i :: 0 <= i < |data| + signalPeriod - 1 && m.signal[i].Some? ==> m.signal[i].value == 0.0)
      && (forall i :: 0 <= i < |data| && m.histogram[i].Some? ==> m.histogram[i].value == 0.0)
  {
    var written := MacdSeriesAsWritten(data, fastPeriod, slowPeriod, signalPeriod);
    var aligned := MacdSeries(data, fastPeriod, slowPeriod, signalPeriod);
    SignalDelayed(written.macd, signalPeriod);
    MacdConstant(data, fastPeriod, slowPeriod, signalPeriod, v);
    forall i | 0 <= i < |data| + signalPeriod - 1 && written.signal[i].Some?
      ensures written.signal[i].value == 0.0
    {
      assert written.signal[i] == aligned.signal[i - (signalPeriod - 1)];
    }
    forall i | 0 <= i < |data| && written.histogram[i].Some?
      ensures written.histogram[i].value == 0.0
    {
      assert written.histogram[i] == OptSub(written.macd[i], written.signal[i]);
    }
  }

  /** A concrete input that shows it: four prices with fast 1, slow 2, signal 2
      give a signal line of five entries. */
  lemma {:induction false} MacdAsWrittenExample()
    ensures |MacdSeriesAsWritten([1.0, 2.0, 3.0, 4.0], 1, 2, 2).signal| == 5
  {
    MacdAsWrittenLags([1.0, 2.0, 3.0, 4.0], 1, 2, 2);
  }

  // ---------------------------------------------------------------------------
  // Support and resistance

  /** The envelope: undefined for the first `period` indices, then the minimum
      and maximum of the `period` prices before index `i`, not including it. */
  function SupportResistanceSeries(data: seq<real>, period: nat): (e: Envelope)
    requires period >= 1
    ensures |e.support| == |e.resistance| == |data|
  {
    Envelope(
      seq(|data|, i requires 0 <= i < |data| => if i < period then None else Some(SeqMin(data[i - period..i]))),
      seq(|data|, i requires 0 <= i < |data| => if i < period then None else Some(SeqMax(data[i - period..i]))))
  }

  /** The body of the envelope loop at index `i`: NaN for the first `period`
      indices, otherwise the minimum and maximum of the window before `i`. */
  method EnvelopePoint(data: seq<real>, period: nat, i: nat) returns (low: Option<real>, high: Option<real>)
    requires period >= 1 && i < |data|
    ensures low == SupportResistanceSeries(data, period).support[i]
    ensures high == SupportResistanceSeries(data, period).resistance[i]
  {
    if i < period {
      return None, None;
    }
    var window := data[i - period..i];
    var min := SeqMin(window);
    var max := SeqMax(window);
    low, high := Some(min), Some(max);
  }

  method CalculateSupportResistance(data: seq<real>, period: nat) returns (e: Envelope)
    requires period >= 1
    ensures e == SupportResistanceSeries(data, period)
  {
    ghost var spec := SupportResistanceSeries(data, period);
    var support: Series := [];
    var resistance: Series := [];
    var i := 0;
    while i < |data|
      invariant 0 <= i <= |data|
      invariant |support| == |resistance| == i
      invariant forall k :: 0 <= k < i ==> support[k] == spec.support[k]
      invariant forall k :: 0 <= k < i ==> resistance[k] == spec.resistance[k]
    {
      var low, high := EnvelopePoint(data, period, i);
      support := support + [low];
      resistance := resistance + [high];
      i := i + 1;
    }
    e := Envelope(support, resistance);
  }

  /** The envelope is undefined exactly for the first `period` indices; from
      there on support and resistance are elements of the window
      `data[i - period..i]`, which excludes the current price, and bound every
      price in it, so support <= resistance. */
  lemma {:induction false} SupportResistanceWindow(data: seq<real>, period: nat)
    requires period >= 1
    ensures var e := SupportResistanceSeries(data, period);
      forall i :: 0 <= i < |data| ==> (e.support[i].Some? <==> i >= period) && (e.resistance[i].Some? <==> i >= period)
    ensures var e := SupportResistanceSeries(data, period);
      forall i :: period <= i < |data| ==>
        e.support[i].value in data[i - period..i] && e.resistance[i].value in data[i - period..i]
    ensures var e := SupportResistanceSeries(data, period);
      forall i, k :: period <= i < |data| && i - period <= k < i ==>
        e.support[i].value <= data[k] <= e.resistance[i].value
    ensures var e := SupportResistanceSeries(data, period);
      forall i :: period <= i < |data| ==> e.support[i].value <= e.resistance[i].value
  {
    var e := SupportResistanceSeries(data, period);
    forall i, k | period <= i < |data| && i - period <= k < i
      ensures e.support[i].value <= data[k] <= e.resistance[i].value
    {
      var w := data[i - period..i];
      assert data[k] == w[k - (i - period)];
    }
    forall i | period <= i < |data|
      ensures e.support[i].value <= e.resistance[i].value
    {
      assert e.support[i].value <= data[i - period];
    }
  }

  /** Both lines stay within the range of the whole series. */
  lemma {:induction false} SupportResistanceInRange(data: seq<real>, period: nat)
    requires period >= 1
    ensures var e := SupportResistanceSeries(data, period);
      forall i :: period <= i < |data| ==>
        SeqMin(data) <= e.support[i].value && e.resistance[i].value <= SeqMax(data)
  {
    var e := SupportResistanceSeries(data, period);
    forall i | period <= i < |data|
      ensures SeqMin(data) <= e.support[i].value && e.resistance[i].value <= SeqMax(data)
    {
      var w := data[i - period..i];
      var j :| 0 <= j < |w| && w[j] == e.support[i].value;
      var h :| 0 <= h < |w| && w[h] == e.resistance[i].value;
      assert data[j + i - period] == e.support[i].value;
      assert data[h + i - period] == e.resistance[i].value;
    }
  }
}
