/** The indicator stack over exact reals (polytrader/indicators/). */
module Indicators {
  import opened Prelude

  datatype Candle = Candle(high: real, low: real, close: real)

  // ---- Specifications ------------------------------------------------------------------

  function Sum(xs: seq<real>): real {
    if xs == [] then 0.0 else Sum(xs[..|xs| - 1]) + xs[|xs| - 1]
  }

  function Quotient(total: real, n: real): real
    requires n > 0.0
  {
    total / n
  }

  function Mean(xs: seq<real>): real
    requires xs != []
  {
    Quotient(Sum(xs), |xs| as real)
  }

  function Blend(alpha: real, x: real, y: real): real {
    alpha * x + (1.0 - alpha) * y
  }

  function EmaAt(values: seq<real>, window: nat, i: nat): real
    requires window >= 1 && i < |values|
  {
    var alpha := 2.0 / (window + 1) as real;
    if i == 0 then values[0] else Blend(alpha, values[i], EmaAt(values, window, i - 1))
  }

  function Abs(x: real): real {
    if x < 0.0 then -x else x
  }

  function Max(a: real, b: real): real {
    if a < b then b else a
  }

  function Min(a: real, b: real): real {
    if a < b then a else b
  }

  function Range(high: real, low: real, previous: real): real {
    Max(Max(high - low, Abs(high - previous)), Abs(low - previous))
  }

  function TrueRange(bars: seq<Candle>, i: nat): real
    requires i < |bars|
  {
    if i == 0 then bars[0].high - bars[0].low
    else Range(bars[i].high, bars[i].low, bars[i - 1].close)
  }

  function TrueRanges(bars: seq<Candle>, n: nat): seq<real>
    requires n <= |bars|
  {
    seq(n, i requires 0 <= i < n => TrueRange(bars, i))
  }

  function Smoothed(previous: real, tr: real, window: nat): real
    requires window >= 1
  {
    (previous * (window - 1) as real + tr) / window as real
  }

  /** Wilder's average: zero during warm-up, then the mean of the first true ranges, smoothed. */
  function AtrAt(bars: seq<Candle>, window: nat, i: nat): real
    requires window >= 1 && i < |bars|
  {
    if i < window - 1 then 0.0
    else if i == window - 1 then Mean(TrueRanges(bars, window))
    else Smoothed(AtrAt(bars, window, i - 1), TrueRange(bars, i), window)
  }

  function Typical(bar: Candle): real {
    (bar.high + bar.low + bar.close) / 3.0
  }

  function Typicals(bars: seq<Candle>): seq<real> {
    seq(|bars|, i requires 0 <= i < |bars| => Typical(bars[i]))
  }

  /** The anchor a candle is compared with: zero during warm-up, then the mean typical price of
      the window ending there. */
  function AnchorAt(bars: seq<Candle>, window: nat, i: nat): real
    requires window >= 1 && i < |bars|
  {
    if i < window - 1 then 0.0 else Mean(Typicals(bars)[i + 1 - window..i + 1])
  }

  function DeviationZ(value: real, anchor: real, scale: real): real {
    if scale <= 0.0 then 0.0 else (value - anchor) / scale
  }

  function TrendAt(closes: seq<real>, fast: nat, slow: nat, vol: real, i: nat): real
    requires fast >= 1 && slow >= 1 && i < |closes|
  {
    if vol <= 0.0 then 0.0 else Abs(EmaAt(closes, fast, i) - EmaAt(closes, slow, i)) / vol
  }

  // ---- The program's loops; None stands for ValueError -----------------------------------

  method RollingMean(values: seq<real>, window: int) returns (result: Option<seq<real>>)
    ensures result.None? <==> window < 1
    ensures result.Some? ==> |result.value| == if |values| < window then 0 else |values| - window + 1
    ensures result.Some? ==> forall k :: 0 <= k < |result.value| ==> result.value[k] == Mean(values[k..k + window])
  {
    if window < 1 {
      return None;
    }
    if |values| < window {
      return Some([]);
    }
    var means: seq<real> := [];
    for k := 0 to |values| - window + 1
      invariant |means| == k
      invariant forall j :: 0 <= j < k ==> means[j] == Mean(values[j..j + window])
    {
      var total := Total(values[k..k + window]);
      means := means + [Quotient(total, window as real)];
    }
    result := Some(means);
  }

  /** Python's sum. */
  method Total(xs: seq<real>) returns (total: real)
    ensures total == Sum(xs)
  {
    total := 0.0;
    for i := 0 to |xs|
      invariant total == Sum(xs[..i])
    {
      assert xs[..i + 1][..i] == xs[..i];
      total := total + xs[i];
    }
    assert xs[..|xs|] == xs;
  }

  method Ema(values: seq<real>, window: int) returns (result: Option<seq<real>>)
    ensures result.None? <==> window < 1
    ensures result.Some? ==> |result.value| == |values|
    ensures result.Some? ==> forall i :: 0 <= i < |values| ==> result.value[i] == EmaAt(values, window, i)
  {
    if window < 1 {
      return None;
    }
    if values == [] {
      return Some([]);
    }
    var alpha := 2.0 / (window + 1) as real;
    hide Blend;
    var averages := [values[0]];
    for i := 1 to |values|
      invariant |averages| == i
      invariant forall j :: 0 <= j < i ==> averages[j] == EmaAt(values, window, j)
    {
      averages := averages + [Blend(alpha, values[i], averages[i - 1])];
    }
    result := Some(averages);
  }

  method TrueRangeList(high: seq<real>, low: seq<real>, close: seq<real>) returns (tr: seq<real>)
    requires |low| == |high| && |close| == |high| && high != []
    ensures tr == TrueRanges(Bars(high, low, close), |high|)
  {
    hide Range;
    ghost var bars := Bars(high, low, close);
    tr := [high[0] - low[0]];
    for i := 1 to |high|
      invariant |tr| == i
      invariant forall j :: 0 <= j < i ==> tr[j] == TrueRange(bars, j)
    {
      tr := tr + [Range(high[i], low[i], close[i - 1])];
    }
  }

  lemma AtrSteps(bars: seq<Candle>, window: nat, i: nat)
    requires window >= 1 && i < |bars|
    ensures i < window - 1 ==> AtrAt(bars, window, i) == 0.0
    ensures i == window - 1 ==> AtrAt(bars, window, i) == Mean(TrueRanges(bars, window))
    ensures i >= window ==> AtrAt(bars, window, i) == Smoothed(AtrAt(bars, window, i - 1), TrueRange(bars, i), window)
  {
  }

  method Atr(high: seq<real>, low: seq<real>, close: seq<real>, window: int) returns (result: Option<seq<real>>)
    ensures result.None? <==> window < 1 || |low| != |high| || |close| != |high|
    ensures result.Some? ==> |result.value| == |high|
    ensures result.Some? ==> forall i :: 0 <= i < |high| ==> result.value[i] == AtrAt(Bars(high, low, close), window, i)
  {
    hide Smoothed, Range, TrueRange, Mean, AtrAt;
    if window < 1 || |low| != |high| || |close| != |high| {
      return None;
    }
    var n := |high|;
    if n == 0 {
      return Some([]);
    }
    ghost var bars := Bars(high, low, close);
    var tr := TrueRangeList(high, low, close);
    var slots := new real[n](i => 0.0);
    forall i: nat | i < n && i < window ensures i < window - 1 ==> AtrAt(bars, window, i) == 0.0 {
      AtrSteps(bars, window, i);
    }
    if window <= n {
      AtrSteps(bars, window, window - 1);
      assert tr[..window] == TrueRanges(bars, window);
      slots[window - 1] := Average(tr[..window]);
      for i := window to n
        invariant forall j :: 0 <= j < i ==> slots[j] == AtrAt(bars, window, j)
      {
        AtrSteps(bars, window, i);
        slots[i] := Smoothed(slots[i - 1], tr[i], window);
      }
    }
    result := Some(slots[..]);
  }

  method Average(xs: seq<real>) returns (mean: real)
    requires xs != []
    ensures mean == Mean(xs)
  {
    var total := Total(xs);
    mean := Quotient(total, |xs| as real);
  }

  function Bars(high: seq<real>, low: seq<real>, close: seq<real>): seq<Candle>
    requires |low| == |high| && |close| == |high|
  {
    seq(|high|, i requires 0 <= i < |high| => Candle(high[i], low[i], close[i]))
  }

  /** The result is aligned with the candles only when there are at least window - 1 of them (or
      none): with fewer the warm-up zeros alone outnumber the candles. */
  method FairPriceAnchor(bars: seq<Candle>, rollingMean: bool, window: int) returns (result: Option<seq<real>>)
    ensures result.None? <==> window < 1 || !rollingMean
    ensures result.Some? ==> (|result.value| == |bars| <==> bars == [] || |bars| >= window - 1)
    ensures result.Some? ==> |result.value| >= |bars|
    ensures result.Some? ==> forall i :: 0 <= i < |bars| ==> result.value[i] == AnchorAt(bars, window, i)
  {
    if window < 1 || !rollingMean {
      return None;
    }
    if bars == [] {
      return Some([]);
    }
    var means := RollingMean(Typicals(bars), window);
    var zeros := seq(window - 1, i => 0.0);
    result := Some(zeros + means.value);
  }

  method TrendStrengthEmaGap(closes: seq<real>, fast: int, slow: int, volatility: seq<real>)
    returns (result: Option<seq<real>>)
    ensures result.None? <==> fast < 1 || slow < 1 || |volatility| != |closes|
    ensures result.Some? ==> |result.value| == |closes|
    ensures result.Some? ==> forall i :: 0 <= i < |closes| ==>
                                           result.value[i] == TrendAt(closes, fast, slow, volatility[i], i)
  {
    if fast < 1 || slow < 1 || |volatility| != |closes| {
      return None;
    }
    if closes == [] {
      return Some([]);
    }
    var emaFast := Ema(closes, fast);
    var emaSlow := Ema(closes, slow);
    var strengths: seq<real> := [];
    for i := 0 to |closes|
      invariant |strengths| == i
      invariant forall j :: 0 <= j < i ==> strengths[j] == TrendAt(closes, fast, slow, volatility[j], j)
    {
      var vol := volatility[i];
      if vol <= 0.0 {
        strengths := strengths + [0.0];
      } else {
        var gap := Abs(emaFast.value[i] - emaSlow.value[i]);
        strengths := strengths + [gap / vol];
      }
    }
    result := Some(strengths);
  }

  // ---- The defining equations, without division ------------------------------------------

  lemma QuotientTimes(total: real, n: real)
    requires n > 0.0
    ensures Quotient(total, n) * n == total
  {
  }

  lemma MeanTimes(xs: seq<real>)
    requires xs != []
    ensures Mean(xs) * |xs| as real == Sum(xs)
  {
    QuotientTimes(Sum(xs), |xs| as real);
  }

  lemma {:induction false} SumConcat(xs: seq<real>, ys: seq<real>)
    ensures Sum(xs + ys) == Sum(xs) + Sum(ys)
    ensures |ys| == 1 ==> Sum(ys) == ys[0]
  {
    if ys == [] {
      assert xs + ys == xs;
    } else {
      SumConcat(xs, ys[..|ys| - 1]);
      assert (xs + ys)[..|xs + ys| - 1] == xs + ys[..|ys| - 1];
    }
  }

  lemma BlendTimes(n: real, x: real, y: real)
    requires n > 0.0
    ensures n * Blend(2.0 / n, x, y) == 2.0 * x + (n - 2.0) * y
  {
    var alpha := 2.0 / n;
    assert alpha * n == 2.0;
    assert n * (alpha * x + (1.0 - alpha) * y) == (alpha * n) * x + (n - alpha * n) * y;
  }

  /** The exponential average of span `window` starts at the first value, and each further value
      weighs 2 against window - 1 for the average before it; a window of one follows the values. */
  lemma EmaEquation(values: seq<real>, window: nat, i: nat)
    requires window >= 1 && i < |values|
    ensures EmaAt(values, window, 0) == values[0]
    ensures i > 0 ==> (window as real + 1.0) * EmaAt(values, window, i) ==
                      2.0 * values[i] + (window as real - 1.0) * EmaAt(values, window, i - 1)
    ensures window == 1 ==> EmaAt(values, window, i) == values[i]
  {
    if i > 0 {
      BlendTimes((window + 1) as real, values[i], EmaAt(values, window, i - 1));
      assert (window + 1) as real == window as real + 1.0;
    }
  }

  /** Wilder's average: zero before the first full window, its mean there, and afterwards the new
      range weighs 1 against window - 1 for the average before it. */
  lemma AtrEquation(bars: seq<Candle>, window: nat, i: nat)
    requires window >= 1 && i < |bars|
    ensures i + 1 < window ==> AtrAt(bars, window, i) == 0.0
    ensures i + 1 == window ==> AtrAt(bars, window, i) * window as real == Sum(TrueRanges(bars, window))
    ensures i >= window ==> AtrAt(bars, window, i) * window as real ==
                            AtrAt(bars, window, i - 1) * (window as real - 1.0) + TrueRange(bars, i)
  {
    hide TrueRange, Sum;
    if i + 1 == window {
      MeanTimes(TrueRanges(bars, window));
    } else if i >= window {
      var total := AtrAt(bars, window, i - 1) * (window - 1) as real + TrueRange(bars, i);
      assert (window - 1) as real == window as real - 1.0;
      QuotientTimes(total, window as real);
    }
  }

  /** The anchor: zero before the first full window, then the mean of high, low and close over the
      window that ends at the candle. */
  lemma AnchorEquation(bars: seq<Candle>, window: nat, i: nat)
    requires window >= 1 && i < |bars|
    ensures i + 1 < window ==> AnchorAt(bars, window, i) == 0.0
    ensures i + 1 >= window ==>
              AnchorAt(bars, window, i) * window as real == Sum(Typicals(bars)[i + 1 - window..i + 1])
    ensures |Typicals(bars)| == |bars| && Typicals(bars)[i] * 3.0 == bars[i].high + bars[i].low + bars[i].close
  {
    hide Sum;
    if i + 1 >= window {
      MeanTimes(Typicals(bars)[i + 1 - window..i + 1]);
    }
  }

  /** The z-score measures the value's distance above the anchor in units of volatility. */
  lemma DeviationEquation(value: real, anchor: real, scale: real)
    ensures scale <= 0.0 ==> DeviationZ(value, anchor, scale) == 0.0
    ensures scale > 0.0 ==> DeviationZ(value, anchor, scale) * scale == value - anchor
    ensures scale > 0.0 ==> (DeviationZ(value, anchor, scale) > 0.0 <==> value > anchor)
  {
    if scale > 0.0 {
      QuotientTimes(value - anchor, scale);
      var z := DeviationZ(value, anchor, scale);
      assert z > 0.0 ==> z * scale > 0.0;
      assert z <= 0.0 ==> z * scale <= 0.0;
    }
  }

  /** Trend strength measures the distance between the two averages, whichever is ahead. */
  lemma TrendEquation(closes: seq<real>, fast: nat, slow: nat, vol: real, i: nat)
    requires fast >= 1 && slow >= 1 && i < |closes|
    ensures var gap := EmaAt(closes, fast, i) - EmaAt(closes, slow, i);
            && (vol <= 0.0 ==> TrendAt(closes, fast, slow, vol, i) == 0.0)
            && (vol > 0.0 ==> TrendAt(closes, fast, slow, vol, i) * vol == if gap < 0.0 then -gap else gap)
  {
    hide EmaAt;
    if vol > 0.0 {
      QuotientTimes(Abs(EmaAt(closes, fast, i) - EmaAt(closes, slow, i)), vol);
    }
  }

  /** The true range is the largest of the candle's span and the distances of high and low from the
      previous close; the first candle has only its span. */
  lemma TrueRangeLargest(bars: seq<Candle>, i: nat)
    requires i < |bars|
    ensures i == 0 ==> TrueRange(bars, i) == bars[i].high - bars[i].low
    ensures i > 0 ==>
              var r, p := TrueRange(bars, i), bars[i - 1].close;
              && r >= bars[i].high - bars[i].low
              && r >= bars[i].high - p && r >= p - bars[i].high && r >= bars[i].low - p && r >= p - bars[i].low
              && (r == bars[i].high - bars[i].low || r == bars[i].high - p || r == p - bars[i].high
                  || r == bars[i].low - p || r == p - bars[i].low)
  {
  }

  // ---- Meaning of the averages ---------------------------------------------------------

  /** With low <= high the true range is the span of the candle joined with the previous close. */
  lemma TrueRangeIsSpan(bars: seq<Candle>, i: nat)
    requires 0 < i < |bars| && bars[i].low <= bars[i].high
    ensures TrueRange(bars, i) == Max(bars[i].high, bars[i - 1].close) - Min(bars[i].low, bars[i - 1].close)
  {
  }

  lemma BlendMonotone(a: real, x: real, y: real, x': real, y': real)
    requires 0.0 <= a <= 1.0 && x <= x' && y <= y'
    ensures Blend(a, x, y) <= Blend(a, x', y')
  {
    assert a * (x' - x) >= 0.0;
    assert (1.0 - a) * (y' - y) >= 0.0;
  }

  lemma BlendSame(a: real, x: real)
    ensures Blend(a, x, x) == x
  {
  }

  /** An exponential average stays within any bounds of the values it has seen. */
  lemma {:induction false} EmaWithin(values: seq<real>, window: nat, i: nat, least: real, most: real)
    requires window >= 1 && i < |values| && forall j :: 0 <= j <= i ==> least <= values[j] <= most
    ensures least <= EmaAt(values, window, i) <= most
  {
    if i > 0 {
      EmaWithin(values, window, i - 1, least, most);
      var alpha := 2.0 / (window + 1) as real;
      var previous := EmaAt(values, window, i - 1);
      BlendMonotone(alpha, least, least, values[i], previous);
      BlendMonotone(alpha, values[i], previous, most, most);
      BlendSame(alpha, least);
      BlendSame(alpha, most);
    }
  }

  // ---- Affine invariance ---------------------------------------------------------------

  /** A change of price unit and origin. */
  function Moved(k: real, c: real, x: real): real {
    k * x + c
  }

  function AllMoved(k: real, c: real, xs: seq<real>): seq<real> {
    seq(|xs|, i requires 0 <= i < |xs| => Moved(k, c, xs[i]))
  }

  function MovedBar(k: real, c: real, bar: Candle): Candle {
    Candle(Moved(k, c, bar.high), Moved(k, c, bar.low), Moved(k, c, bar.close))
  }

  function Rescaled(k: real, c: real, bars: seq<Candle>): seq<Candle> {
    seq(|bars|, i requires 0 <= i < |bars| => MovedBar(k, c, bars[i]))
  }

  function MovedTotal(k: real, c: real, total: real, n: real): real {
    k * total + c * n
  }

  lemma SumMoved(k: real, c: real, total: real, x: real, n: real)
    ensures MovedTotal(k, c, total, n) + Moved(k, c, x) == MovedTotal(k, c, total + x, n + 1.0)
    ensures MovedTotal(k, c, 0.0, 0.0) == 0.0
  {
  }

  lemma {:induction false} SumAffine(k: real, c: real, xs: seq<real>)
    ensures Sum(AllMoved(k, c, xs)) == MovedTotal(k, c, Sum(xs), |xs| as real)
  {
    hide Moved, MovedTotal;
    if xs == [] {
      SumMoved(k, c, 0.0, 0.0, 0.0);
    } else {
      var front, last := xs[..|xs| - 1], xs[|xs| - 1];
      SumAffine(k, c, front);
      assert AllMoved(k, c, xs)[..|xs| - 1] == AllMoved(k, c, front);
      SumMoved(k, c, Sum(front), last, |front| as real);
      assert |xs| as real == |front| as real + 1.0;
    }
  }

  lemma QuotientIs(x: real, n: real, q: real)
    requires n > 0.0 && q * n == x
    ensures x / n == q
  {
  }

  lemma DividedMoved(k: real, c: real, total: real, n: real)
    requires n > 0.0
    ensures Quotient(MovedTotal(k, c, total, n), n) == Moved(k, c, Quotient(total, n))
  {
    var q := total / n;
    assert q * n == total;
    assert (k * q + c) * n == k * (q * n) + c * n;
    QuotientIs(k * total + c * n, n, k * q + c);
  }

  lemma MeanAffine(k: real, c: real, xs: seq<real>)
    requires xs != []
    ensures Mean(AllMoved(k, c, xs)) == Moved(k, c, Mean(xs))
  {
    hide Moved, MovedTotal, Quotient;
    SumAffine(k, c, xs);
    DividedMoved(k, c, Sum(xs), |xs| as real);
  }

  lemma BlendMoved(k: real, c: real, a: real, x: real, y: real)
    ensures Blend(a, Moved(k, c, x), Moved(k, c, y)) == Moved(k, c, Blend(a, x, y))
  {
    assert a * (k * x + c) == k * (a * x) + a * c;
    assert (1.0 - a) * (k * y + c) == k * ((1.0 - a) * y) + (1.0 - a) * c;
  }

  lemma {:induction false} EmaAffine(k: real, c: real, values: seq<real>, window: nat, i: nat)
    requires window >= 1 && i < |values|
    ensures EmaAt(AllMoved(k, c, values), window, i) == Moved(k, c, EmaAt(values, window, i))
  {
    hide Moved, Blend;
    if i > 0 {
      EmaAffine(k, c, values, window, i - 1);
      BlendMoved(k, c, 2.0 / (window + 1) as real, values[i], EmaAt(values, window, i - 1));
    }
  }

  lemma DifferenceScales(k: real, c: real, x: real, y: real)
    ensures Moved(k, c, x) - Moved(k, c, y) == Moved(k, 0.0, x - y)
  {
  }

  lemma AbsScales(k: real, x: real)
    requires k > 0.0
    ensures Abs(Moved(k, 0.0, x)) == Moved(k, 0.0, Abs(x))
  {
    assert x < 0.0 ==> k * x < 0.0;
    assert x >= 0.0 ==> k * x >= 0.0;
  }

  lemma DistanceScales(k: real, c: real, x: real, y: real)
    requires k > 0.0
    ensures Abs(Moved(k, c, x) - Moved(k, c, y)) == Moved(k, 0.0, Abs(x - y))
  {
    hide Moved, Abs;
    DifferenceScales(k, c, x, y);
    AbsScales(k, x - y);
  }

  lemma MaxScales(k: real, x: real, y: real)
    requires k > 0.0
    ensures Max(Moved(k, 0.0, x), Moved(k, 0.0, y)) == Moved(k, 0.0, Max(x, y))
  {
    assert x < y ==> k * x < k * y;
    assert y <= x ==> k * y <= k * x;
  }

  lemma RangeScales(k: real, c: real, high: real, low: real, previous: real)
    requires k > 0.0
    ensures Range(Moved(k, c, high), Moved(k, c, low), Moved(k, c, previous)) ==
            Moved(k, 0.0, Range(high, low, previous))
  {
    hide Moved, Max, Abs;
    DifferenceScales(k, c, high, low);
    DistanceScales(k, c, high, previous);
    DistanceScales(k, c, low, previous);
    MaxScales(k, high - low, Abs(high - previous));
    MaxScales(k, Max(high - low, Abs(high - previous)), Abs(low - previous));
  }

  lemma TrueRangeScales(k: real, c: real, bars: seq<Candle>, i: nat)
    requires k > 0.0 && i < |bars|
    ensures TrueRange(Rescaled(k, c, bars), i) == Moved(k, 0.0, TrueRange(bars, i))
  {
    hide Moved, Range;
    if i == 0 {
      DifferenceScales(k, c, bars[0].high, bars[0].low);
    } else {
      RangeScales(k, c, bars[i].high, bars[i].low, bars[i - 1].close);
    }
  }

  lemma TrueRangesScale(k: real, c: real, bars: seq<Candle>, n: nat)
    requires k > 0.0 && n <= |bars|
    ensures TrueRanges(Rescaled(k, c, bars), n) == AllMoved(k, 0.0, TrueRanges(bars, n))
  {
    hide Moved, TrueRange;
    forall i: nat | i < n ensures TrueRange(Rescaled(k, c, bars), i) == Moved(k, 0.0, TrueRange(bars, i)) {
      TrueRangeScales(k, c, bars, i);
    }
  }

  lemma SmoothingScales(k: real, previous: real, tr: real, window: nat)
    requires window >= 1
    ensures Smoothed(Moved(k, 0.0, previous), Moved(k, 0.0, tr), window) ==
            Moved(k, 0.0, Smoothed(previous, tr, window))
  {
    var total := previous * (window - 1) as real + tr;
    assert (k * previous) * (window - 1) as real + k * tr == k * total;
    DividedMoved(k, 0.0, total, window as real);
  }

  /** Wilder's average scales with the prices and ignores a shift, warm-up included. */
  lemma {:induction false} AtrScales(k: real, c: real, bars: seq<Candle>, window: nat, i: nat)
    requires k > 0.0 && window >= 1 && i < |bars|
    ensures AtrAt(Rescaled(k, c, bars), window, i) == Moved(k, 0.0, AtrAt(bars, window, i))
  {
    if i < window - 1 {
      assert Moved(k, 0.0, 0.0) == 0.0;
    } else if i == window - 1 {
      hide Moved, Mean, TrueRanges;
      TrueRangesScale(k, c, bars, window);
      MeanAffine(k, 0.0, TrueRanges(bars, window));
    } else {
      hide Moved, TrueRange, Smoothed;
      AtrScales(k, c, bars, window, i - 1);
      TrueRangeScales(k, c, bars, i);
      SmoothingScales(k, AtrAt(bars, window, i - 1), TrueRange(bars, i), window);
    }
  }

  lemma TypicalMoved(k: real, c: real, bar: Candle)
    ensures Typical(MovedBar(k, c, bar)) == Moved(k, c, Typical(bar))
  {
    var total := bar.high + bar.low + bar.close;
    assert Moved(k, c, bar.high) + Moved(k, c, bar.low) + Moved(k, c, bar.close) == k * total + c * 3.0;
    DividedMoved(k, c, total, 3.0);
  }

  lemma TypicalsAffine(k: real, c: real, bars: seq<Candle>)
    ensures Typicals(Rescaled(k, c, bars)) == AllMoved(k, c, Typicals(bars))
  {
    hide Moved, MovedBar, Typical;
    forall i | 0 <= i < |bars| ensures Typical(MovedBar(k, c, bars[i])) == Moved(k, c, Typical(bars[i])) {
      TypicalMoved(k, c, bars[i]);
    }
  }

  lemma AnchorAffine(k: real, c: real, bars: seq<Candle>, window: nat, i: nat)
    requires window >= 1 && window - 1 <= i < |bars|
    ensures AnchorAt(Rescaled(k, c, bars), window, i) == Moved(k, c, AnchorAt(bars, window, i))
  {
    hide Moved, Mean, Typicals, Rescaled;
    TypicalsAffine(k, c, bars);
    TypicalsLength(bars);
    var segment := Typicals(bars)[i + 1 - window..i + 1];
    assert AllMoved(k, c, Typicals(bars))[i + 1 - window..i + 1] == AllMoved(k, c, segment);
    MeanAffine(k, c, segment);
  }

  lemma TypicalsLength(bars: seq<Candle>)
    ensures |Typicals(bars)| == |bars|
  {
  }

  lemma QuotientScales(k: real, x: real, s: real)
    requires k > 0.0 && s > 0.0
    ensures Moved(k, 0.0, s) > 0.0 && Moved(k, 0.0, x) / Moved(k, 0.0, s) == x / s
  {
    var q := x / s;
    assert q * s == x;
    assert q * (k * s) == k * (q * s);
    QuotientIs(k * x, k * s, q);
  }

  lemma ShiftedQuotient(x: real, c: real, s: real)
    requires s > 0.0
    ensures (x + c) / s == x / s <==> c == 0.0
  {
    var q := (x + c) / s;
    assert q * s == x + c;
    if q == x / s {
      assert q * s == x;
    }
  }

  lemma PositiveScale(k: real, s: real)
    requires k > 0.0
    ensures Moved(k, 0.0, s) > 0.0 <==> s > 0.0
  {
    assert s > 0.0 ==> k * s > 0.0;
    assert s <= 0.0 ==> k * s <= 0.0;
  }

  function Deviation(bars: seq<Candle>, anchorWindow: nat, atrWindow: nat, i: nat): real
    requires anchorWindow >= 1 && atrWindow >= 1 && i < |bars|
  {
    DeviationZ(bars[i].close, AnchorAt(bars, anchorWindow, i), AtrAt(bars, atrWindow, i))
  }

  lemma ScoreAffine(k: real, c: real, close: real, anchor: real, scale: real)
    requires k > 0.0
    ensures DeviationZ(Moved(k, c, close), Moved(k, c, anchor), Moved(k, 0.0, scale)) ==
            DeviationZ(close, anchor, scale)
  {
    hide Moved;
    PositiveScale(k, scale);
    if scale > 0.0 {
      DifferenceScales(k, c, close, anchor);
      QuotientScales(k, close - anchor, scale);
    }
  }

  lemma MovedSplit(k: real, c: real, x: real)
    ensures Moved(k, c, x) == Moved(k, 0.0, x) + c
  {
  }

  /** Against an anchor of zero only a change of unit leaves a live score alone. */
  lemma ScoreUnanchored(k: real, c: real, close: real, scale: real)
    requires k > 0.0
    ensures DeviationZ(Moved(k, c, close), 0.0, Moved(k, 0.0, scale)) == DeviationZ(close, 0.0, scale) <==>
            scale <= 0.0 || c == 0.0
  {
    hide Moved;
    PositiveScale(k, scale);
    if scale > 0.0 {
      MovedSplit(k, c, close);
      QuotientScales(k, close, scale);
      ShiftedQuotient(Moved(k, 0.0, close), c, Moved(k, 0.0, scale));
    }
  }

  /** The z-score of the close is unchanged by a change of price unit and origin exactly when the
      anchor is warmed up, or the volatility is not positive (as during its warm-up), or the
      origin stays: before the anchor's warm-up its zeros are not shifted along. */
  lemma DeviationInvariantIff(k: real, c: real, bars: seq<Candle>, anchorWindow: nat, atrWindow: nat, i: nat)
    requires k > 0.0 && anchorWindow >= 1 && atrWindow >= 1 && i < |bars|
    ensures Deviation(Rescaled(k, c, bars), anchorWindow, atrWindow, i) == Deviation(bars, anchorWindow, atrWindow, i)
       <==> i >= anchorWindow - 1 || AtrAt(bars, atrWindow, i) <= 0.0 || c == 0.0
  {
    hide Moved, AtrAt, DeviationZ, Mean;
    var close, scale := bars[i].close, AtrAt(bars, atrWindow, i);
    AtrScales(k, c, bars, atrWindow, i);
    if i >= anchorWindow - 1 {
      AnchorAffine(k, c, bars, anchorWindow, i);
      ScoreAffine(k, c, close, AnchorAt(bars, anchorWindow, i), scale);
    } else {
      ScoreUnanchored(k, c, close, scale);
    }
  }

  /** So from both warm-ups on the z-score does not depend on the unit and origin of prices; */
  lemma DeviationInvariant(k: real, c: real, bars: seq<Candle>, anchorWindow: nat, atrWindow: nat, i: nat)
    requires k > 0.0 && anchorWindow >= 1 && atrWindow >= 1 && anchorWindow - 1 <= i < |bars|
    ensures Deviation(Rescaled(k, c, bars), anchorWindow, atrWindow, i) == Deviation(bars, anchorWindow, atrWindow, i)
  {
    hide *;
    DeviationInvariantIff(k, c, bars, anchorWindow, atrWindow, i);
  }

  lemma TrendScales(k: real, c: real, x: real, y: real, vol: real)
    requires k > 0.0 && vol > 0.0
    ensures Moved(k, 0.0, vol) > 0.0
    ensures Abs(Moved(k, c, x) - Moved(k, c, y)) / Moved(k, 0.0, vol) == Abs(x - y) / vol
  {
    hide Moved, Abs;
    DistanceScales(k, c, x, y);
    QuotientScales(k, Abs(x - y), vol);
  }

  /** and the trend strength of any prices on this scale over this volatility depends on them at no
      index. */
  lemma TrendInvariant(k: real, c: real, closes: seq<real>, bars: seq<Candle>, fast: nat, slow: nat, atrWindow: nat,
                       i: nat)
    requires k > 0.0 && fast >= 1 && slow >= 1 && atrWindow >= 1 && i < |bars| == |closes|
    ensures TrendAt(AllMoved(k, c, closes), fast, slow, AtrAt(Rescaled(k, c, bars), atrWindow, i), i)
         == TrendAt(closes, fast, slow, AtrAt(bars, atrWindow, i), i)
  {
    hide Moved, AtrAt, EmaAt, Abs;
    var vol := AtrAt(bars, atrWindow, i);
    AtrScales(k, c, bars, atrWindow, i);
    PositiveScale(k, vol);
    EmaAffine(k, c, closes, fast, i);
    EmaAffine(k, c, closes, slow, i);
    if vol > 0.0 {
      TrendScales(k, c, EmaAt(closes, fast, i), EmaAt(closes, slow, i), vol);
    }
  }
}
