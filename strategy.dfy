/** The 5/20 moving-average cross: BUY when the 5-period mean crosses above the
    20-period mean between the last two candles, SELL when it crosses below,
    HOLD otherwise. A rolling mean over fewer closes than its window is the
    frame library's NaN, modelled as None; every comparison with it is false. */
module Strategy {
  import opened Series

  datatype Signal = Buy | Sell | Hold

  /** `closes.rolling(w).mean()` at position end - 1. */
  function RollingMean(closes: seq<real>, w: nat, end: nat): (r: Option<real>)
    requires 0 < w && end <= |closes|
    ensures r.Some? <==> w <= end
  {
    if end < w then None else Some(Mean(closes[end - w..end]))
  }

  /** `a <= b` where NaN compares false. */
  predicate AtMost(a: Option<real>, b: Option<real>)
  {
    a.Some? && b.Some? && a.value <= b.value
  }

  /** `a < b` where NaN compares false. */
  predicate Below(a: Option<real>, b: Option<real>)
  {
    a.Some? && b.Some? && a.value < b.value
  }

  /** The two rules of the strategy over the previous and the current means. */
  function CrossSignal(ma5Prev: Option<real>, ma20Prev: Option<real>, ma5Now: Option<real>, ma20Now: Option<real>): (r: Signal)
    ensures r == Buy <==> AtMost(ma5Prev, ma20Prev) && Below(ma20Now, ma5Now)
    ensures r == Sell <==> AtMost(ma20Prev, ma5Prev) && Below(ma5Now, ma20Now)
  {
    if AtMost(ma5Prev, ma20Prev) && Below(ma20Now, ma5Now) then Buy
    else if AtMost(ma20Prev, ma5Prev) && Below(ma5Now, ma20Now) then Sell
    else Hold
  }

  /** The strategy on a candle frame; None when there is no frame or fewer than
      two candles, where reading the previous mean raises. The ticker is unused. */
  function Algorithm(candles: Option<seq<Candle>>, ticker: string): (r: Option<Signal>)
    ensures r.None? <==> candles.None? || |candles.value| < 2
  {
    if candles.None? || |candles.value| < 2 then None
    else
      var closes := Closes(candles.value);
      var n := |closes|;
      var ma5Now := RollingMean(closes, 5, n);
      var ma20Now := RollingMean(closes, 20, n);
      var ma5Prev := RollingMean(closes, 5, n - 1);
      var ma20Prev := RollingMean(closes, 20, n - 1);
      Some(CrossSignal(ma5Prev, ma20Prev, ma5Now, ma20Now))
  }

  /** Mean of the w closes of the frame that end at position end - 1. */
  function WindowMean(c: seq<Candle>, w: nat, end: nat): real
    requires 0 < w <= end <= |c|
  {
    Mean(Closes(c)[end - w..end])
  }

  /** BUY exactly when 21 candles exist, the previous 5-mean was at most the
      previous 20-mean, and the current 5-mean is above the current 20-mean. */
  lemma BuyIffUpwardCross(c: seq<Candle>, ticker: string)
    requires |c| >= 2
    ensures Algorithm(Some(c), ticker) == Some(Buy) <==>
              |c| >= 21 &&
              WindowMean(c, 5, |c| - 1) <= WindowMean(c, 20, |c| - 1) &&
              WindowMean(c, 5, |c|) > WindowMean(c, 20, |c|)
  {
  }

  /** SELL exactly when 21 candles exist, the previous 5-mean was at least the
      previous 20-mean, and the current 5-mean is below the current 20-mean. */
  lemma SellIffDownwardCross(c: seq<Candle>, ticker: string)
    requires |c| >= 2
    ensures Algorithm(Some(c), ticker) == Some(Sell) <==>
              |c| >= 21 &&
              WindowMean(c, 5, |c| - 1) >= WindowMean(c, 20, |c| - 1) &&
              WindowMean(c, 5, |c|) < WindowMean(c, 20, |c|)
  {
  }

  /** The two rules never hold together, so their order does not matter. */
  lemma CrossRulesExclusive(ma5Prev: Option<real>, ma20Prev: Option<real>, ma5Now: Option<real>, ma20Now: Option<real>)
    ensures !(AtMost(ma5Prev, ma20Prev) && Below(ma20Now, ma5Now) &&
              AtMost(ma20Prev, ma5Prev) && Below(ma5Now, ma20Now))
  {
  }

  /** Equal current means always give HOLD, both comparisons being strict. */
  lemma EqualMeansHold(c: seq<Candle>, ticker: string)
    requires |c| >= 20
    requires WindowMean(c, 5, |c|) == WindowMean(c, 20, |c|)
    ensures Algorithm(Some(c), ticker) == Some(Hold)
  {
  }

  /** Up to 20 candles the previous 20-mean is NaN: nothing but HOLD. */
  lemma ShortFrameHolds(c: seq<Candle>, ticker: string)
    requires 2 <= |c| <= 20
    ensures Algorithm(Some(c), ticker) == Some(Hold)
  {
  }

  /** A frame of identical closes never signals. */
  lemma ConstantClosesHold(c: seq<Candle>, ticker: string, price: real)
    requires |c| >= 2
    requires forall i :: 0 <= i < |c| ==> c[i].close == price
    ensures Algorithm(Some(c), ticker) == Some(Hold)
  {
    if |c| >= 20 {
      var closes := Closes(c);
      MeanConstant(closes[|c| - 5..|c|], price);
      MeanConstant(closes[|c| - 20..|c|], price);
    }
  }

  /** Closes mapped through x |-> k * x + d, other fields untouched. */
  function AffineCloses(c: seq<Candle>, k: real, d: real): (r: seq<Candle>)
    ensures |r| == |c|
  {
    seq(|c|, i requires 0 <= i < |c| => c[i].(close := k * c[i].close + d))
  }

  /** m' is m mapped through x |-> k * x + d, NaN staying NaN. */
  predicate AffineRelated(m': Option<real>, m: Option<real>, k: real, d: real)
  {
    m'.Some? == m.Some? && (m.Some? ==> m'.value == k * m.value + d)
  }

  lemma RollingMeanAffine(xs: seq<real>, k: real, d: real, w: nat, end: nat)
    requires 0 < w && end <= |xs|
    ensures AffineRelated(RollingMean(Affine(xs, k, d), w, end), RollingMean(xs, w, end), k, d)
  {
    if w <= end {
      AffineSlice(xs, k, d, end - w, end);
      MeanAffine(xs[end - w..end], k, d);
    }
  }

  lemma AffineOrder(k: real, d: real, x: real, y: real)
    requires k > 0.0
    ensures k * x + d <= k * y + d <==> x <= y
    ensures k * x + d < k * y + d <==> x < y
  {
    assert k * y - k * x == k * (y - x);
  }

  /** A positive affine map of two means keeps both orders between them. */
  lemma OrdersAffine(a': Option<real>, b': Option<real>, a: Option<real>, b: Option<real>, k: real, d: real)
    requires k > 0.0
    requires AffineRelated(a', a, k, d) && AffineRelated(b', b, k, d)
    ensures AtMost(a', b') == AtMost(a, b) && AtMost(b', a') == AtMost(b, a)
    ensures Below(a', b') == Below(a, b) && Below(b', a') == Below(b, a)
  {
    if a.Some? && b.Some? {
      AffineOrder(k, d, a.value, b.value);
      AffineOrder(k, d, b.value, a.value);
      assert a'.value == k * a.value + d && b'.value == k * b.value + d;
      assert (a'.value <= b'.value) == (a.value <= b.value) && (b'.value <= a'.value) == (b.value <= a.value);
      assert (a'.value < b'.value) == (a.value < b.value) && (b'.value < a'.value) == (b.value < a.value);
    }
  }

  /** The cross rule only compares means, so a positive affine map of all four keeps it. */
  lemma CrossSignalAffine(p5': Option<real>, p20': Option<real>, n5': Option<real>, n20': Option<real>,
                          p5: Option<real>, p20: Option<real>, n5: Option<real>, n20: Option<real>, k: real, d: real)
    requires k > 0.0
    requires AffineRelated(p5', p5, k, d) && AffineRelated(p20', p20, k, d)
    requires AffineRelated(n5', n5, k, d) && AffineRelated(n20', n20, k, d)
    ensures CrossSignal(p5', p20', n5', n20') == CrossSignal(p5, p20, n5, n20)
  {
    OrdersAffine(p5', p20', p5, p20, k, d);
    OrdersAffine(n5', n20', n5, n20, k, d);
  }

  /** Re-denominating prices (a positive scale and any offset) never changes the signal. */
  lemma AffinePricesSameSignal(c: seq<Candle>, ticker: string, k: real, d: real)
    requires k > 0.0
    ensures Algorithm(Some(AffineCloses(c, k, d)), ticker) == Algorithm(Some(c), ticker)
  {
    if |c| >= 2 {
      var c' := AffineCloses(c, k, d);
      var xs := Closes(c);
      forall i | 0 <= i < |c| ensures Closes(c')[i] == Affine(xs, k, d)[i] {
        assert c'[i].close == k * c[i].close + d;
        assert xs[i] == c[i].close;
        assert Affine(xs, k, d)[i] == k * xs[i] + d;
      }
      var ys := Closes(c');
      assert ys == Affine(xs, k, d);
      var n := |c|;
      RollingMeanAffine(xs, k, d, 5, n);
      RollingMeanAffine(xs, k, d, 20, n);
      RollingMeanAffine(xs, k, d, 5, n - 1);
      RollingMeanAffine(xs, k, d, 20, n - 1);
      CrossSignalAffine(RollingMean(ys, 5, n - 1), RollingMean(ys, 20, n - 1), RollingMean(ys, 5, n), RollingMean(ys, 20, n),
                        RollingMean(xs, 5, n - 1), RollingMean(xs, 20, n - 1), RollingMean(xs, 5, n), RollingMean(xs, 20, n), k, d);
    }
  }
}
