/** Indicator library: the volume-spike test, the least-squares trend slope,
    the bullish-candle ratio, the per-market PnL rate and the trade strength.
    Every indicator answers a neutral value when the series is too short. */
module Extensions {
  import opened Series

  // ---------------------------------------------------------------------------
  // Volume spike
  // ---------------------------------------------------------------------------

  /** The n volumes just before the last candle (`iloc[-n-1:-1]`). */
  function PriorVolumes(c: seq<Candle>, n: nat): (r: seq<real>)
    requires n + 1 <= |c|
    ensures |r| == n
  {
    Volumes(c)[|c| - n - 1..|c| - 1]
  }

  /** True when the last candle's volume is at least `threshold` times the mean
      volume of the n candles before it. No frame, fewer than n + 1 candles, or a
      zero mean answer false. With n == 0 the window is empty and its mean is NaN,
      which compares false both to 0 and to the threshold, so the answer is false. */
  function IsVolumeSpike(df: Option<seq<Candle>>, n: nat, threshold: real): (r: bool)
    ensures df.None? || |df.value| < n + 1 ==> !r
    ensures df.Some? && 0 < n && n + 1 <= |df.value| && Mean(PriorVolumes(df.value, n)) == 0.0 ==> !r
  {
    if df.None? || |df.value| < n + 1 then false
    else if n == 0 then false
    else
      var c := df.value;
      var avg := Mean(PriorVolumes(c, n));
      if avg == 0.0 then false
      else c[|c| - 1].volume / avg >= threshold
  }

  /** With non-negative volumes the test is the division-free comparison
      n * last >= threshold * (sum of the prior n volumes), on a non-zero sum. */
  lemma {:induction false} VolumeSpikeByTotals(c: seq<Candle>, n: nat, threshold: real)
    requires n + 1 <= |c| && n > 0
    requires forall i :: 0 <= i < |c| ==> c[i].volume >= 0.0
    ensures IsVolumeSpike(Some(c), n, threshold) <==>
              Sum(PriorVolumes(c, n)) > 0.0 &&
              (n as real) * c[|c| - 1].volume >= threshold * Sum(PriorVolumes(c, n))
  {
    var w := PriorVolumes(c, n);
    forall i | 0 <= i < |w| ensures w[i] >= 0.0 {
      assert w[i] == c[|c| - n - 1 + i].volume;
    }
    SumNonNegative(w);
    var s, m, v, nr := Sum(w), Mean(w), c[|c| - 1].volume, n as real;
    assert m == s / nr;
    if s > 0.0 {
      assert m > 0.0;
      assert v / m >= threshold <==> v >= threshold * m;
      assert threshold * m * nr == threshold * s;
      assert v >= threshold * m <==> nr * v >= threshold * s;
    } else {
      assert m == 0.0;
    }
  }

  /** Scaling the volumes scales the window before the last candle. */
  lemma {:induction false} PriorVolumesScale(c: seq<Candle>, n: nat, k: real)
    requires n + 1 <= |c|
    ensures PriorVolumes(ScaleVolumes(c, k), n) == Affine(PriorVolumes(c, n), k, 0.0)
  {
    var c' := ScaleVolumes(c, k);
    forall i | 0 <= i < |c| ensures Volumes(c')[i] == Affine(Volumes(c), k, 0.0)[i] {
      assert c'[i].volume == k * c[i].volume;
    }
    assert Volumes(c') == Affine(Volumes(c), k, 0.0);
    AffineSlice(Volumes(c), k, 0.0, |c| - n - 1, |c| - 1);
  }

  /** Multiplying every volume by the same positive constant leaves the test unchanged. */
  lemma {:induction false} VolumeSpikeScaleInvariant(c: seq<Candle>, n: nat, threshold: real, k: real)
    requires k > 0.0
    ensures IsVolumeSpike(Some(ScaleVolumes(c, k)), n, threshold) == IsVolumeSpike(Some(c), n, threshold)
  {
    var c' := ScaleVolumes(c, k);
    if n > 0 && n + 1 <= |c| {
      PriorVolumesScale(c, n, k);
      MeanAffine(PriorVolumes(c, n), k, 0.0);
      var m, m' := Mean(PriorVolumes(c, n)), Mean(PriorVolumes(c', n));
      var v, v' := c[|c| - 1].volume, c'[|c| - 1].volume;
      assert m' == k * m && v' == k * v;
      if m != 0.0 {
        QuotientScale(v, m, k);
      }
    }
  }

  // ---------------------------------------------------------------------------
  // Trend slope: ordinary least squares against the index 0 .. n-1
  // ---------------------------------------------------------------------------

  // Polynomial identities used below, each proved on plain reals.

  lemma QuotientScale(v: real, m: real, k: real)
    requires k != 0.0 && m != 0.0
    ensures (k * v) / (k * m) == v / m
  {
    assert (k * v) / (k * m) * (k * m) == k * v;
    assert (v / m) * (k * m) == k * v;
  }

  lemma RatioBounds(k: nat, n: nat)
    requires 0 < n && k <= n
    ensures 0.0 <= (k as real) / (n as real) <= 1.0
  {
    assert (k as real) / (n as real) * (n as real) == k as real;
  }

  lemma {:induction false} RatioExtremes(k: nat, n: nat)
    requires 0 < n
    ensures (k as real) / (n as real) == 1.0 <==> k == n
    ensures (k as real) / (n as real) == 0.0 <==> k == 0
  {
    assert (k as real) / (n as real) * (n as real) == k as real;
  }

  /** 0 + 1 + ... + (n - 1) */
  function IndexSum(n: nat): real
  {
    if n == 0 then 0.0 else IndexSum(n - 1) + (n - 1) as real
  }

  /** 0^2 + 1^2 + ... + (n - 1)^2 */
  function IndexSquareSum(n: nat): real
  {
    if n == 0 then 0.0 else IndexSquareSum(n - 1) + ((n - 1) as real) * ((n - 1) as real)
  }

  /** 0 * ys[0] + 1 * ys[1] + ... + (n - 1) * ys[n - 1] */
  function WeightedSumTo(ys: seq<real>, n: nat): real
    requires n <= |ys|
  {
    if n == 0 then 0.0 else WeightedSumTo(ys, n - 1) + ((n - 1) as real) * ys[n - 1]
  }

  /** Sum of i * ys[i]. */
  function WeightedSum(ys: seq<real>): real
  {
    WeightedSumTo(ys, |ys|)
  }

  /** x * s2 - s1^2: the least-squares denominator of x points whose indices sum
      to s1 and whose squared indices sum to s2. */
  function Denominator(x: real, s1: real, s2: real): real
  {
    x * s2 - s1 * s1
  }

  /** The least-squares slope of x points from the index sums s1 and s2, the
      weighted sum w = sum(i * y_i) and the sum s = sum(y_i). */
  function SlopeFormula(x: real, s1: real, s2: real, w: real, s: real): real
    requires Denominator(x, s1, s2) != 0.0
  {
    (x * w - s1 * s) / Denominator(x, s1, s2)
  }

  lemma {:induction false} IndexSumClosed(n: nat)
    ensures 2.0 * IndexSum(n) == (n as real) * ((n as real) - 1.0)
  {
    if n > 0 {
      IndexSumClosed(n - 1);
    }
  }

  lemma {:induction false} IndexSquareSumClosed(n: nat)
    ensures 6.0 * IndexSquareSum(n) == ((n as real) - 1.0) * (n as real) * (2.0 * (n as real) - 1.0)
  {
    if n > 0 {
      IndexSquareSumClosed(n - 1);
      var m := (n - 1) as real;
      assert 6.0 * IndexSquareSum(n) == (m - 1.0) * m * (2.0 * m - 1.0) + 6.0 * m * m;
      assert (m - 1.0) * m * (2.0 * m - 1.0) + 6.0 * m * m == m * (m + 1.0) * (2.0 * m + 1.0);
    }
  }

  /** The regression is well defined from two points on: 12 * D(n) = n^2 (n - 1) (n + 1). */
  lemma {:induction false} SlopeDenominatorPositive(n: nat)
    requires n >= 2
    ensures Denominator(n as real, IndexSum(n), IndexSquareSum(n)) > 0.0
  {
    IndexSumClosed(n);
    IndexSquareSumClosed(n);
    DenominatorAlgebra(n as real, IndexSum(n), IndexSquareSum(n));
  }

  lemma DenominatorAlgebra(x: real, s1: real, s2: real)
    requires x >= 2.0
    requires 2.0 * s1 == x * (x - 1.0) && 6.0 * s2 == (x - 1.0) * x * (2.0 * x - 1.0)
    ensures Denominator(x, s1, s2) > 0.0
  {
    var den := Denominator(x, s1, s2);
    assert 12.0 * den == 2.0 * x * (6.0 * s2) - 3.0 * (2.0 * s1) * (2.0 * s1);
    assert 12.0 * den == (x * x) * ((x - 1.0) * (x + 1.0));
    assert x * x > 0.0;
    assert (x - 1.0) * (x + 1.0) > 0.0;
  }

  /** Slope of the least-squares line through the points (i, ys[i]). */
  function LeastSquaresSlope(ys: seq<real>): (r: real)
    requires |ys| >= 2
    ensures |ys| == 2 ==> r == ys[1] - ys[0]
  {
    SlopeDenominatorPositive(|ys|);
    TwoPointSlope(ys);
    SlopeFormula(|ys| as real, IndexSum(|ys|), IndexSquareSum(|ys|), WeightedSum(ys), Sum(ys))
  }

  /** The slope as the formula over the sums, passed in as plain reals. */
  lemma {:induction false} SlopeBySums(ys: seq<real>, x: real, s1: real, s2: real, w: real, s: real)
    requires |ys| >= 2 && x == |ys| as real && s1 == IndexSum(|ys|) && s2 == IndexSquareSum(|ys|)
    requires w == WeightedSum(ys) && s == Sum(ys)
    ensures Denominator(x, s1, s2) != 0.0 && LeastSquaresSlope(ys) == SlopeFormula(x, s1, s2, w, s)
  {
    SlopeDenominatorPositive(|ys|);
  }

  /** Through two points the line is exact: its slope is their difference. */
  lemma TwoPointSlope(ys: seq<real>)
    requires |ys| >= 2
    ensures |ys| == 2 ==> Denominator(2.0, IndexSum(2), IndexSquareSum(2)) != 0.0 &&
                          SlopeFormula(2.0, IndexSum(2), IndexSquareSum(2), WeightedSum(ys), Sum(ys)) == ys[1] - ys[0]
  {
    if |ys| == 2 {
      assert IndexSum(1) == 0.0 && IndexSum(2) == 1.0;
      assert IndexSquareSum(1) == 0.0 && IndexSquareSum(2) == 1.0;
      assert WeightedSumTo(ys, 1) == 0.0;
      assert WeightedSum(ys) == WeightedSumTo(ys, 1) + 1.0 * ys[1] == ys[1];
      assert SumTo(ys, 1) == ys[0];
      assert Sum(ys) == SumTo(ys, 1) + ys[1];
      assert Denominator(2.0, 1.0, 1.0) == 1.0;
    }
  }

  /** Mapping the points through y |-> k * y + d maps the sums so that the slope is scaled by k. */
  lemma AffineSlope(x: real, k: real, d: real, s1: real, s2: real, w: real, s: real, w': real, s': real)
    requires Denominator(x, s1, s2) != 0.0
    requires w' == k * w + d * s1 && s' == k * s + x * d
    ensures SlopeFormula(x, s1, s2, w', s') == k * SlopeFormula(x, s1, s2, w, s)
  {
    assert x * w' - s1 * s' == k * (x * w - s1 * s);
  }

  /** The sums of points on the line a + b * i give slope b. */
  lemma LineSlope(x: real, a: real, b: real, s1: real, s2: real, w: real, s: real)
    requires Denominator(x, s1, s2) != 0.0
    requires w == a * s1 + b * s2 && s == x * a + b * s1
    ensures SlopeFormula(x, s1, s2, w, s) == b
  {
    assert x * w - s1 * s == b * Denominator(x, s1, s2);
  }

  /** Mean of the low-price slope and the high-price slope over the last n candles;
      0.0 without a frame or with fewer than n candles. */
  function CalculateTrendSlope(df: Option<seq<Candle>>, n: nat): (r: real)
    requires n >= 2
    ensures df.None? || |df.value| < n ==> r == 0.0
  {
    if df.None? || |df.value| < n then 0.0
    else
      var w := Last(df.value, n);
      (LeastSquaresSlope(Lows(w)) + LeastSquaresSlope(Highs(w))) / 2.0
  }

  /** The weighted prefix sums of pointwise-mapped points, with the sums passed in. */
  lemma {:induction false} WeightedSumToAffine(ys: seq<real>, zs: seq<real>, k: real, d: real, n: nat, w: real, z: real, s1: real)
    requires n <= |ys| && n <= |zs| && forall j :: 0 <= j < n ==> zs[j] == k * ys[j] + d
    requires w == WeightedSumTo(ys, n) && z == WeightedSumTo(zs, n) && s1 == IndexSum(n)
    ensures z == k * w + d * s1
  {
    if n > 0 {
      var w0, z0, s0 := WeightedSumTo(ys, n - 1), WeightedSumTo(zs, n - 1), IndexSum(n - 1);
      WeightedSumToAffine(ys, zs, k, d, n - 1, w0, z0, s0);
      WeightedStep(w0, z0, s0, (n - 1) as real, ys[n - 1], zs[n - 1], k, d, w, z, s1);
    }
  }

  /** One step of the weighted sums: adding the point i, mapped and unmapped, keeps z == k * w + d * s1. */
  lemma WeightedStep(w0: real, z0: real, s0: real, i: real, y: real, y': real, k: real, d: real, w: real, z: real, s1: real)
    requires z0 == k * w0 + d * s0 && y' == k * y + d
    requires w == w0 + i * y && z == z0 + i * y' && s1 == s0 + i
    ensures z == k * w + d * s1
  {
    assert i * y' == k * (i * y) + d * i;
  }

  /** Rescaling the prices rescales the slope; shifting them leaves it unchanged. */
  lemma {:induction false} LeastSquaresSlopeAffine(ys: seq<real>, k: real, d: real)
    requires |ys| >= 2
    ensures LeastSquaresSlope(Affine(ys, k, d)) == k * LeastSquaresSlope(ys)
  {
    var zs := Affine(ys, k, d);
    var n := |ys|;
    var x, s1, s2 := n as real, IndexSum(n), IndexSquareSum(n);
    var w, s, w', s' := WeightedSum(ys), Sum(ys), WeightedSum(zs), Sum(zs);
    assert forall j :: 0 <= j < n ==> zs[j] == k * ys[j] + d;
    WeightedSumToAffine(ys, zs, k, d, n, w, w', s1);
    SumAffine(ys, k, d);
    SlopeBySums(ys, x, s1, s2, w, s);
    SlopeBySums(zs, x, s1, s2, w', s');
    AffineSlope(x, k, d, s1, s2, w, s, w', s');
  }

  /** The prefix sums of points on the line a + b * i. */
  lemma {:induction false} LineSumTo(ys: seq<real>, a: real, b: real, n: nat, s: real, s1: real)
    requires n <= |ys|
    requires forall i :: 0 <= i < |ys| ==> ys[i] == a + b * (i as real)
    requires s == SumTo(ys, n) && s1 == IndexSum(n)
    ensures s == (n as real) * a + b * s1
  {
    if n > 0 {
      LineSumTo(ys, a, b, n - 1, SumTo(ys, n - 1), IndexSum(n - 1));
    }
  }

  /** The weighted prefix sums of points on the line a + b * i. */
  lemma {:induction false} LineWeightedSumTo(ys: seq<real>, a: real, b: real, n: nat, w: real, s1: real, s2: real)
    requires n <= |ys|
    requires forall i :: 0 <= i < |ys| ==> ys[i] == a + b * (i as real)
    requires w == WeightedSumTo(ys, n) && s1 == IndexSum(n) && s2 == IndexSquareSum(n)
    ensures w == a * s1 + b * s2
  {
    if n > 0 {
      LineWeightedSumTo(ys, a, b, n - 1, WeightedSumTo(ys, n - 1), IndexSum(n - 1), IndexSquareSum(n - 1));
    }
  }

  /** Points lying exactly on the line a + b * i have least-squares slope b. */
  lemma {:induction false} LeastSquaresSlopeOfLine(ys: seq<real>, a: real, b: real)
    requires |ys| >= 2
    requires forall i :: 0 <= i < |ys| ==> ys[i] == a + b * (i as real)
    ensures LeastSquaresSlope(ys) == b
  {
    var n := |ys|;
    var x, s1, s2 := n as real, IndexSum(n), IndexSquareSum(n);
    var w, s := WeightedSum(ys), Sum(ys);
    LineSumTo(ys, a, b, n, s, s1);
    LineWeightedSumTo(ys, a, b, n, w, s1, s2);
    SlopeBySums(ys, x, s1, s2, w, s);
    LineSlope(x, a, b, s1, s2, w, s);
  }

  /** When, over the last n candles, the lows follow a1 + b1 * i and the highs
      a2 + b2 * i, the trend slope is (b1 + b2) / 2; flat lows and highs give 0. */
  lemma {:induction false} TrendSlopeOfLines(c: seq<Candle>, n: nat, a1: real, b1: real, a2: real, b2: real)
    requires 2 <= n <= |c|
    requires forall i :: |c| - n <= i < |c| ==> c[i].low == a1 + b1 * ((i - (|c| - n)) as real)
    requires forall i :: |c| - n <= i < |c| ==> c[i].high == a2 + b2 * ((i - (|c| - n)) as real)
    ensures CalculateTrendSlope(Some(c), n) == (b1 + b2) / 2.0
  {
    var w := Last(c, n);
    forall i | 0 <= i < n ensures Lows(w)[i] == a1 + b1 * (i as real) && Highs(w)[i] == a2 + b2 * (i as real) {
      assert w[i] == c[|c| - n + i];
    }
    LeastSquaresSlopeOfLine(Lows(w), a1, b1);
    LeastSquaresSlopeOfLine(Highs(w), a2, b2);
  }

  // ---------------------------------------------------------------------------
  // Bullish ratio
  // ---------------------------------------------------------------------------

  predicate Bullish(c: Candle)
  {
    c.close > c.open
  }

  function CountBullish(c: seq<Candle>): (k: nat)
    ensures k <= |c|
  {
    if |c| == 0 then 0
    else CountBullish(c[..|c| - 1]) + (if Bullish(c[|c| - 1]) then 1 else 0)
  }

  /** Share of the last n candles that closed above their open. */
  function GetBullishRatio(df: Option<seq<Candle>>, n: nat): (r: real)
    requires n > 0
    ensures 0.0 <= r <= 1.0
    ensures df.None? || |df.value| < n ==> r == 0.0
  {
    if df.None? || |df.value| < n then 0.0
    else
      RatioBounds(CountBullish(Last(df.value, n)), n);
      (CountBullish(Last(df.value, n)) as real) / (n as real)
  }

  lemma {:induction false} CountBullishAll(c: seq<Candle>)
    ensures CountBullish(c) == |c| <==> forall i :: 0 <= i < |c| ==> Bullish(c[i])
  {
    if |c| > 0 {
      CountBullishAll(c[..|c| - 1]);
      assert forall i :: 0 <= i < |c| - 1 ==> c[..|c| - 1][i] == c[i];
    }
  }

  lemma {:induction false} CountBullishNone(c: seq<Candle>)
    ensures CountBullish(c) == 0 <==> forall i :: 0 <= i < |c| ==> !Bullish(c[i])
  {
    if |c| > 0 {
      CountBullishNone(c[..|c| - 1]);
      assert forall i :: 0 <= i < |c| - 1 ==> c[..|c| - 1][i] == c[i];
    }
  }

  /** The ratio is 1 exactly when each of the last n candles is bullish,
      and 0 exactly when none of them is. */
  lemma {:induction false} BullishRatioExtremes(c: seq<Candle>, n: nat)
    requires 0 < n <= |c|
    ensures GetBullishRatio(Some(c), n) == 1.0 <==> forall i :: |c| - n <= i < |c| ==> Bullish(c[i])
    ensures GetBullishRatio(Some(c), n) == 0.0 <==> forall i :: |c| - n <= i < |c| ==> !Bullish(c[i])
  {
    var w := Last(c, n);
    CountBullishAll(w);
    CountBullishNone(w);
    var k := CountBullish(w);
    assert GetBullishRatio(Some(c), n) == (k as real) / (n as real);
    RatioExtremes(k, n);
    assert (forall i :: 0 <= i < n ==> Bullish(w[i])) <==> (forall i :: |c| - n <= i < |c| ==> Bullish(c[i])) by {
      if forall i :: 0 <= i < n ==> Bullish(w[i]) {
        forall i | |c| - n <= i < |c| ensures Bullish(c[i]) {
          assert w[i - (|c| - n)] == c[i];
        }
      }
    }
    assert (forall i :: 0 <= i < n ==> !Bullish(w[i])) <==> (forall i :: |c| - n <= i < |c| ==> !Bullish(c[i])) by {
      if forall i :: 0 <= i < n ==> !Bullish(w[i]) {
        forall i | |c| - n <= i < |c| ensures !Bullish(c[i]) {
          assert w[i - (|c| - n)] == c[i];
        }
      }
    }
  }

  // ---------------------------------------------------------------------------
  // Market symbols: "KRW-BTC" names the coin "BTC"
  // ---------------------------------------------------------------------------

  /** Position of the first occurrence of x in s. */
  function IndexOf(s: string, x: char): (r: Option<nat>)
    ensures r.None? <==> x !in s
    ensures r.Some? ==> r.value < |s| && s[r.value] == x && x !in s[..r.value]
  {
    if |s| == 0 then None
    else if s[0] == x then Some(0)
    else match IndexOf(s[1..], x)
      case None => None
      case Some(i) =>
        assert s[..i + 1] == [s[0]] + s[1..][..i];
        Some(i + 1)
  }

  /** `ticker.split("-")[1]`: the field after the first '-', up to the next '-'.
      None when the symbol has no '-', where the index raises. */
  function BaseAsset(ticker: string): (r: Option<string>)
    ensures r.None? <==> '-' !in ticker
    ensures r.Some? ==> '-' !in r.value
  {
    match IndexOf(ticker, '-')
    case None => None
    case Some(i) =>
      var rest := ticker[i + 1..];
      match IndexOf(rest, '-')
      case None => Some(rest)
      case Some(j) => Some(rest[..j])
  }

  /** The first x in p + [x] + r is the one after p, when p holds none. */
  lemma {:induction false} IndexOfAfterPrefix(p: string, x: char, r: string)
    requires x !in p
    ensures IndexOf(p + [x] + r, x) == Some(|p|)
  {
    var s := p + [x] + r;
    assert s[|p|] == x;
    assert forall j :: 0 <= j < |p| ==> s[j] == p[j];
    assert forall j :: |p| < j <= |s| ==> s[..j][|p|] == x;
  }

  /** A symbol built as quote + "-" + base (+ further '-' fields) names the base. */
  lemma {:induction false} BaseAssetOfMarket(quote: string, base: string, tail: string)
    requires '-' !in quote && '-' !in base
    requires tail == [] || tail[0] == '-'
    ensures BaseAsset(quote + "-" + base + tail) == Some(base)
  {
    var s := quote + "-" + base + tail;
    assert s == quote + ['-'] + (base + tail);
    IndexOfAfterPrefix(quote, '-', base + tail);
    var rest := s[|quote| + 1..];
    assert rest == base + tail;
    if tail == [] {
      assert rest == base;
      assert IndexOf(rest, '-').None?;
    } else {
      assert rest == base + ['-'] + tail[1..];
      IndexOfAfterPrefix(base, '-', tail[1..]);
      assert IndexOf(rest, '-') == Some(|base|);
      assert rest[..|base|] == base;
    }
  }

  // ---------------------------------------------------------------------------
  // PnL rate of one held coin
  // ---------------------------------------------------------------------------

  /** One entry of the account's balance list. */
  datatype Balance = Balance(currency: string, balance: real, avgBuyPrice: real)

  /** Index of the first balance entry for the coin. */
  function FirstHolding(balances: seq<Balance>, coin: string): (r: Option<nat>)
    ensures r.None? <==> forall i :: 0 <= i < |balances| ==> balances[i].currency != coin
    ensures r.Some? ==> r.value < |balances| && balances[r.value].currency == coin &&
                        forall j :: 0 <= j < r.value ==> balances[j].currency != coin
  {
    if |balances| == 0 then None
    else if balances[0].currency == coin then Some(0)
    else match FirstHolding(balances[1..], coin)
      case None => None
      case Some(i) => Some(i + 1)
  }

  /** (price - average buy price) / average buy price of the market's coin,
      taken from its first balance entry; 0.0 when the coin is not held, its
      average price or balance is 0, or the market has no non-zero price.
      None when the symbol has no '-' (the split raises). */
  function PnlRate(ticker: string, balances: seq<Balance>, prices: map<string, real>): (r: Option<real>)
    ensures r.None? <==> '-' !in ticker
  {
    match BaseAsset(ticker)
    case None => None
    case Some(coin) =>
      var k := FirstHolding(balances, coin);
      var avg := if k.Some? then balances[k.value].avgBuyPrice else 0.0;
      var volume := if k.Some? then balances[k.value].balance else 0.0;
      if avg == 0.0 || volume == 0.0 then Some(0.0)
      else if ticker !in prices || prices[ticker] == 0.0 then Some(0.0)
      else Some((prices[ticker] - avg) / avg)
  }

  lemma {:induction false} PnlRateNotHeld(ticker: string, balances: seq<Balance>, prices: map<string, real>, coin: string)
    requires BaseAsset(ticker) == Some(coin)
    requires forall i :: 0 <= i < |balances| ==> balances[i].currency != coin
    ensures PnlRate(ticker, balances, prices) == Some(0.0)
  {
  }

  lemma {:induction false} PnlRateNoPrice(ticker: string, balances: seq<Balance>, prices: map<string, real>)
    requires '-' in ticker
    requires ticker !in prices || prices[ticker] == 0.0
    ensures PnlRate(ticker, balances, prices) == Some(0.0)
  {
  }

  /** Only the first entry for the coin is read: one with a zero average price or
      a zero balance gives 0.0, whatever later entries say. */
  lemma {:induction false} PnlRateEmptyEntry(ticker: string, balances: seq<Balance>, prices: map<string, real>, coin: string, i: nat)
    requires BaseAsset(ticker) == Some(coin)
    requires i < |balances| && balances[i].currency == coin
    requires forall j :: 0 <= j < i ==> balances[j].currency != coin
    requires balances[i].avgBuyPrice == 0.0 || balances[i].balance == 0.0
    ensures PnlRate(ticker, balances, prices) == Some(0.0)
  {
    assert FirstHolding(balances, coin) == Some(i);
  }

  /** For a held and priced coin the rate is relative to the first matching entry,
      and with a positive average price it is at most `rate` exactly when the price
      is at most (1 + rate) times that average. */
  lemma {:induction false} PnlRateHeld(ticker: string, balances: seq<Balance>, prices: map<string, real>, coin: string, i: nat, rate: real)
    requires BaseAsset(ticker) == Some(coin)
    requires i < |balances| && balances[i].currency == coin
    requires forall j :: 0 <= j < i ==> balances[j].currency != coin
    requires balances[i].avgBuyPrice != 0.0 && balances[i].balance != 0.0
    requires ticker in prices && prices[ticker] != 0.0
    ensures PnlRate(ticker, balances, prices) == Some((prices[ticker] - balances[i].avgBuyPrice) / balances[i].avgBuyPrice)
    ensures balances[i].avgBuyPrice > 0.0 ==>
              (PnlRate(ticker, balances, prices).value <= rate <==> prices[ticker] <= (1.0 + rate) * balances[i].avgBuyPrice)
  {
    assert FirstHolding(balances, coin) == Some(i);
    var p, avg := prices[ticker], balances[i].avgBuyPrice;
    if avg > 0.0 {
      assert (p - avg) / avg <= rate <==> p - avg <= rate * avg;
    }
  }

  /** An average price of 100 and a price of 96.9 give a rate of -0.031. */
  lemma PnlRateExample()
    ensures PnlRate("KRW-BTC", [Balance("BTC", 1.0, 100.0)], map["KRW-BTC" := 96.9]) == Some(-0.031)
  {
    BaseAssetOfMarket("KRW", "BTC", "");
    assert "KRW" + "-" + "BTC" + "" == "KRW-BTC";
  }

  /** The loop of `get_ticker_pnl_rate`: scan the balances, stop at the first entry
      for the coin, then apply the guards. */
  method GetTickerPnlRate(ticker: string, balances: seq<Balance>, prices: map<string, real>)
    returns (r: Option<real>)
    ensures r == PnlRate(ticker, balances, prices)
  {
    var coin := BaseAsset(ticker);
    if coin.None? {
      return None;
    }
    var avgBuyPrice := 0.0;
    var volume := 0.0;
    var i := 0;
    while i < |balances|
      invariant 0 <= i <= |balances|
      invariant forall j :: 0 <= j < i ==> balances[j].currency != coin.value
      invariant avgBuyPrice == 0.0 && volume == 0.0
    {
      if balances[i].currency == coin.value {
        avgBuyPrice := balances[i].avgBuyPrice;
        volume := balances[i].balance;
        break;
      }
      i := i + 1;
    }
    ghost var k := FirstHolding(balances, coin.value);
    if i < |balances| {
      assert k == Some(i);
    } else {
      assert k == None;
    }
    if avgBuyPrice == 0.0 || volume == 0.0 {
      return Some(0.0);
    }
    if ticker !in prices || prices[ticker] == 0.0 {
      return Some(0.0);
    }
    r := Some((prices[ticker] - avgBuyPrice) / avgBuyPrice);
  }

  // ---------------------------------------------------------------------------
  // Trade strength
  // ---------------------------------------------------------------------------

  /** Which side initiated a trade tick: a buyer (BID) or a seller (ASK). */
  datatype Side = Bid | Ask

  datatype Trade = Trade(side: Side, volume: real)

  /** A buy/sell ratio, with +infinity for buying against no selling at all. */
  datatype Strength = Finite(value: real) | Infinite

  /** `strength > x` on the extended reals. */
  predicate StrengthAbove(s: Strength, x: real)
  {
    s.Infinite? || s.value > x
  }

  /** Total volume of the ticks initiated on one side. */
  function SideVolume(trades: seq<Trade>, side: Side): (r: real)
    ensures (forall i :: 0 <= i < |trades| ==> trades[i].volume >= 0.0) ==> r >= 0.0
  {
    if |trades| == 0 then 0.0
    else SideVolume(trades[..|trades| - 1], side) +
         (if trades[|trades| - 1].side == side then trades[|trades| - 1].volume else 0.0)
  }

  /** Buy volume over sell volume of the fetched ticks. None stands for a failed
      fetch or a malformed reply, both of which fall back to 1.0. */
  function TradeStrength(fetched: Option<seq<Trade>>): (s: Strength)
    ensures fetched.None? ==> s == Finite(1.0)
    ensures s.Infinite? <==> fetched.Some? && SideVolume(fetched.value, Ask) == 0.0 && SideVolume(fetched.value, Bid) > 0.0
  {
    match fetched
    case None => Finite(1.0)
    case Some(trades) =>
      var buy, sell := SideVolume(trades, Bid), SideVolume(trades, Ask);
      if sell == 0.0 then (if buy > 0.0 then Infinite else Finite(1.0))
      else Finite(buy / sell)
  }

  lemma RatioAboveOne(b: real, s: real)
    requires s > 0.0
    ensures b / s > 1.0 <==> b > s
    ensures b == s ==> b / s == 1.0
  {
    var q := b / s;
    assert b == q * s;
    assert q > 1.0 ==> q * s > 1.0 * s;
    assert q <= 1.0 ==> q * s <= 1.0 * s;
  }

  /** With non-negative volumes the strength exceeds 1.0 exactly when the buy
      volume exceeds the sell volume, and equal volumes give exactly 1.0. */
  lemma {:induction false} StrengthAboveOneIffBuyersLead(trades: seq<Trade>)
    requires forall i :: 0 <= i < |trades| ==> trades[i].volume >= 0.0
    ensures StrengthAbove(TradeStrength(Some(trades)), 1.0) <==> SideVolume(trades, Bid) > SideVolume(trades, Ask)
    ensures SideVolume(trades, Bid) == SideVolume(trades, Ask) ==> TradeStrength(Some(trades)) == Finite(1.0)
  {
    var buy, sell := SideVolume(trades, Bid), SideVolume(trades, Ask);
    if sell > 0.0 {
      RatioAboveOne(buy, sell);
    }
  }
}
