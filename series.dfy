/** Candle series and the sums and means that every indicator is built from.
    A series is ordered oldest to newest, like the rows of an OHLCV frame. */
module Series {

  datatype Option<+T> = None | Some(value: T)

  /** One time bucket of one market. */
  datatype Candle = Candle(open: real, high: real, low: real, close: real, volume: real)

  /** xs[0] + ... + xs[n - 1], accumulated from the front to the back. */
  function SumTo(xs: seq<real>, n: nat): real
    requires n <= |xs|
  {
    if n == 0 then 0.0 else SumTo(xs, n - 1) + xs[n - 1]
  }

  /** Sum of a sequence. */
  function Sum(xs: seq<real>): real
  {
    SumTo(xs, |xs|)
  }

  /** Arithmetic mean of a non-empty window. */
  function Mean(xs: seq<real>): real
    requires |xs| > 0
  {
    Sum(xs) / (|xs| as real)
  }

  /** The last n elements of a sequence (pandas `iloc[-n:]`). */
  function Last<T>(s: seq<T>, n: nat): (r: seq<T>)
    requires n <= |s|
    ensures |r| == n
    ensures forall i :: 0 <= i < n ==> r[i] == s[|s| - n + i]
  {
    s[|s| - n..]
  }

  function Volumes(c: seq<Candle>): (r: seq<real>)
    ensures |r| == |c|
  {
    seq(|c|, i requires 0 <= i < |c| => c[i].volume)
  }

  function Closes(c: seq<Candle>): (r: seq<real>)
    ensures |r| == |c|
  {
    seq(|c|, i requires 0 <= i < |c| => c[i].close)
  }

  function Lows(c: seq<Candle>): (r: seq<real>)
    ensures |r| == |c|
  {
    seq(|c|, i requires 0 <= i < |c| => c[i].low)
  }

  function Highs(c: seq<Candle>): (r: seq<real>)
    ensures |r| == |c|
  {
    seq(|c|, i requires 0 <= i < |c| => c[i].high)
  }

  /** Every element mapped through x |-> k * x + d. */
  function Affine(xs: seq<real>, k: real, d: real): (r: seq<real>)
    ensures |r| == |xs|
  {
    seq(|xs|, i requires 0 <= i < |xs| => k * xs[i] + d)
  }

  /** Every candle's volume multiplied by k, prices untouched. */
  function ScaleVolumes(c: seq<Candle>, k: real): (r: seq<Candle>)
    ensures |r| == |c|
  {
    seq(|c|, i requires 0 <= i < |c| => c[i].(volume := k * c[i].volume))
  }

  /** The prefix sums of the mapped sequence, with the sums passed in as s and t. */
  lemma {:induction false} SumToAffine(xs: seq<real>, k: real, d: real, n: nat, s: real, t: real)
    requires n <= |xs| && s == SumTo(xs, n) && t == SumTo(Affine(xs, k, d), n)
    ensures t == k * s + (n as real) * d
  {
    if n > 0 {
      SumToAffine(xs, k, d, n - 1, SumTo(xs, n - 1), SumTo(Affine(xs, k, d), n - 1));
    }
  }

  lemma {:induction false} SumAffine(xs: seq<real>, k: real, d: real)
    ensures Sum(Affine(xs, k, d)) == k * Sum(xs) + (|xs| as real) * d
  {
    SumToAffine(xs, k, d, |xs|, Sum(xs), Sum(Affine(xs, k, d)));
  }

  lemma {:induction false} MeanAffine(xs: seq<real>, k: real, d: real)
    requires |xs| > 0
    ensures Mean(Affine(xs, k, d)) == k * Mean(xs) + d
  {
    SumAffine(xs, k, d);
    var n := |xs| as real;
    calc {
      Mean(Affine(xs, k, d));
      (k * Sum(xs) + n * d) / n;
      k * (Sum(xs) / n) + d;
    }
  }

  /** Taking a window commutes with the affine map. */
  lemma {:induction false} AffineSlice(xs: seq<real>, k: real, d: real, lo: nat, hi: nat)
    requires lo <= hi <= |xs|
    ensures Affine(xs, k, d)[lo..hi] == Affine(xs[lo..hi], k, d)
  {
    var l, r := Affine(xs, k, d)[lo..hi], Affine(xs[lo..hi], k, d);
    assert |l| == |r|;
    forall i | 0 <= i < |l| ensures l[i] == r[i] {
      assert l[i] == Affine(xs, k, d)[lo + i] == k * xs[lo + i] + d;
      assert r[i] == k * xs[lo..hi][i] + d;
    }
  }

  lemma {:induction false} SumToNonNegative(xs: seq<real>, n: nat)
    requires n <= |xs|
    requires forall i :: 0 <= i < |xs| ==> xs[i] >= 0.0
    ensures SumTo(xs, n) >= 0.0
  {
    if n > 0 {
      SumToNonNegative(xs, n - 1);
    }
  }

  lemma {:induction false} SumNonNegative(xs: seq<real>)
    requires forall i :: 0 <= i < |xs| ==> xs[i] >= 0.0
    ensures Sum(xs) >= 0.0
  {
    SumToNonNegative(xs, |xs|);
  }

  lemma {:induction false} SumToConstant(xs: seq<real>, c: real, n: nat)
    requires n <= |xs|
    requires forall i :: 0 <= i < |xs| ==> xs[i] == c
    ensures SumTo(xs, n) == (n as real) * c
  {
    if n > 0 {
      SumToConstant(xs, c, n - 1);
    }
  }

  lemma {:induction false} SumConstant(xs: seq<real>, c: real)
    requires forall i :: 0 <= i < |xs| ==> xs[i] == c
    ensures Sum(xs) == (|xs| as real) * c
  {
    SumToConstant(xs, c, |xs|);
  }

  lemma {:induction false} MeanConstant(xs: seq<real>, c: real)
    requires |xs| > 0
    requires forall i :: 0 <= i < |xs| ==> xs[i] == c
    ensures Mean(xs) == c
  {
    SumConstant(xs, c);
  }
}
