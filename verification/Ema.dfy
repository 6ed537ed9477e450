/** The exponential moving average (ema.go) over unbounded series of exact reals. */
module Ema {
  import opened Model
  import opened Reals

  function Mean(values: seq<real>): real
    requires values != []
  {
    Sum(values) / |values| as real
  }

  // The smoothing factor.
  function Weight(period: int): real
    requires period > 0
  {
    2.0 / (period + 1) as real
  }

  function Smooth(ema: real, value: real, period: int): real
    requires period > 0
  {
    Toward(ema, value, Weight(period))
  }

  // The average of a series: the mean of its first `period` values, then smoothed by each later one.
  function Ema(values: seq<real>, period: int): real
    requires 0 < period <= |values|
  {
    if |values| == period then Mean(values)
    else Smooth(Ema(values[..|values| - 1], period), values[|values| - 1], period)
  }

  predicate Computable(values: seq<real>, period: int) { 0 < period <= |values| }

  method CalculateSMA(values: seq<real>) returns (mean: real)
    requires values != []
    ensures mean == Mean(values)
  {
    var sum := 0.0;
    for i := 0 to |values|
      invariant sum == Sum(values[..i])
    {
      assert values[..i + 1][..i] == values[..i];
      sum := sum + values[i];
    }
    assert values[..|values|] == values;
    mean := sum / |values| as real;
  }

  method CalculateEMA(values: seq<real>, period: int) returns (r: Result<real>)
    ensures r.Ok? <==> 0 < period <= |values|
    ensures r == if Computable(values, period) then Ok(Ema(values, period)) else Err(Invalid)
  {
    if period <= 0 { return Err(Invalid); }
    if |values| == 0 { return Err(Invalid); }
    if |values| < period { return Err(Invalid); }
    var multiplier := 2.0 / (period + 1) as real;
    var ema := CalculateSMA(values[..period]);
    for i := period to |values|
      invariant ema == Ema(values[..i], period)
    {
      assert values[..i + 1][..i] == values[..i];
      ema := (values[i] - ema) * multiplier + ema;
    }
    assert values[..|values|] == values;
    r := Ok(ema);
  }

  // ---- what the average is ----

  // The seed is the mean of the window.
  lemma {:induction false} EmaSeed(values: seq<real>, period: int)
    requires 0 < period == |values|
    ensures period as real * Ema(values, period) == Sum(values)
  {
    MulDiv(Sum(values), period as real);
  }

  lemma WeightIs(period: int)
    requires period > 0
    ensures (period + 1) as real * Weight(period) == 2.0
  {
    MulDiv(2.0, (period + 1) as real);
  }

  lemma SmoothIs(ema: real, v: real, period: int)
    requires period > 0
    ensures (period + 1) as real * Smooth(ema, v, period) == (period - 1) as real * ema + 2.0 * v
  {
    var n, m, d := (period + 1) as real, Weight(period), v - ema;
    WeightIs(period);
    assert n * (d * m + ema) == n * m * d + n * ema;
    assert (period - 1) as real == n - 2.0;
    assert (n - 2.0) * ema == n * ema - 2.0 * ema;
  }

  // One more value v moves the average so that, with n the period, (n + 1) new == (n - 1) old + 2 v.
  lemma {:induction false} EmaNext(values: seq<real>, v: real, period: int)
    requires Computable(values, period)
    ensures (period + 1) as real * Ema(values + [v], period) == (period - 1) as real * Ema(values, period) + 2.0 * v
  {
    hide Smooth, Mean;
    assert (values + [v])[..|values|] == values;
    SmoothIs(Ema(values, period), v, period);
  }

  predicate Arithmetic(values: seq<real>, step: real) {
    forall i :: 0 < i < |values| ==> values[i] == values[i - 1] + step
  }

  // Where the middle of the last n terms of an arithmetic series lies.
  function Lagged(last: real, step: real, n: int): real { last - step * (n - 1) as real / 2.0 }

  lemma LaggedOne(last: real, step: real)
    ensures Times(1, Lagged(last, step, 1)) == last
  {}

  lemma LaggedSum(last: real, step: real, n: nat)
    requires n > 0
    ensures Times(n, Lagged(last, step, n)) + (last + step) == Times(n + 1, Lagged(last + step, step, n + 1))
  {
    var x, h := n as real, step / 2.0;
    assert Lagged(last, step, n) == last - (x - 1.0) * h;
    assert Lagged(last + step, step, n + 1) == last + 2.0 * h - x * h;
    assert x * (last - (x - 1.0) * h) == x * last - x * x * h + x * h;
    assert (x + 1.0) * (last + 2.0 * h - x * h) == x * last - x * x * h + x * h + last + 2.0 * h;
  }

  lemma LaggedNext(last: real, step: real, n: nat)
    requires n > 0
    ensures Times(n - 1, Lagged(last, step, n)) + 2.0 * (last + step) == Times(n + 1, Lagged(last + step, step, n))
  {
    var x, h := n as real, step / 2.0;
    assert Lagged(last, step, n) == last - (x - 1.0) * h;
    assert Lagged(last + step, step, n) == last + 2.0 * h - (x - 1.0) * h;
    assert (x - 1.0) * (last - (x - 1.0) * h) == (x - 1.0) * last - (x - 1.0) * (x - 1.0) * h;
    assert (x + 1.0) * (last + 2.0 * h - (x - 1.0) * h) == (x + 1.0) * last + 2.0 * (x + 1.0) * h - (x + 1.0) * (x - 1.0) * h;
    assert (x + 1.0) * (x - 1.0) * h == (x - 1.0) * (x - 1.0) * h + 2.0 * (x - 1.0) * h;
  }

  lemma TimesCancel(n: nat, x: real, y: real)
    requires n > 0 && Times(n, x) == Times(n, y)
    ensures x == y
  {
    var k := n as real;
    assert x * k == y * k;
    Cancel(x, y, k);
  }

  lemma {:induction false} ArithmeticSum(values: seq<real>, step: real)
    requires values != [] && Arithmetic(values, step)
    ensures Sum(values) == Times(|values|, Lagged(values[|values| - 1], step, |values|))
  {
    hide Lagged, Times;
    var front := values[..|values| - 1];
    if front == [] {
      LaggedOne(values[0], step);
    } else {
      ArithmeticSum(front, step);
      LaggedSum(front[|front| - 1], step, |front|);
    }
  }

  lemma {:induction false} EmaSeedTimes(values: seq<real>, period: int)
    requires 0 < period == |values|
    ensures Times(period, Ema(values, period)) == Sum(values)
  {
    EmaSeed(values, period);
  }

  lemma {:induction false} EmaNextTimes(values: seq<real>, v: real, period: int)
    requires Computable(values, period)
    ensures Times(period + 1, Ema(values + [v], period)) == Times(period - 1, Ema(values, period)) + 2.0 * v
  {
    hide Ema;
    EmaNext(values, v, period);
  }

  // On an arithmetic series of any length the average lags the last value by (period - 1) / 2 steps.
  lemma {:induction false} EmaLag(values: seq<real>, period: int, step: real)
    requires Computable(values, period) && Arithmetic(values, step)
    ensures Ema(values, period) == values[|values| - 1] - step * (period - 1) as real / 2.0
  {
    EmaLagged(values, period, step);
  }

  lemma {:induction false} EmaLagged(values: seq<real>, period: int, step: real)
    requires Computable(values, period) && Arithmetic(values, step)
    ensures Ema(values, period) == Lagged(values[|values| - 1], step, period)
  {
    hide Lagged, Times, Ema;
    if |values| == period {
      EmaSeedTimes(values, period);
      ArithmeticSum(values, step);
      TimesCancel(period, Ema(values, period), Lagged(values[|values| - 1], step, period));
    } else {
      var front, last := values[..|values| - 1], values[|values| - 1];
      assert values == front + [last];
      EmaLagged(front, period, step);
      EmaNextTimes(front, last, period);
      LaggedNext(front[|front| - 1], step, period);
      TimesCancel(period + 1, Ema(values, period), Lagged(last, step, period));
    }
  }

  // ---- bounds ----

  predicate AllBetween(values: seq<real>, lo: real, hi: real) {
    forall i :: 0 <= i < |values| ==> lo <= values[i] <= hi
  }

  lemma {:induction false} SumBounds(values: seq<real>, lo: real, hi: real)
    requires AllBetween(values, lo, hi)
    ensures Times(|values|, lo) <= Sum(values) <= Times(|values|, hi)
  {
    hide Times;
    if values == [] {
      TimesZero(lo);
      TimesZero(hi);
    } else {
      SumBounds(values[..|values| - 1], lo, hi);
      TimesNext(|values|, lo);
      TimesNext(|values|, hi);
    }
  }

  lemma MeanBounds(values: seq<real>, lo: real, hi: real)
    requires values != [] && AllBetween(values, lo, hi)
    ensures lo <= Mean(values) <= hi
  {
    SumBounds(values, lo, hi);
    var n := |values| as real;
    MulDiv(Sum(values), n);
    CancelLeq(lo, Mean(values), n);
    CancelLeq(Mean(values), hi, n);
  }

  lemma WeightBounds(period: int)
    requires period > 0
    ensures 0.0 < Weight(period) <= 1.0
    ensures Weight(period) == 1.0 <==> period == 1
  {
    var d, w := (period + 1) as real, Weight(period);
    MulDiv(2.0, d);
    assert w * d == 2.0;
    CancelLeq(w, 1.0, d);
    if w <= 0.0 { MulMono(w, 0.0, d); }
  }

  // The average lies between the least and the greatest value of the series.
  lemma {:induction false} EmaBounds(values: seq<real>, period: int, lo: real, hi: real)
    requires Computable(values, period) && AllBetween(values, lo, hi)
    ensures lo <= Ema(values, period) <= hi
  {
    hide Weight, Mean;
    if |values| == period {
      MeanBounds(values, lo, hi);
    } else {
      EmaBounds(values[..|values| - 1], period, lo, hi);
      WeightBounds(period);
      Between(Ema(values[..|values| - 1], period), values[|values| - 1], Weight(period), lo, hi);
    }
  }

  // Some value of the series is at most the average and some is at least it.
  lemma {:induction false} EmaWithin(values: seq<real>, period: int)
    requires Computable(values, period)
    ensures exists i, j :: 0 <= i < |values| && 0 <= j < |values| && values[i] <= Ema(values, period) <= values[j]
  {
    var least, greatest := Extremes(values);
    EmaBounds(values, period, values[least], values[greatest]);
  }

  // ---- affine maps ----

  function Affine(values: seq<real>, a: real, b: real): seq<real> {
    seq(|values|, i requires 0 <= i < |values| => a * values[i] + b)
  }

  lemma AffineFront(values: seq<real>, a: real, b: real)
    requires values != []
    ensures Affine(values, a, b)[..|values| - 1] == Affine(values[..|values| - 1], a, b)
    ensures Affine(values, a, b)[|values| - 1] == a * values[|values| - 1] + b
  {
    var all, front := Affine(values, a, b), Affine(values[..|values| - 1], a, b);
    forall i | 0 <= i < |values| - 1 ensures all[..|values| - 1][i] == front[i] {
      assert all[i] == a * values[i] + b && front[i] == a * values[..|values| - 1][i] + b;
    }
  }

  lemma SumAffineStep(s: real, v: real, a: real, b: real, n: nat)
    requires n > 0
    ensures a * s + Times(n - 1, b) + (a * v + b) == a * (s + v) + Times(n, b)
  {
    TimesNext(n, b);
  }

  lemma {:induction false} SumAffine(values: seq<real>, a: real, b: real)
    ensures Sum(Affine(values, a, b)) == a * Sum(values) + Times(|values|, b)
  {
    if values != [] {
      AffineFront(values, a, b);
      SumAffine(values[..|values| - 1], a, b);
      SumAffineStep(Sum(values[..|values| - 1]), values[|values| - 1], a, b, |values|);
    }
  }

  lemma MeanAffine(values: seq<real>, a: real, b: real)
    requires values != []
    ensures Mean(Affine(values, a, b)) == a * Mean(values) + b
  {
    SumAffine(values, a, b);
    var n, m := |values| as real, Mean(values);
    MulDiv(Sum(values), n);
    MulDiv(Sum(Affine(values, a, b)), n);
    assert (a * m + b) * n == a * (m * n) + b * n;
    Cancel(Mean(Affine(values, a, b)), a * m + b, n);
  }

  lemma SmoothAffine(ema: real, value: real, m: real, a: real, b: real)
    ensures ((a * value + b) - (a * ema + b)) * m + (a * ema + b) == a * ((value - ema) * m + ema) + b
  {
    var d := value - ema;
    assert (a * value + b) - (a * ema + b) == a * d;
    assert a * d * m == a * (d * m);
    assert a * (d * m + ema) == a * (d * m) + a * ema;
  }

  // Rescaling and shifting every value rescales and shifts the average.
  lemma {:induction false} EmaAffine(values: seq<real>, period: int, a: real, b: real)
    requires Computable(values, period)
    ensures Ema(Affine(values, a, b), period) == a * Ema(values, period) + b
  {
    hide Weight, Mean, Affine;
    AffineSize(values, a, b);
    if |values| == period {
      MeanAffine(values, a, b);
    } else {
      AffineFront(values, a, b);
      EmaAffine(values[..|values| - 1], period, a, b);
      SmoothAffine(Ema(values[..|values| - 1], period), values[|values| - 1], Weight(period), a, b);
    }
  }

  lemma AffineSize(values: seq<real>, a: real, b: real)
    ensures |Affine(values, a, b)| == |values|
  {}

  // ---- the last value against the average ----

  lemma GapShrinks(last: real, before: real, m: real)
    requires 0.0 < m <= 1.0
    ensures last > (last - before) * m + before <==> m != 1.0 && last > before
  {
    var d, k := last - before, 1.0 - m;
    assert last - (d * m + before) == d * k;
    if d > 0.0 && k > 0.0 {
      MulStrict(0.0, d, k);
    } else if d <= 0.0 {
      MulMono(d, 0.0, k);
    }
  }

  // Beyond the seed, the last value exceeds the average exactly when it exceeds the average of the
  // series without it; with period 1 it never does, as the average is the last value.
  lemma {:induction false} LastAbove(values: seq<real>, period: int)
    requires 0 < period < |values|
    ensures values[|values| - 1] > Ema(values, period)
       <==> period >= 2 && values[|values| - 1] > Ema(values[..|values| - 1], period)
  {
    hide Weight, Mean;
    WeightBounds(period);
    GapShrinks(values[|values| - 1], Ema(values[..|values| - 1], period), Weight(period));
  }

  // Where a series is least and where it is greatest.
  lemma Extremes(values: seq<real>) returns (least: nat, greatest: nat)
    requires values != []
    ensures least < |values| && greatest < |values|
    ensures AllBetween(values, values[least], values[greatest])
  {
    least, greatest := 0, 0;
    for i := 0 to |values|
      invariant least < |values| && greatest < |values|
      invariant forall k :: 0 <= k < i ==> values[least] <= values[k] <= values[greatest]
    {
      if values[i] < values[least] { least := i; }
      if values[i] > values[greatest] { greatest := i; }
    }
  }

  ghost predicate SomeEarlierLower(values: seq<real>) {
    exists i :: 0 <= i < |values| - 1 && values[i] < values[|values| - 1]
  }

  // A last value above the average is above some earlier value.
  lemma {:induction false} AboveSomeEarlier(values: seq<real>, period: int)
    requires Computable(values, period) && values[|values| - 1] > Ema(values, period)
    ensures SomeEarlierLower(values)
  {
    var least, greatest := Extremes(values);
    EmaBounds(values, period, values[least], values[greatest]);
    assert values[least] < values[|values| - 1];
  }
}
