/** Wilder's relative strength index (rsi.go) over unbounded series of exact reals. */
module Rsi {
  import opened Model
  import opened Reals

  function Gain(prices: seq<real>, i: nat): real
    requires 0 < i < |prices|
  {
    Max(0.0, prices[i] - prices[i - 1])
  }

  function Loss(prices: seq<real>, i: nat): real
    requires 0 < i < |prices|
  {
    Max(0.0, prices[i - 1] - prices[i])
  }

  // A series of changes: the gains or the losses of a price series, numbered from 1.
  type Changes = seq<real>

  function Gains(prices: seq<real>): Changes
    requires prices != []
  {
    seq(|prices| - 1, i requires 0 <= i < |prices| - 1 => Gain(prices, i + 1))
  }

  function Losses(prices: seq<real>): Changes
    requires prices != []
  {
    seq(|prices| - 1, i requires 0 <= i < |prices| - 1 => Loss(prices, i + 1))
  }

  // Wilder's average: the mean of the first `period` changes, then smoothed by each later one.
  function Average(xs: Changes, period: int): real
    requires 0 < period <= |xs|
  {
    if |xs| == period then Sum(xs) / period as real
    else Wilder(Average(xs[..|xs| - 1], period), xs[|xs| - 1], period)
  }

  function Wilder(average: real, change: real, period: int): real
    requires period > 0
  {
    (average * (period - 1) as real + change) / period as real
  }

  predicate Computable(prices: seq<real>, period: int) { 0 < period < |prices| }

  function AvgGain(prices: seq<real>, period: int): real
    requires Computable(prices, period)
  {
    Average(Gains(prices), period)
  }

  function AvgLoss(prices: seq<real>, period: int): real
    requires Computable(prices, period)
  {
    Average(Losses(prices), period)
  }

  // The index: 100 G / (G + L), and 100 when neither average moved.
  function Index(gain: real, loss: real): real
    requires gain >= 0.0 && loss >= 0.0
  {
    if gain + loss == 0.0 then 100.0 else 100.0 * gain / (gain + loss)
  }

  predicate NonNegative(xs: Changes) { forall i :: 0 <= i < |xs| ==> xs[i] >= 0.0 }

  predicate AllZero(xs: Changes) { forall i :: 0 <= i < |xs| ==> xs[i] == 0.0 }

  lemma {:induction false} SumSign(xs: Changes)
    requires NonNegative(xs)
    ensures Sum(xs) >= 0.0 && (Sum(xs) == 0.0 <==> AllZero(xs))
  {
    if xs != [] {
      SumSign(xs[..|xs| - 1]);
      assert AllZero(xs) <==> AllZero(xs[..|xs| - 1]) && xs[|xs| - 1] == 0.0;
    }
  }

  lemma WilderSign(average: real, change: real, period: int)
    requires average >= 0.0 && change >= 0.0 && period > 0
    ensures Wilder(average, change, period) >= 0.0
    ensures period >= 2 ==> (Wilder(average, change, period) == 0.0 <==> average == 0.0 && change == 0.0)
  {
    var k := (period - 1) as real;
    MulMono(0.0, average, k);
    if period >= 2 && average > 0.0 { MulStrict(0.0, average, k); }
    Quotient(average * k + change, period as real);
  }

  // Averages of non-negative changes are non-negative; for period at least 2 they are zero exactly
  // when every change is.
  lemma {:induction false} AverageSign(xs: Changes, period: int)
    requires 0 < period <= |xs| && NonNegative(xs)
    ensures Average(xs, period) >= 0.0
    ensures period >= 2 ==> (Average(xs, period) == 0.0 <==> AllZero(xs))
  {
    hide Wilder;
    if |xs| == period {
      SumSign(xs);
      Quotient(Sum(xs), period as real);
    } else {
      AverageSign(xs[..|xs| - 1], period);
      WilderSign(Average(xs[..|xs| - 1], period), xs[|xs| - 1], period);
      assert AllZero(xs) <==> AllZero(xs[..|xs| - 1]) && xs[|xs| - 1] == 0.0;
    }
  }

  lemma ChangesSign(prices: seq<real>)
    requires prices != []
    ensures NonNegative(Gains(prices)) && NonNegative(Losses(prices))
  {}

  lemma AveragesSign(prices: seq<real>, period: int)
    requires Computable(prices, period)
    ensures AvgGain(prices, period) >= 0.0 && AvgLoss(prices, period) >= 0.0
  {
    ChangesSign(prices);
    AverageSign(Gains(prices), period);
    AverageSign(Losses(prices), period);
  }

  function Rsi(prices: seq<real>, period: int): real
    requires Computable(prices, period)
  {
    AveragesSign(prices, period);
    Index(AvgGain(prices, period), AvgLoss(prices, period))
  }

  // ---- the two loops ----

  // One change, split by sign as the loops do.
  method Change(prices: seq<real>, i: nat) returns (gain: real, loss: real)
    requires 0 < i < |prices|
    ensures gain == Gain(prices, i) && loss == Loss(prices, i)
  {
    var change := prices[i] - prices[i - 1];
    gain, loss := 0.0, 0.0;
    if change > 0.0 {
      gain := change;
    } else if change < 0.0 {
      loss := -change;
    }
  }

  lemma Prefixes(prices: seq<real>, i: nat)
    requires 0 < i < |prices|
    ensures Gains(prices[..i + 1]) == Gains(prices[..i]) + [Gain(prices, i)]
    ensures Losses(prices[..i + 1]) == Losses(prices[..i]) + [Loss(prices, i)]
  {
    assert Gains(prices[..i + 1])[..i - 1] == Gains(prices[..i]);
    assert Losses(prices[..i + 1])[..i - 1] == Losses(prices[..i]);
  }

  lemma {:induction false} SumSnoc(xs: Changes, x: real)
    ensures Sum(xs + [x]) == Sum(xs) + x
  {
    assert (xs + [x])[..|xs|] == xs;
  }

  lemma {:induction false} AverageSnoc(xs: Changes, x: real, period: int)
    requires 0 < period <= |xs|
    ensures Average(xs + [x], period) == Wilder(Average(xs, period), x, period)
  {
    hide Wilder;
    assert (xs + [x])[..|xs|] == xs;
  }

  // One iteration of the smoothing loop.
  lemma SmoothNext(prices: seq<real>, i: nat, period: int)
    requires 0 < period < i < |prices|
    ensures AvgGain(prices[..i + 1], period) == Wilder(AvgGain(prices[..i], period), Gain(prices, i), period)
    ensures AvgLoss(prices[..i + 1], period) == Wilder(AvgLoss(prices[..i], period), Loss(prices, i), period)
  {
    hide Wilder;
    Prefixes(prices, i);
    AverageSnoc(Gains(prices[..i]), Gain(prices, i), period);
    AverageSnoc(Losses(prices[..i]), Loss(prices, i), period);
  }

  lemma WilderStep(average: real, change: real, period: int)
    requires period > 0
    ensures (average * (period - 1) as real + change) / period as real == Wilder(average, change, period)
  {}

  method CalculateRSI(prices: seq<real>, period: int) returns (r: Result<real>)
    ensures r.Ok? <==> 0 < period < |prices|
    ensures r == if Computable(prices, period) then Ok(Rsi(prices, period)) else Err(Invalid)
  {
    if period <= 0 { return Err(Invalid); }
    if |prices| <= period { return Err(Invalid); }
    var avgGain, avgLoss := SeedAverages(prices, period);
    avgGain, avgLoss := SmoothAverages(prices, period, avgGain, avgLoss);
    AveragesSign(prices, period);
    if avgLoss == 0.0 {
      AllGain(avgGain);
      return Ok(100.0);
    }
    StrengthIsIndex(avgGain, avgLoss);
    var rs := avgGain / avgLoss;
    r := Ok(100.0 - 100.0 / (1.0 + rs));
  }

  // The seed loop over the first `period` changes.
  method SeedAverages(prices: seq<real>, period: int) returns (avgGain: real, avgLoss: real)
    requires Computable(prices, period)
    ensures avgGain == AvgGain(prices[..period + 1], period) && avgLoss == AvgLoss(prices[..period + 1], period)
  {
    var sumGain, sumLoss := 0.0, 0.0;
    for i := 1 to period + 1
      invariant sumGain == Sum(Gains(prices[..i])) && sumLoss == Sum(Losses(prices[..i]))
    {
      var gain, loss := Change(prices, i);
      Prefixes(prices, i);
      SumSnoc(Gains(prices[..i]), gain);
      SumSnoc(Losses(prices[..i]), loss);
      sumGain, sumLoss := sumGain + gain, sumLoss + loss;
    }
    avgGain, avgLoss := sumGain / period as real, sumLoss / period as real;
  }

  // Wilder's smoothing loop over the remaining bars.
  method SmoothAverages(prices: seq<real>, period: int, seedGain: real, seedLoss: real) returns (avgGain: real, avgLoss: real)
    requires Computable(prices, period)
    requires seedGain == AvgGain(prices[..period + 1], period) && seedLoss == AvgLoss(prices[..period + 1], period)
    ensures avgGain == AvgGain(prices, period) && avgLoss == AvgLoss(prices, period)
  {
    hide Wilder, Average, Gains, Losses, Gain, Loss;
    avgGain, avgLoss := seedGain, seedLoss;
    for i := period + 1 to |prices|
      invariant avgGain == AvgGain(prices[..i], period) && avgLoss == AvgLoss(prices[..i], period)
    {
      var gain, loss := Change(prices, i);
      SmoothNext(prices, i, period);
      WilderStep(avgGain, gain, period);
      WilderStep(avgLoss, loss, period);
      avgGain := (avgGain * (period - 1) as real + gain) / period as real;
      avgLoss := (avgLoss * (period - 1) as real + loss) / period as real;
    }
    assert prices[..|prices|] == prices;
  }

  lemma AllGain(gain: real)
    requires gain >= 0.0
    ensures Index(gain, 0.0) == 100.0
  {
    if gain != 0.0 {
      MulDiv(100.0 * gain, gain + 0.0);
      Cancel(Index(gain, 0.0), 100.0, gain);
    }
  }

  // The code's 100 - 100 / (1 + G/L) is the index.
  lemma StrengthIsIndex(gain: real, loss: real)
    requires gain >= 0.0 && loss > 0.0
    ensures 1.0 + gain / loss != 0.0 && 100.0 - 100.0 / (1.0 + gain / loss) == Index(gain, loss)
  {
    var rs, total := gain / loss, gain + loss;
    MulDiv(gain, loss);
    Quotient(gain, loss);
    var x, y := 100.0 / (1.0 + rs), Index(gain, loss);
    MulDiv(100.0, 1.0 + rs);
    MulDiv(100.0 * gain, total);
    assert (1.0 + rs) * loss == total;
    assert x * (1.0 + rs) == 100.0;
    assert x * total == 100.0 * loss by { assert x * ((1.0 + rs) * loss) == x * (1.0 + rs) * loss; }
    assert (100.0 - x) * total == 100.0 * total - x * total;
    Cancel(100.0 - x, y, total);
  }

  // ---- what the averages and the index are ----

  lemma WilderIs(average: real, change: real, period: int)
    requires period > 0
    ensures period as real * Wilder(average, change, period) == (period - 1) as real * average + change
  {
    MulDiv(average * (period - 1) as real + change, period as real);
  }

  // The seeds are the means of the first gains and losses.
  lemma AveragesSeed(prices: seq<real>, period: int)
    requires 0 < period == |prices| - 1
    ensures period as real * AvgGain(prices, period) == Sum(Gains(prices))
    ensures period as real * AvgLoss(prices, period) == Sum(Losses(prices))
  {
    MulDiv(Sum(Gains(prices)), period as real);
    MulDiv(Sum(Losses(prices)), period as real);
  }

  // One more close moves each average so that, with n the period, n new == (n - 1) old + the gain or the
  // loss, of which at most one is not zero.
  lemma AveragesNext(prices: seq<real>, close: real, period: int)
    requires Computable(prices, period)
    ensures var n, change := period as real, close - prices[|prices| - 1];
      && n * AvgGain(prices + [close], period) == (period - 1) as real * AvgGain(prices, period) + (if change > 0.0 then change else 0.0)
      && n * AvgLoss(prices + [close], period) == (period - 1) as real * AvgLoss(prices, period) + (if change < 0.0 then -change else 0.0)
  {
    hide Average, Wilder;
    var all, i := prices + [close], |prices|;
    assert all[..i] == prices && all[..i + 1] == all;
    SmoothNext(all, i, period);
    WilderIs(AvgGain(prices, period), Gain(all, i), period);
    WilderIs(AvgLoss(prices, period), Loss(all, i), period);
  }

  // The index is the gains' share of the two averages in per cent, and 100 when nothing moved.
  lemma IndexIsShare(prices: seq<real>, period: int)
    requires Computable(prices, period)
    ensures var gain, loss := AvgGain(prices, period), AvgLoss(prices, period);
      if gain + loss == 0.0 then Rsi(prices, period) == 100.0
      else Rsi(prices, period) * (gain + loss) == 100.0 * gain
  {
    hide Average;
    AveragesSign(prices, period);
    var gain, loss := AvgGain(prices, period), AvgLoss(prices, period);
    if gain + loss != 0.0 { MulDiv(100.0 * gain, gain + loss); }
  }

  // ---- range and extremes ----

  lemma IndexRange(gain: real, loss: real)
    requires gain >= 0.0 && loss >= 0.0
    ensures 0.0 <= Index(gain, loss) <= 100.0
    ensures Index(gain, loss) == 100.0 <==> loss == 0.0
  {
    var total := gain + loss;
    if total != 0.0 {
      var x := Index(gain, loss);
      MulDiv(100.0 * gain, total);
      CancelLeq(0.0, x, total);
      CancelLeq(x, 100.0, total);
      if loss == 0.0 { AllGain(gain); }
    }
  }

  predicate NeverFell(prices: seq<real>) {
    forall i :: 0 < i < |prices| ==> prices[i] >= prices[i - 1]
  }

  lemma NoLosses(prices: seq<real>)
    requires prices != []
    ensures AllZero(Losses(prices)) <==> NeverFell(prices)
  {
    if AllZero(Losses(prices)) {
      forall i | 0 < i < |prices| ensures prices[i] >= prices[i - 1] {
        assert Losses(prices)[i - 1] == Loss(prices, i);
      }
    }
  }

  // For period at least 2 the index is 100 exactly when no close fell anywhere in the series.
  lemma FullStrength(prices: seq<real>, period: int)
    requires Computable(prices, period)
    ensures 0.0 <= Rsi(prices, period) <= 100.0
    ensures period >= 2 ==> (Rsi(prices, period) == 100.0 <==> NeverFell(prices))
  {
    AveragesSign(prices, period);
    IndexRange(AvgGain(prices, period), AvgLoss(prices, period));
    ChangesSign(prices);
    AverageSign(Losses(prices), period);
    NoLosses(prices);
  }

  // ---- mirror images ----

  function Mirror(prices: seq<real>, c: real): seq<real> {
    seq(|prices|, i requires 0 <= i < |prices| => c - prices[i])
  }

  lemma MirrorSwaps(prices: seq<real>, c: real)
    requires prices != []
    ensures |Mirror(prices, c)| == |prices|
    ensures Gains(Mirror(prices, c)) == Losses(prices) && Losses(Mirror(prices, c)) == Gains(prices)
  {
    var image := Mirror(prices, c);
    forall i | 0 <= i < |prices| - 1
      ensures Gains(image)[i] == Losses(prices)[i] && Losses(image)[i] == Gains(prices)[i]
    {
      assert image[i] == c - prices[i] && image[i + 1] == c - prices[i + 1];
    }
  }

  // The index of a series and of its mirror image add up to 100, unless both averages are zero.
  lemma MirrorSum(prices: seq<real>, period: int, c: real)
    requires Computable(prices, period)
    requires AvgGain(prices, period) + AvgLoss(prices, period) != 0.0
    ensures |Mirror(prices, c)| == |prices|
    ensures Rsi(prices, period) + Rsi(Mirror(prices, c), period) == 100.0
  {
    hide Index, Average;
    MirrorSwaps(prices, c);
    AveragesSign(prices, period);
    Complement(AvgGain(prices, period), AvgLoss(prices, period));
  }

  lemma Complement(gain: real, loss: real)
    requires gain >= 0.0 && loss >= 0.0 && gain + loss != 0.0
    ensures Index(gain, loss) + Index(loss, gain) == 100.0
  {
    var total := gain + loss;
    var x, y := Index(gain, loss), Index(loss, gain);
    MulDiv(100.0 * gain, total);
    MulDiv(100.0 * loss, loss + gain);
    assert (x + y) * total == x * total + y * total;
    Cancel(x + y, 100.0, total);
  }

  // ---- one more close ----

  // A close that does not rise never raises an index below 100, for period at least 2.
  lemma NoRiseNoRaise(prices: seq<real>, period: int)
    requires Computable(prices, period) && period >= 2 && period < |prices| - 1
    requires prices[|prices| - 1] <= prices[|prices| - 2]
    requires Rsi(prices[..|prices| - 1], period) < 100.0
    ensures Rsi(prices, period) <= Rsi(prices[..|prices| - 1], period)
  {
    hide Index, Average, Wilder;
    var front, i := prices[..|prices| - 1], |prices| - 1;
    assert prices[..i + 1] == prices;
    SmoothNext(prices, i, period);
    AveragesSign(front, period);
    AveragesSign(prices, period);
    IndexRange(AvgGain(front, period), AvgLoss(front, period));
    assert Gain(prices, i) == 0.0;
    Diluted(AvgGain(front, period), AvgLoss(front, period), Loss(prices, i), period);
  }

  // With no gain the averages' ratio does not grow.
  lemma Diluted(gain: real, loss: real, more: real, period: int)
    requires gain >= 0.0 && loss > 0.0 && more >= 0.0 && period >= 2
    ensures Wilder(gain, 0.0, period) >= 0.0 && Wilder(loss, more, period) >= 0.0
    ensures Index(Wilder(gain, 0.0, period), Wilder(loss, more, period)) <= Index(gain, loss)
  {
    WilderSign(gain, 0.0, period);
    WilderSign(loss, more, period);
    RatioShrinks(gain, loss, more, period);
    CrossIndex(Wilder(gain, 0.0, period), Wilder(loss, more, period), gain, loss);
  }

  lemma RatioShrinks(gain: real, loss: real, more: real, period: int)
    requires gain >= 0.0 && loss > 0.0 && more >= 0.0 && period >= 2
    ensures Wilder(gain, 0.0, period) * loss <= gain * Wilder(loss, more, period)
  {
    var n, k := period as real, (period - 1) as real;
    var g, l := Wilder(gain, 0.0, period), Wilder(loss, more, period);
    MulDiv(gain * k + 0.0, n);
    MulDiv(loss * k + more, n);
    assert g * n == gain * k && l * n == loss * k + more;
    assert g * loss * n == g * n * loss;
    assert gain * l * n == gain * (l * n);
    assert gain * (loss * k + more) == gain * k * loss + gain * more;
    MulMono(0.0, more, gain);
    CancelLeq(g * loss, gain * l, n);
  }

  lemma CrossIndex(g: real, l: real, gain: real, loss: real)
    requires g >= 0.0 && l > 0.0 && gain >= 0.0 && loss > 0.0 && g * loss <= gain * l
    ensures Index(g, l) <= Index(gain, loss)
  {
    var x, y, s, t := Index(g, l), Index(gain, loss), g + l, gain + loss;
    MulDiv(100.0 * g, s);
    MulDiv(100.0 * gain, t);
    assert g * t <= gain * s;
    assert x * (s * t) == x * s * t && y * (s * t) == y * t * s;
    assert 100.0 * g * t == 100.0 * (g * t) && 100.0 * gain * s == 100.0 * (gain * s);
    MulStrict(0.0, s, t);
    CancelLeq(x, y, s * t);
  }
}
