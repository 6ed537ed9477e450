/** The average true range (atr.go) over unbounded series of bars. */
module Atr {
  import opened Model
  import opened Reals
  import Ema

  datatype Bar = Bar(high: real, low: real, close: real)

  function Abs(x: real): real { if x < 0.0 then -x else x }

  function TrueRange(bar: Bar, prevClose: real): real {
    Max(Abs(bar.high - bar.low), Max(Abs(bar.high - prevClose), Abs(bar.low - prevClose)))
  }

  function TrueRanges(bars: seq<Bar>): seq<real>
    requires bars != []
  {
    seq(|bars| - 1, i requires 0 <= i < |bars| - 1 => RangeAt(bars, i))
  }

  predicate Computable(bars: seq<Bar>, period: int) { 0 < period < |bars| }

  function Atr(bars: seq<Bar>, period: int): real
    requires Computable(bars, period)
  {
    Ema.Ema(TrueRanges(bars), period)
  }

  method CalculateATR(bars: seq<Bar>, period: int) returns (r: Result<real>)
    ensures r.Ok? <==> 0 < period < |bars|
    ensures r == if Computable(bars, period) then Ok(Atr(bars, period)) else Err(Invalid)
  {
    if period <= 0 { return Err(Invalid); }
    if |bars| == 0 { return Err(Invalid); }
    if |bars| < period + 1 { return Err(Invalid); }
    var trs := [];
    for i := 1 to |bars|
      invariant trs == TrueRanges(bars[..i])
    {
      assert TrueRanges(bars[..i + 1])[..i - 1] == TrueRanges(bars[..i]);
      trs := trs + [TrueRange(bars[i], bars[i - 1].close)];
    }
    assert bars[..|bars|] == bars;
    r := Ema.CalculateEMA(trs, period);
  }

  // ---- true ranges ----

  // For an ordinary bar the true range is the span of the bar and the previous close.
  lemma TrueRangeIsSpan(bar: Bar, prevClose: real)
    requires bar.low <= bar.high
    ensures TrueRange(bar, prevClose) == Max(bar.high, prevClose) - Min(bar.low, prevClose)
  {}

  predicate BarWithin(bar: Bar, lo: real, hi: real) {
    lo <= bar.high <= hi && lo <= bar.low <= hi && lo <= bar.close <= hi
  }

  predicate Within(bars: seq<Bar>, lo: real, hi: real) {
    forall i :: 0 <= i < |bars| ==> BarWithin(bars[i], lo, hi)
  }

  lemma RangeWithin(bar: Bar, before: Bar, lo: real, hi: real)
    requires BarWithin(bar, lo, hi) && BarWithin(before, lo, hi)
    ensures TrueRange(bar, before.close) <= hi - lo
  {}

  lemma RangeSign(bar: Bar, prevClose: real)
    ensures TrueRange(bar, prevClose) >= 0.0
  {}

  // The true range of bar i + 1.
  function RangeAt(bars: seq<Bar>, i: nat): real
    requires i < |bars| - 1
  {
    TrueRange(bars[i + 1], bars[i].close)
  }

  // ---- the average ----

  // One more bar with low <= high moves the average so that, with n the period,
  // (n + 1) new == (n - 1) old + twice the span of the bar and the previous close.
  lemma {:induction false} AtrNext(bars: seq<Bar>, bar: Bar, period: int)
    requires Computable(bars, period) && bar.low <= bar.high
    ensures var close := bars[|bars| - 1].close;
      (period + 1) as real * Atr(bars + [bar], period)
      == (period - 1) as real * Atr(bars, period) + 2.0 * (Max(bar.high, close) - Min(bar.low, close))
  {
    hide Ema.Ema, TrueRange;
    var close := bars[|bars| - 1].close;
    TrueRangeIsSpan(bar, close);
    RangesNext(bars, bar);
    Ema.EmaNext(TrueRanges(bars), TrueRange(bar, close), period);
  }

  lemma RangesNext(bars: seq<Bar>, bar: Bar)
    requires bars != []
    ensures TrueRanges(bars + [bar]) == TrueRanges(bars) + [TrueRange(bar, bars[|bars| - 1].close)]
  {
    hide TrueRange;
    var all := bars + [bar];
    forall i | 0 <= i < |bars| ensures TrueRanges(all)[i] == (TrueRanges(bars) + [TrueRange(bar, bars[|bars| - 1].close)])[i] {
      assert TrueRanges(all)[i] == TrueRange(all[i + 1], all[i].close);
    }
  }

  // The average is never negative and lies between two of the true ranges; when the whole
  // series stays inside a band, it is at most the band's width.
  lemma AtrBounds(bars: seq<Bar>, period: int, lo: real, hi: real)
    requires Computable(bars, period)
    ensures 0.0 <= Atr(bars, period)
    ensures exists i, j ::
      0 <= i < |bars| - 1 && 0 <= j < |bars| - 1 && RangeAt(bars, i) <= Atr(bars, period) <= RangeAt(bars, j)
    ensures Within(bars, lo, hi) ==> Atr(bars, period) <= hi - lo
  {
    hide Ema.Ema, TrueRange;
    var trs := TrueRanges(bars);
    var i, j := Ema.Extremes(trs);
    Ema.EmaBounds(trs, period, trs[i], trs[j]);
    assert trs[i] == RangeAt(bars, i) && trs[j] == RangeAt(bars, j);
    RangeSign(bars[i + 1], bars[i].close);
    if Within(bars, lo, hi) { RangeWithin(bars[j + 1], bars[j], lo, hi); }
  }

  // ---- shifted and scaled prices ----

  function MapBar(bar: Bar, a: real, b: real): Bar {
    Bar(a * bar.high + b, a * bar.low + b, a * bar.close + b)
  }

  function MapBars(bars: seq<Bar>, a: real, b: real): seq<Bar> {
    seq(|bars|, i requires 0 <= i < |bars| => MapBar(bars[i], a, b))
  }

  lemma AbsScales(x: real, y: real, x': real, y': real, a: real, b: real)
    requires x' == a * x + b && y' == a * y + b
    ensures Abs(x' - y') == Abs(a) * Abs(x - y)
  {
    var d := x - y;
    assert x' - y' == a * d;
    if d >= 0.0 {
      if a >= 0.0 { MulMono(0.0, d, a); } else { MulMono(0.0, d, -a); assert d * -a == -(a * d); }
    } else {
      if a >= 0.0 { MulMono(d, 0.0, a); } else { MulMono(d, 0.0, -a); assert d * -a == -(a * d); }
    }
  }

  lemma MaxScales(x: real, y: real, x': real, y': real, k: real)
    requires k >= 0.0 && x' == k * x && y' == k * y
    ensures Max(x', y') == k * Max(x, y)
  {
    if x < y { MulMono(x, y, k); } else { MulMono(y, x, k); }
  }

  lemma AbsSign(a: real)
    ensures Abs(a) >= 0.0
  {}

  lemma TrueRangeScales(bar: Bar, before: Bar, a: real, b: real)
    ensures TrueRange(MapBar(bar, a, b), MapBar(before, a, b).close) == Abs(a) * TrueRange(bar, before.close)
  {
    hide Abs, Max;
    var image, was := MapBar(bar, a, b), MapBar(before, a, b);
    AbsScales(bar.high, bar.low, image.high, image.low, a, b);
    AbsScales(bar.high, before.close, image.high, was.close, a, b);
    AbsScales(bar.low, before.close, image.low, was.close, a, b);
    var x, y, z := Abs(bar.high - bar.low), Abs(bar.high - before.close), Abs(bar.low - before.close);
    var x', y', z' := Abs(image.high - image.low), Abs(image.high - was.close), Abs(image.low - was.close);
    AbsSign(a);
    MaxScales(y, z, y', z', Abs(a));
    MaxScales(x, Max(y, z), x', Max(y', z'), Abs(a));
  }

  // A price shift leaves the average alone; scaling prices scales it; mirroring them keeps it.
  lemma AtrAffine(bars: seq<Bar>, period: int, a: real, b: real)
    requires Computable(bars, period)
    ensures |MapBars(bars, a, b)| == |bars|
    ensures Atr(MapBars(bars, a, b), period) == Abs(a) * Atr(bars, period)
  {
    hide Ema.Ema, Abs;
    var k := Abs(a);
    RangesScale(bars, a, b);
    Ema.EmaAffine(TrueRanges(bars), period, k, 0.0);
  }

  lemma RangesScale(bars: seq<Bar>, a: real, b: real)
    requires bars != []
    ensures |MapBars(bars, a, b)| == |bars|
    ensures TrueRanges(MapBars(bars, a, b)) == Ema.Affine(TrueRanges(bars), Abs(a), 0.0)
  {
    hide TrueRange, Abs;
    var image, trs := MapBars(bars, a, b), TrueRanges(bars);
    var scaled := Ema.Affine(trs, Abs(a), 0.0);
    forall i | 0 <= i < |bars| - 1 ensures TrueRanges(image)[i] == scaled[i] {
      TrueRangeScales(bars[i + 1], bars[i], a, b);
      assert trs[i] == RangeAt(bars, i);
    }
    assert |TrueRanges(image)| == |scaled|;
  }
}
