/** The per-symbol indicator cache (cache.go): what Seed joins together, what a run of seeds leaves
    behind, and what the shadow cross-up gate therefore says about the closes. */
module Cache {
  import opened Model
  import opened Calls
  import opened Database
  import opened Signals
  import Atr
  import Ema
  import Reals
  import Rsi

  datatype Periods = Periods(ema: int, rsi: int, atr: int)

  function Closes(bars: seq<Atr.Bar>): seq<real> {
    seq(|bars|, i requires 0 <= i < |bars| => bars[i].close)
  }

  // The loop both caches fill their slice of closes with.
  method CloseColumn(bars: seq<Atr.Bar>) returns (closes: seq<real>)
    ensures closes == Closes(bars)
  {
    var prices := new real[|bars|];
    for i := 0 to |bars|
      invariant prices[..i] == Closes(bars)[..i]
    {
      prices[i] := bars[i].close;
    }
    closes := prices[..];
  }

  // What the series must offer: enough closes for both indexes, and enough for the other two averages.
  predicate Seedable(bars: seq<Atr.Bar>, p: Periods) {
    Ema.Computable(Closes(bars), p.ema) && 0 < p.rsi < |bars| - 1 && Atr.Computable(bars, p.atr)
  }

  function StateOf(bars: seq<Atr.Bar>, p: Periods): IndicatorState
    requires Seedable(bars, p)
  {
    var closes := Closes(bars);
    IndicatorState(Ema.Ema(closes, p.ema), Rsi.Rsi(closes, p.rsi),
                   Rsi.Rsi(closes[..|closes| - 1], p.rsi), Atr.Atr(bars, p.atr))
  }

  // The previous index of a state is the index that a seed on all but the last bar would store.
  lemma PreviousIsYesterday(bars: seq<Atr.Bar>, p: Periods)
    requires Seedable(bars, p) && Seedable(bars[..|bars| - 1], p)
    ensures StateOf(bars, p).rsiPrev == StateOf(bars[..|bars| - 1], p).rsi
  {
    assert Closes(bars[..|bars| - 1]) == Closes(bars)[..|bars| - 1];
  }

  // The next day: one more bar keeps a series seedable and moves each indicator by that bar alone. The
  // index of the day before is today's; the two smoothed averages move by their own periods.
  lemma {:induction false} NextDay(bars: seq<Atr.Bar>, bar: Atr.Bar, p: Periods)
    requires Seedable(bars, p) && bar.low <= bar.high
    ensures Seedable(bars + [bar], p)
    ensures var old_, new_, close := StateOf(bars, p), StateOf(bars + [bar], p), bars[|bars| - 1].close;
      && (p.ema + 1) as real * new_.ema == (p.ema - 1) as real * old_.ema + 2.0 * bar.close
      && new_.rsiPrev == old_.rsi
      && new_.rsi == Rsi.Rsi(Closes(bars) + [bar.close], p.rsi)
      && (p.atr + 1) as real * new_.atr == (p.atr - 1) as real * old_.atr + 2.0 * (Max(bar.high, close) - Min(bar.low, close))
  {
    hide Ema.Ema, Rsi.Rsi, Atr.Atr;
    var closes := Closes(bars);
    assert Closes(bars + [bar]) == closes + [bar.close];
    assert (closes + [bar.close])[..|closes|] == closes;
    Ema.EmaNext(closes, bar.close, p.ema);
    Atr.AtrNext(bars, bar, p.atr);
  }

  // ---- runs of seeds ----

  datatype SeedCall = SeedCall(symbol: string, bars: seq<Atr.Bar>, periods: Periods)

  predicate Succeeds(call: SeedCall) { Seedable(call.bars, call.periods) }

  // The cache after a run of seeds of an empty cache.
  function Seeded(calls: seq<SeedCall>): map<string, IndicatorState> {
    if calls == [] then map[] else
    var before, call := Seeded(calls[..|calls| - 1]), calls[|calls| - 1];
    if Succeeds(call) then before[call.symbol := StateOf(call.bars, call.periods)] else before
  }

  lemma {:induction false} SeededNext(calls: seq<SeedCall>, call: SeedCall)
    ensures Seeded(calls + [call]) ==
      if Succeeds(call) then Seeded(calls)[call.symbol := StateOf(call.bars, call.periods)] else Seeded(calls)
  {
    hide Seedable, StateOf;
    assert (calls + [call])[..|calls|] == calls;
  }

  // The call that a symbol's state comes from: its last successful one.
  ghost predicate Latest(calls: seq<SeedCall>, symbol: string, i: nat) {
    i < |calls| && calls[i].symbol == symbol && Succeeds(calls[i])
    && forall j :: i < j < |calls| && calls[j].symbol == symbol ==> !Succeeds(calls[j])
  }

  // After any run of seeds a symbol is cached exactly when one of its seeds succeeded, and the
  // cached state is the one its last successful seed computed.
  lemma {:induction false} CachedExactly(calls: seq<SeedCall>, symbol: string)
    ensures symbol in Seeded(calls) <==> exists i: nat :: Latest(calls, symbol, i)
    ensures forall i: nat :: Latest(calls, symbol, i) ==> Seeded(calls)[symbol] == StateOf(calls[i].bars, calls[i].periods)
  {
    hide StateOf, Seedable;
    if calls != [] {
      var n, before := |calls| - 1, calls[..|calls| - 1];
      CachedExactly(before, symbol);
      if calls[n].symbol == symbol && Succeeds(calls[n]) {
        assert Latest(calls, symbol, n);
      } else {
        forall i: nat ensures Latest(calls, symbol, i) <==> Latest(before, symbol, i) {
          if Latest(before, symbol, i) {
            forall j | i < j < |calls| && calls[j].symbol == symbol ensures !Succeeds(calls[j]) {
              if j < n { assert before[j] == calls[j]; }
            }
          }
          if Latest(calls, symbol, i) {
            assert before[i] == calls[i];
            forall j | i < j < n && before[j].symbol == symbol ensures !Succeeds(before[j]) {
              assert before[j] == calls[j];
            }
          }
        }
      }
    }
  }

  // ---- the cache ----

  // What a symbol is served after the calls.
  ghost predicate Serves(calls: seq<SeedCall>, symbol: string, state: Option<IndicatorState>) {
    && (state.Some? <==> exists i: nat :: Latest(calls, symbol, i))
    && forall i: nat :: Latest(calls, symbol, i) ==> state == Some(StateOf(calls[i].bars, calls[i].periods))
  }

  class IndicatorCache {
    var state: map<string, IndicatorState>
    // Every call of Seed so far.
    ghost var calls: seq<SeedCall>

    ghost predicate Valid()
      reads this
    {
      state == Seeded(calls)
    }

    constructor ()
      ensures Valid() && calls == []
    {
      state, calls := map[], [];
    }

    method Seed(symbol: string, bars: seq<Atr.Bar>, p: Periods) returns (r: Result<()>)
      requires Valid()
      modifies this
      ensures Valid() && calls == old(calls) + [SeedCall(symbol, bars, p)]
      ensures r.Ok? <==> 0 < p.ema <= |bars| && 0 < p.rsi <= |bars| - 2 && 0 < p.atr <= |bars| - 1
      ensures r == if Seedable(bars, p) then Ok(()) else Err(Invalid)
      ensures state == if Seedable(bars, p) then old(state)[symbol := StateOf(bars, p)] else old(state)
    {
      hide Seeded, Ema.Ema, Rsi.Rsi, Atr.Atr;
      SeededNext(calls, SeedCall(symbol, bars, p));
      calls := calls + [SeedCall(symbol, bars, p)];
      if |bars| == 0 { return Err(Invalid); }
      var closes := CloseColumn(bars);
      var ema := Ema.CalculateEMA(closes, p.ema);
      if ema.Err? { return Err(Invalid); }
      if |closes| < p.rsi + 2 { return Err(Invalid); }
      var rsiPrev := Rsi.CalculateRSI(closes[..|closes| - 1], p.rsi);
      if rsiPrev.Err? { return Err(Invalid); }
      var rsi := Rsi.CalculateRSI(closes, p.rsi);
      if rsi.Err? { return Err(Invalid); }
      var atr := Atr.CalculateATR(bars, p.atr);
      if atr.Err? { return Err(Invalid); }
      state := state[symbol := IndicatorState(ema.value, rsi.value, rsiPrev.value, atr.value)];
      r := Ok(());
    }

    // A symbol is served exactly when one of its seeds succeeded, with what its last successful one computed.
    method Get(symbol: string) returns (r: Option<IndicatorState>)
      requires Valid()
      ensures Serves(calls, symbol, r)
    {
      CachedExactly(calls, symbol);
      r := if symbol in state then Some(state[symbol]) else None;
    }
  }

  // ---- the cross-up ----

  predicate LastRose(bars: seq<Atr.Bar>) {
    |bars| >= 2 && bars[|bars| - 1].close > bars[|bars| - 2].close
  }

  lemma CrossUpNeedsRise(bars: seq<Atr.Bar>, p: Periods, price: real)
    requires Seedable(bars, p) && p.rsi >= 2
    ensures CrossUpGate(price, StateOf(bars, p)) ==> LastRose(bars)
  {
    hide Rsi.Rsi, Ema.Ema, Atr.Atr;
    if CrossUpGate(price, StateOf(bars, p)) && !LastRose(bars) { Rsi.NoRiseNoRaise(Closes(bars), p.rsi); }
  }

  // After any run of seeds with index period at least 2, a shadow buy is previewed only for a symbol
  // whose last successful seed ended on a close strictly above the one before.
  lemma CrossUpRises(calls: seq<SeedCall>, trades: Trades, failed: bool, symbol: string, price: real, market: Market)
    requires forall i :: 0 <= i < |calls| ==> calls[i].periods.rsi >= 2
    ensures var r := PreviewBuySignal(trades, failed, symbol, price, market);
      Serves(calls, symbol, market.state) && r.Ok? && r.value.Some? ==>
        exists i: nat :: Latest(calls, symbol, i) && LastRose(calls[i].bars)
  {
    hide StateOf, Seedable;
    if Serves(calls, symbol, market.state) && market.state.Some? {
      var i: nat :| Latest(calls, symbol, i);
      CrossUpNeedsRise(calls[i].bars, calls[i].periods, price);
    }
  }

  // ---- the live gate ----

  // The price is above one of the closes, and one of the closes fell.
  ghost predicate Dipped(bars: seq<Atr.Bar>, price: real) {
    && (exists i :: 0 <= i < |bars| && bars[i].close < price)
    && (exists i :: 0 < i < |bars| && bars[i].close < bars[i - 1].close)
  }

  lemma LiveGateNeedsDip(bars: seq<Atr.Bar>, p: Periods, price: real)
    requires Seedable(bars, p) && p.rsi >= 2
    ensures LiveGate(price, StateOf(bars, p)) ==> Dipped(bars, price)
  {
    hide Rsi.Rsi, Ema.Ema, Atr.Atr;
    var closes := Closes(bars);
    if LiveGate(price, StateOf(bars, p)) {
      var least, greatest := Ema.Extremes(closes);
      Ema.EmaBounds(closes, p.ema, closes[least], closes[greatest]);
      assert bars[least].close < price;
      Rsi.FullStrength(closes, p.rsi);
      var i :| 0 < i < |closes| && closes[i] < closes[i - 1];
      assert bars[i].close < bars[i - 1].close;
    }
  }

  // After any run of seeds with index period at least 2, a live buy signal means a dip in the symbol's
  // last seeded series and a price above part of it.
  lemma LiveSignalMeans(calls: seq<SeedCall>, w: World, symbol: string, price: real, market: Market)
    requires forall i :: 0 <= i < |calls| ==> calls[i].periods.rsi >= 2
    ensures var r := EvaluateBuySignal(w, symbol, price, market).1;
      Serves(calls, symbol, market.state) && r.Ok? && r.value.Some? ==>
        exists i: nat :: Latest(calls, symbol, i) && Dipped(calls[i].bars, price)
  {
    hide StateOf, Seedable;
    if Serves(calls, symbol, market.state) && market.state.Some? {
      var i: nat :| Latest(calls, symbol, i);
      LiveGateNeedsDip(calls[i].bars, calls[i].periods, price);
    }
  }

  // With index period 1 the previous change is forgotten: two equal last closes already read as
  // full strength, so a cross-up needs no rise.
  lemma PeriodOneFires()
    ensures exists bars, p, price: real ::
      Seedable(bars, p) && p.rsi == 1 && CrossUpGate(price, StateOf(bars, p)) && !LastRose(bars)
  {
    var bars, p := [Atr.Bar(2.0, 2.0, 2.0), Atr.Bar(1.0, 1.0, 1.0), Atr.Bar(1.0, 1.0, 1.0)], Periods(3, 1, 2);
    var closes := Closes(bars);
    assert closes == [2.0, 1.0, 1.0];
    var front := closes[..2];
    assert front == [2.0, 1.0];
    assert Rsi.Gains(front) == [0.0] && Rsi.Losses(front) == [1.0];
    assert Reals.Sum([0.0]) == 0.0 && Reals.Sum([1.0]) == 1.0;
    assert Rsi.Rsi(front, 1) == 0.0;
    assert Rsi.Gains(closes) == [0.0, 0.0] && Rsi.Losses(closes) == [1.0, 0.0];
    assert [0.0, 0.0][..1] == [0.0] && [1.0, 0.0][..1] == [1.0];
    assert Rsi.Rsi(closes, 1) == 100.0;
    var price := StateOf(bars, p).ema + 1.0;
    assert CrossUpGate(price, StateOf(bars, p));
  }
}
