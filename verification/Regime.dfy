/** The market-regime cache (regime.go): closed until a seed succeeds, then the last seed's verdict. */
module Regime {
  import opened Model
  import Atr
  import Cache
  import Ema

  // A seed's verdict: whether the last close is above the average of the closes.
  predicate RiskOn(bars: seq<Atr.Bar>, period: int)
    requires Ema.Computable(Cache.Closes(bars), period)
  {
    bars[|bars| - 1].close > Ema.Ema(Cache.Closes(bars), period)
  }

  // ---- runs of seeds ----

  datatype SeedCall = SeedCall(bars: seq<Atr.Bar>, period: int)

  predicate Succeeds(call: SeedCall) { Ema.Computable(Cache.Closes(call.bars), call.period) }

  datatype Flags = Flags(seeded: bool, riskOn: bool)

  // The two flags after a run of seeds of a new cache.
  function Seeded(calls: seq<SeedCall>): Flags {
    if calls == [] then Flags(false, false) else
    var call := calls[|calls| - 1];
    if Succeeds(call) then Flags(true, RiskOn(call.bars, call.period)) else Seeded(calls[..|calls| - 1])
  }

  lemma {:induction false} SeededNext(calls: seq<SeedCall>, call: SeedCall)
    ensures Seeded(calls + [call]) == if Succeeds(call) then Flags(true, RiskOn(call.bars, call.period)) else Seeded(calls)
  {
    hide Succeeds, RiskOn;
    assert (calls + [call])[..|calls|] == calls;
  }

  // The call the verdict comes from: the last successful one.
  ghost predicate Latest(calls: seq<SeedCall>, i: nat) {
    i < |calls| && Succeeds(calls[i]) && forall j :: i < j < |calls| ==> !Succeeds(calls[j])
  }

  ghost predicate LatestIsOn(calls: seq<SeedCall>) {
    exists i: nat :: Latest(calls, i) && RiskOn(calls[i].bars, calls[i].period)
  }

  // After any run of seeds the regime is on exactly when some seed succeeded and the last successful
  // one found the last close above the average; before the first success it is off.
  lemma {:induction false} OnExactly(calls: seq<SeedCall>)
    ensures Seeded(calls).seeded <==> exists i: nat :: Latest(calls, i)
    ensures Seeded(calls).seeded && Seeded(calls).riskOn <==> LatestIsOn(calls)
  {
    hide RiskOn, Succeeds;
    if calls != [] {
      var n, before := |calls| - 1, calls[..|calls| - 1];
      OnExactly(before);
      if Succeeds(calls[n]) {
        assert Latest(calls, n);
      } else {
        forall i: nat ensures Latest(calls, i) <==> Latest(before, i) { LatestStays(calls, i); }
        forall i: nat | Latest(before, i) ensures before[i] == calls[i] {}
      }
    }
  }

  lemma LatestStays(calls: seq<SeedCall>, i: nat)
    requires calls != [] && !Succeeds(calls[|calls| - 1])
    ensures Latest(calls, i) <==> Latest(calls[..|calls| - 1], i)
  {
    hide Succeeds;
    var n, before := |calls| - 1, calls[..|calls| - 1];
    if Latest(before, i) {
      forall j | i < j < |calls| ensures !Succeeds(calls[j]) {
        if j < n { assert before[j] == calls[j]; }
      }
    }
    if Latest(calls, i) {
      forall j | i < j < n ensures !Succeeds(before[j]) { assert before[j] == calls[j]; }
    }
  }

  class RegimeCache {
    var seeded: bool
    var riskOn: bool
    // Every call of Seed so far.
    ghost var calls: seq<SeedCall>

    ghost predicate Valid()
      reads this
    {
      Flags(seeded, riskOn) == Seeded(calls)
    }

    constructor ()
      ensures Valid() && calls == []
    {
      seeded, riskOn, calls := false, false, [];
    }

    method Seed(bars: seq<Atr.Bar>, period: int) returns (r: Result<()>)
      requires Valid()
      modifies this
      ensures Valid() && calls == old(calls) + [SeedCall(bars, period)]
      ensures r.Ok? <==> 0 < period <= |bars|
      ensures r == if Ema.Computable(Cache.Closes(bars), period) then Ok(()) else Err(Invalid)
      ensures r.Err? ==> seeded == old(seeded) && riskOn == old(riskOn)
      ensures r.Ok? ==> seeded && riskOn == RiskOn(bars, period)
    {
      hide Seeded, Ema.Ema;
      SeededNext(calls, SeedCall(bars, period));
      calls := calls + [SeedCall(bars, period)];
      if |bars| == 0 { return Err(Invalid); }
      var closes := Cache.CloseColumn(bars);
      var ema := Ema.CalculateEMA(closes, period);
      if ema.Err? { return Err(Invalid); }
      seeded := true;
      riskOn := bars[|bars| - 1].close > ema.value;
      r := Ok(());
    }

    // Fail-closed: on exactly when a seed has succeeded and the last successful one says so.
    method IsRiskOn() returns (v: bool)
      requires Valid()
      ensures v <==> LatestIsOn(calls)
    {
      OnExactly(calls);
      v := seeded && riskOn;
    }
  }

  // Beyond the averaging window the regime is on exactly when the last close is above the average
  // of the closes before it (never, with period 1).
  lemma {:induction false} RiskOnExactly(bars: seq<Atr.Bar>, period: int)
    requires 0 < period < |bars|
    ensures RiskOn(bars, period)
       <==> period >= 2 && bars[|bars| - 1].close > Ema.Ema(Cache.Closes(bars[..|bars| - 1]), period)
  {
    hide Ema.Ema;
    assert Cache.Closes(bars[..|bars| - 1]) == Cache.Closes(bars)[..|bars| - 1];
    Ema.LastAbove(Cache.Closes(bars), period);
  }

  // A risk-on verdict means the series closed lower somewhere before.
  lemma RiskOnMeansGain(bars: seq<Atr.Bar>, period: int)
    requires Ema.Computable(Cache.Closes(bars), period) && RiskOn(bars, period)
    ensures exists i :: 0 <= i < |bars| - 1 && bars[i].close < bars[|bars| - 1].close
  {
    hide Ema.Ema;
    var closes := Cache.Closes(bars);
    Ema.AboveSomeEarlier(closes, period);
    var i :| 0 <= i < |closes| - 1 && closes[i] < closes[|closes| - 1];
    assert bars[i].close < bars[|bars| - 1].close;
  }
}
