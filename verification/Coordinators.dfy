/** The signal service and the two coordinators in the source's own form: sequences of
    state-changing calls with early returns, over the tables and the shadow log. */
module Coordinators {
  import opened Model
  import opened Database
  import opened Adaptive
  import opened Ledger
  import opened Calls
  import opened Signals
  import opened Shadow
  import opened TradeServices

  class SignalService {
    const backend: Backend

    constructor (backend: Backend)
      ensures this.backend == backend
    {
      this.backend := backend;
    }

    method EvaluateBuySignal(symbol: string, price: real, market: Market) returns (r: Result<Option<(nat, Signal)>>)
      modifies backend
      ensures (backend.State(), r) == Signals.EvaluateBuySignal(old(backend.State()), symbol, price, market)
    {
      var open := backend.HasOpen(symbol);
      if open.Err? { return Err(Infrastructure); }
      if open.value { return Ok(None); }
      if market.state.None? { return Ok(None); }
      var state := market.state.value;
      if !(price > state.ema) { return Ok(None); }
      if !(state.rsi < OVERSOLD) { return Ok(None); }
      if market.verdict.None? { return Err(Infrastructure); }
      if !market.verdict.value { return Ok(None); }
      var id := backend.NewId();
      var created := backend.CreateSignal(false, id, Entry(symbol, price, state));
      if created.Err? { return Err(created.error); }
      r := Ok(Some((id, Entry(symbol, price, state))));
    }
  }

  class LiveCoordinator {
    const backend: Backend
    const signals: SignalService
    const trades: TradeService

    constructor (signals: SignalService, trades: TradeService)
      requires signals.backend == trades.backend
      ensures this.backend == trades.backend && this.signals == signals && this.trades == trades
    {
      this.backend, this.signals, this.trades := trades.backend, signals, trades;
    }

    // Exits first, then signal, then budget, then buy; the first error ends the bar.
    method EvaluateBar(bar: Bar) returns (r: Result<()>)
      requires signals.backend == trades.backend == backend
      modifies backend
      ensures (backend.State(), r) == LiveBar(old(backend.State()), trades.params, bar)
    {
      r := trades.EvaluateAndExecuteExits(bar.symbol, bar.price, bar.scan);
      if r.Err? { return; }
      var entry := signals.EvaluateBuySignal(bar.symbol, bar.price, bar.live);
      if entry.Err? { return Err(entry.error); }
      if entry.value.None? { return Ok(()); }
      var budget := backend.GetAvailableBudget(bar.transferScan);
      if budget.Err? { return Err(budget.error); }
      if budget.value.None? { return Ok(()); }
      var bought := trades.ExecuteBuyTrade(entry.value.value.0, entry.value.value.1, budget.value);
      if bought.Err? { return Err(bought.error); }
      r := Ok(());
    }
  }

  // The shadow path's own tables.
  class ShadowLog {
    var decisions: seq<Decision>
    var signals: seq<ShadowSignal>
    var faults: seq<bool>

    constructor (log: Log)
      ensures State() == log
    {
      decisions, signals, faults := log.decisions, log.signals, log.faults;
    }

    function State(): Log
      reads this
    {
      Log(decisions, signals, faults)
    }

    method Fault() returns (failed: bool)
      modifies this`faults
      ensures failed == Head(old(faults)) && faults == Tail(old(faults))
    {
      failed := Head(faults);
      faults := Tail(faults);
    }

    method LogShadowSignal(s: ShadowSignal)
      modifies this
      ensures State() == LogSignal(old(State()), s)
    {
      var failed := Fault();
      if !failed { signals := signals + [s]; }
    }
  }

  class TradingCoordinator {
    const live: LiveCoordinator
    const backend: Backend
    const log: ShadowLog
    const tiers: Tiers

    constructor (live: LiveCoordinator, log: ShadowLog, tiers: Tiers)
      ensures this.live == live && this.backend == live.backend && this.log == log && this.tiers == tiers
    {
      this.live, this.backend, this.log, this.tiers := live, live.backend, log, tiers;
    }

    method EvaluateBar(bar: Bar) returns (r: Result<()>)
      requires live.backend == backend == live.signals.backend == live.trades.backend
      modifies backend, log
      ensures (backend.State(), log.State(), r)
           == FullBar(old(backend.State()), old(log.State()), live.trades.params, tiers, bar)
    {
      ShadowEvaluateExits(bar);
      ShadowEvaluateBuySignal(bar);
      r := live.EvaluateBar(bar);
    }

    // One transaction over the open buys: peaks and decisions, all or nothing.
    method ShadowEvaluateExits(bar: Bar)
      modifies backend, log
      ensures backend.State() == old(backend.State()).(db := ShadowExits(old(backend.Db()), old(log.State()), bar, tiers).0)
      ensures log.State() == ShadowExits(old(backend.Db()), old(log.State()), bar, tiers).1
    {
      var savedTrades, savedDecisions := backend.trades, log.decisions;
      var fetched := backend.GetOpenBuyTradesBySymbol(bar.symbol, bar.scan);
      ghost var db := backend.Db();
      var failed := false;
      var i := 0;
      while i < |fetched|
        invariant i <= |fetched|
        invariant log.signals == old(log.signals) && log.faults == old(log.faults)
        invariant backend.State().(db := db) == old(backend.State())
        invariant backend.signals == old(backend.signals) && backend.transfers == old(backend.transfers)
        invariant !failed ==> Observe(db, savedDecisions, fetched[..i], bar.price, tiers) == Ok(Observed(backend.Db(), log.decisions))
        invariant failed ==> Observe(db, savedDecisions, fetched[..i], bar.price, tiers).Err?
      {
        assert fetched[..i + 1][..i] == fetched[..i];
        if !failed {
          failed := ShadowEvaluateOneTrade(fetched[i], bar.price);
        }
        i := i + 1;
      }
      assert fetched[..i] == fetched;
      var commitFailed := log.Fault();
      if failed || commitFailed {
        backend.trades, log.decisions := savedTrades, savedDecisions;
      }
    }

    method ShadowEvaluateOneTrade(f: Fetched, price: real) returns (failed: bool)
      modifies backend, log
      ensures backend.State().(db := old(backend.Db())) == old(backend.State())
      ensures backend.signals == old(backend.signals) && backend.transfers == old(backend.transfers)
      ensures log.signals == old(log.signals) && log.faults == old(log.faults)
      ensures match ObserveOne(Observed(old(backend.Db()), old(log.decisions)), f, price, tiers)
              case Ok(o) => !failed && backend.Db() == o.db && log.decisions == o.decisions
              case Err(_) => failed
    {
      var row := f.row;
      if row.entryATR.Some? && row.entryATR.value != 0.0 {
        if EntryPrice(row).None? || row.stopLoss.None? { return false; }
        failed := ShadowAdaptiveExit(f, price);
      } else {
        ShadowLegacyExit(f, price);
        failed := false;
      }
    }

    method ShadowAdaptiveExit(f: Fetched, price: real) returns (failed: bool)
      requires Tracked(f.row)
      modifies backend, log
      ensures backend.State().(db := old(backend.Db())) == old(backend.State())
      ensures backend.signals == old(backend.signals) && backend.transfers == old(backend.transfers)
      ensures log.signals == old(log.signals) && log.faults == old(log.faults)
      ensures match ObserveOne(Observed(old(backend.Db()), old(log.decisions)), f, price, tiers)
              case Ok(o) => !failed && backend.Db() == o.db && log.decisions == o.decisions
              case Err(_) => failed
    {
      hide EffectiveStop;
      var row := f.row;
      var oldPeak := PeakOf(row);
      var newPeak := oldPeak;
      if price > newPeak { newPeak := price; }
      var oldEff, newEff := StopAt(row, oldPeak, tiers), StopAt(row, newPeak, tiers);
      if newPeak != oldPeak {
        row := row.(peak := Some(newPeak));
        var updated := backend.UpdateTradeRow(true, f.id, row);
        if updated.Err? { return true; }
      }
      failed := false;
      if !StaticHolds(f.row, price) { return; }
      if price <= newEff {
        log.decisions := log.decisions + [Decision(f.id, price, newPeak, Some(newEff), ExitStop)];
        return;
      }
      if newEff > oldEff {
        log.decisions := log.decisions + [Decision(f.id, price, newPeak, Some(newEff), StopMoved)];
      }
    }

    method ShadowLegacyExit(f: Fetched, price: real)
      modifies log
      ensures log.signals == old(log.signals) && log.faults == old(log.faults)
      ensures log.decisions == match LegacyDecision(f.id, f.row, price) case Some(d) => old(log.decisions) + [d] case None => old(log.decisions)
    {
      if f.row.stopLoss.Some? && price <= f.row.stopLoss.value {
        log.decisions := log.decisions + [Decision(f.id, price, price, f.row.stopLoss, ExitStop)];
      } else if f.row.takeProfit.Some? && price >= f.row.takeProfit.value {
        log.decisions := log.decisions + [Decision(f.id, price, price, f.row.stopLoss, ExitTakeProfit)];
      }
    }

    // Logs a regime-off signal, or what the preview would have bought; never touches the tables.
    method ShadowEvaluateBuySignal(bar: Bar)
      modifies log
      ensures log.State() == ShadowBuy(backend.trades, old(log.State()), bar)
    {
      if !bar.riskOn {
        log.LogShadowSignal(RegimeOff(bar.symbol, bar.price));
        return;
      }
      var failed := log.Fault();
      var preview := PreviewBuySignal(backend.trades, failed, bar.symbol, bar.price, bar.shadow);
      if preview.Err? || preview.value.None? { return; }
      log.LogShadowSignal(Previewed(preview.value.value));
    }
  }
}
