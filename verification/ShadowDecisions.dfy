/** Which rows the shadow path logs, exactly: over any history, each bar logs the decisions that are due on
    the rows it reads and nothing else, and each bar logs at most one shadow signal. */
module ShadowDecisions {
  import opened Model
  import opened Database
  import opened Adaptive
  import opened Ledger
  import opened LedgerCore
  import opened LedgerMoney
  import opened LedgerTheorems
  import opened Calls
  import opened Signals
  import opened Shadow
  import opened Runs
  import opened Erasure
  import opened ExitPasses
  import opened PeakTracking
  import opened ShadowHistories
  import opened Histories
  import opened BuyOutcomes
  import opened ExitOutcomes
  import opened Reals

  // ---- when a decision is due ----

  // The peak is at least k ATRs better than the entry, in the ATR's own direction.
  predicate Gained(peak: real, entry: real, atr: real, k: real) {
    if atr > 0.0 then peak - entry >= k * atr else peak - entry <= k * atr
  }

  function Higher(x: real, y: real): real { if x >= y then x else y }

  // The stop for a peak: trailing it from the second trigger on, at entry from the first, and nowhere below
  // the static stop.
  function TieredStop(peak: real, entry: real, atr: real, stop: real, tiers: Tiers): real {
    if Gained(peak, entry, atr, tiers.trailTrigger) then Higher(stop, peak - atr * tiers.trailDistance)
    else if Gained(peak, entry, atr, tiers.breakEvenTrigger) then Higher(stop, entry)
    else stop
  }

  lemma GainedExactly(peak: real, entry: real, atr: real, k: real)
    requires atr != 0.0
    ensures (peak - entry) / atr >= k <==> Gained(peak, entry, atr, k)
  {
    var gain := peak - entry;
    AtMostQuotient(k, gain, atr);
  }

  lemma TieredExactly(peak: real, entry: real, atr: real, stop: real, tiers: Tiers)
    requires atr != 0.0
    ensures EffectiveStop(peak, entry, atr, stop, tiers) == TieredStop(peak, entry, atr, stop, tiers)
  {
    hide Gained;
    GainedExactly(peak, entry, atr, tiers.trailTrigger);
    GainedExactly(peak, entry, atr, tiers.breakEvenTrigger);
  }

  function PaidAt(row: Trade): real
    requires row.avgFill.Some? || row.price.Some?
  {
    if row.avgFill.Some? then row.avgFill.value else row.price.value
  }

  function PeakBefore(row: Trade): real
    requires row.avgFill.Some? || row.price.Some?
  {
    if row.peak.Some? then row.peak.value else PaidAt(row)
  }

  // A row with a non-zero entry ATR, while its static levels hold: an exit once the price is at or below
  // the stop for the new peak, otherwise a stop move if that stop is above the one for the old peak.
  predicate AdaptiveDue(d: Decision, row: Trade, price: real, tiers: Tiers)
    requires row.entryATR.Some?
  {
    && (row.avgFill.Some? || row.price.Some?) && row.stopLoss.Some?
    && price > row.stopLoss.value && (row.takeProfit.Some? ==> price < row.takeProfit.value)
    && var peak := Higher(PeakBefore(row), price);
       var before := TieredStop(PeakBefore(row), PaidAt(row), row.entryATR.value, row.stopLoss.value, tiers);
       var now := TieredStop(peak, PaidAt(row), row.entryATR.value, row.stopLoss.value, tiers);
       && d.peak == peak && d.stop == Some(now)
       && (d.kind == ExitStop ==> price <= now) && (d.kind == StopMoved ==> before < now < price) && d.kind != ExitTakeProfit
  }

  // Any other row: its static stop, then its target.
  predicate LegacyDue(d: Decision, row: Trade, price: real) {
    && d.peak == price && d.stop == row.stopLoss && d.kind != StopMoved
    && (d.kind == ExitStop ==> row.stopLoss.Some? && price <= row.stopLoss.value)
    && (d.kind == ExitTakeProfit ==> row.takeProfit.Some? && price >= row.takeProfit.value && (row.stopLoss.Some? ==> price > row.stopLoss.value))
  }

  predicate DecisionDue(d: Decision, id: nat, row: Trade, price: real, tiers: Tiers) {
    && d.trade == id && d.price == price
    && if row.entryATR.Some? && row.entryATR.value != 0.0 then AdaptiveDue(d, row, price, tiers) else LegacyDue(d, row, price)
  }

  lemma StopsExactly(row: Trade, price: real, tiers: Tiers)
    requires Tracked(row)
    ensures PaidAt(row) == EntryPrice(row).value && PeakBefore(row) == PeakOf(row) && Higher(PeakOf(row), price) == NewPeak(row, price)
    ensures StopAt(row, PeakOf(row), tiers) == TieredStop(PeakBefore(row), PaidAt(row), row.entryATR.value, row.stopLoss.value, tiers)
    ensures StopAt(row, NewPeak(row, price), tiers)
         == TieredStop(Higher(PeakBefore(row), price), PaidAt(row), row.entryATR.value, row.stopLoss.value, tiers)
  {
    hide TieredStop, EffectiveStop;
    TieredExactly(PeakOf(row), EntryPrice(row).value, row.entryATR.value, row.stopLoss.value, tiers);
    TieredExactly(NewPeak(row, price), EntryPrice(row).value, row.entryATR.value, row.stopLoss.value, tiers);
  }

  lemma AdaptiveExactly(id: nat, row: Trade, price: real, tiers: Tiers, d: Decision)
    requires Tracked(row)
    ensures AdaptiveDecision(id, row, price, tiers) == Some(d) <==> d.trade == id && d.price == price && AdaptiveDue(d, row, price, tiers)
  {
    hide TieredStop, EffectiveStop, StopAt, PaidAt, PeakBefore, PeakOf, Higher, NewPeak;
    StopsExactly(row, price, tiers);
  }

  // The service's decision is the one that is due, and there is none if none is due.
  lemma DecisionExactly(id: nat, row: Trade, price: real, tiers: Tiers, d: Decision)
    ensures DecisionFor(id, row, price, tiers) == Some(d) <==> DecisionDue(d, id, row, price, tiers)
  {
    hide AdaptiveDecision, TieredStop;
    if row.entryATR.Some? && row.entryATR.value != 0.0 {
      if Tracked(row) {
        hide AdaptiveDue;
        AdaptiveExactly(id, row, price, tiers, d);
      }
    }
  }

  // ---- one bar ----

  // The decisions of a list of rows, in their order.
  function DecisionsOf(fetched: seq<Fetched>, price: real, tiers: Tiers): seq<Decision> {
    if fetched == [] then [] else
    var before, f := DecisionsOf(fetched[..|fetched| - 1], price, tiers), fetched[|fetched| - 1];
    var d := DecisionFor(f.id, f.row, price, tiers);
    if d.Some? then before + [d.value] else before
  }

  lemma {:induction false} ObserveAppends(db: Tables, decisions: seq<Decision>, fetched: seq<Fetched>, price: real, tiers: Tiers)
    requires Observe(db, decisions, fetched, price, tiers).Ok?
    ensures Observe(db, decisions, fetched, price, tiers).value.decisions == decisions + DecisionsOf(fetched, price, tiers)
  {
    hide DecisionFor, RaisePeak, UpdateTrade;
    if fetched != [] { ObserveAppends(db, decisions, fetched[..|fetched| - 1], price, tiers); }
  }

  lemma {:induction false} DecisionsAre(fetched: seq<Fetched>, price: real, tiers: Tiers, d: Decision)
    ensures d in DecisionsOf(fetched, price, tiers) <==> exists f :: f in fetched && DecisionDue(d, f.id, f.row, price, tiers)
  {
    hide DecisionFor, DecisionDue;
    if fetched != [] {
      var front, last := fetched[..|fetched| - 1], fetched[|fetched| - 1];
      DecisionsAre(front, price, tiers, d);
      DecisionExactly(last.id, last.row, price, tiers, d);
      assert fetched == front + [last];
      assert DecisionFor(last.id, last.row, price, tiers) == Some(d) <==>
        DecisionFor(last.id, last.row, price, tiers).Some? && DecisionFor(last.id, last.row, price, tiers).value == d;
    }
  }

  lemma DueNamesIts(d: Decision, id: nat, row: Trade, price: real, tiers: Tiers)
    requires DecisionDue(d, id, row, price, tiers)
    ensures d.trade == id
  {}

  lemma {:induction false} OneEach(fetched: seq<Fetched>, price: real, tiers: Tiers, i: nat, j: nat)
    requires forall a, b :: 0 <= a < b < |fetched| ==> fetched[a].id != fetched[b].id
    requires i < j < |DecisionsOf(fetched, price, tiers)|
    ensures DecisionsOf(fetched, price, tiers)[i].trade != DecisionsOf(fetched, price, tiers)[j].trade
  {
    hide DecisionFor, DecisionDue;
    var front, last := fetched[..|fetched| - 1], fetched[|fetched| - 1];
    var ds := DecisionsOf(front, price, tiers);
    if j < |ds| {
      OneEach(front, price, tiers, i, j);
    } else {
      DecisionsAre(front, price, tiers, ds[i]);
      var f :| f in front && DecisionDue(ds[i], f.id, f.row, price, tiers);
      DueNamesIts(ds[i], f.id, f.row, price, tiers);
      var d := DecisionFor(last.id, last.row, price, tiers).value;
      DecisionExactly(last.id, last.row, price, tiers, d);
      DueNamesIts(d, last.id, last.row, price, tiers);
    }
  }

  // The decision is due on a held buy of the bar's symbol that its table read meets.
  ghost predicate DueOn(d: Decision, trades: Trades, bar: Bar, tiers: Tiers) {
    && d.trade in bar.scan && Held(trades, d.trade, bar.symbol)
    && DecisionDue(d, d.trade, trades[d.trade], bar.price, tiers)
  }

  // The decisions `ds` are those due on the held buys of the symbol that the table read meets, one per buy.
  ghost predicate DueExactly(ds: seq<Decision>, trades: Trades, bar: Bar, tiers: Tiers) {
    && (forall d :: d in ds <==> DueOn(d, trades, bar, tiers))
    && (forall i, j :: 0 <= i < j < |ds| ==> ds[i].trade != ds[j].trade)
  }

  lemma {:induction false} QueryDue(trades: Trades, bar: Bar, tiers: Tiers)
    requires ReadsOnce(bar)
    ensures DueExactly(DecisionsOf(OpenBuys(trades, bar.symbol, bar.scan), bar.price, tiers), trades, bar, tiers)
  {
    hide DueOn, Held;
    var fetched := OpenBuys(trades, bar.symbol, bar.scan);
    var ds := DecisionsOf(fetched, bar.price, tiers);
    QueryExact(trades, bar.symbol, bar.scan);
    forall d: Decision ensures d in ds <==> DueOn(d, trades, bar, tiers) {
      RowDue(trades, bar, tiers, fetched, d);
    }
    forall i: nat, j: nat | i < j < |ds| ensures ds[i].trade != ds[j].trade {
      OneEach(fetched, bar.price, tiers, i, j);
    }
  }

  lemma {:induction false} RowDue(trades: Trades, bar: Bar, tiers: Tiers, fetched: seq<Fetched>, d: Decision)
    requires ExactRows(trades, bar.symbol, bar.scan, fetched)
    ensures d in DecisionsOf(fetched, bar.price, tiers) <==> DueOn(d, trades, bar, tiers)
  {
    hide DecisionDue, DecisionsOf, Unsold;
    DecisionsAre(fetched, bar.price, tiers, d);
    if f :| f in fetched && DecisionDue(d, f.id, f.row, bar.price, tiers) {
      DueNamesIts(d, f.id, f.row, bar.price, tiers);
      var k :| 0 <= k < |fetched| && fetched[k] == f;
    }
    if d.trade in bar.scan && Held(trades, d.trade, bar.symbol) {
      assert Fetched(d.trade, trades[d.trade]) in fetched;
    }
  }

  // A bar's shadow pass that does not fail logs exactly what is due; one that fails logs nothing.
  ghost predicate BarLogged(v: World, log: Log, log': Log, bar: Bar, tiers: Tiers) {
    if log.faults != [] && log.faults[0] then log'.decisions == log.decisions
    else log.decisions <= log'.decisions && DueExactly(log'.decisions[|log.decisions|..], v.db.trades, bar, tiers)
  }

  lemma {:induction false} BarDecisions(v: World, log: Log, p: Params, tiers: Tiers, bar: Bar)
    requires SchemaHolds(v.db) && ReadsOnce(bar)
    ensures BarLogged(v, log, FullBar(v, log, p, tiers, bar).1, bar, tiers)
  {
    hide LiveBar, PreviewBuySignal, Observe, OpenBuys, DueExactly, SchemaHolds;
    var fetched := OpenBuys(v.db.trades, bar.symbol, bar.scan);
    ShadowCommits(v.db, log.decisions, bar, tiers);
    ObserveAppends(v.db, log.decisions, fetched, bar.price, tiers);
    QueryDue(v.db.trades, bar, tiers);
    assert (log.decisions + DecisionsOf(fetched, bar.price, tiers))[|log.decisions|..] == DecisionsOf(fetched, bar.price, tiers);
  }

  // ---- histories ----

  lemma {:induction false} ReachedSchema(p: Params, workers: nat, setup: seq<Action>, v: World, log: Log, tiers: Tiers, w: nat, inputs: seq<Input>)
    requires Ready(Run(Init(p, workers), setup), v, p, w)
    requires forall i :: 0 <= i < |inputs| && inputs[i].BarIn? ==> ReadsOnce(inputs[i].bar)
    ensures SchemaHolds(FullHistory(v, log, p, tiers, inputs).world.db)
  {
    hide Run, Next, Core, FullHistory, SchemaHolds;
    var s := Run(Init(p, workers), setup);
    Reachable(p, workers, setup);
    var actions := HistoryIsRun(s, v, log, p, tiers, w, inputs);
    RunKeepsInv(s, actions);
    InvCore(Run(s, actions));
    CoreIsSchema(Run(s, actions));
  }

  // From empty tables and any set-up, over any history of bars and broker updates: whichever bar comes
  // next logs exactly the decisions that are due on the rows it reads, one per row, unless its shadow
  // transaction fails, when it logs none; and an update logs none.
  lemma {:induction false} DecisionsExactly(p: Params, workers: nat, setup: seq<Action>, v: World, log: Log, tiers: Tiers, w: nat, inputs: seq<Input>, last: Input)
    requires Ready(Run(Init(p, workers), setup), v, p, w)
    requires forall i :: 0 <= i < |inputs| && inputs[i].BarIn? ==> ReadsOnce(inputs[i].bar)
    requires last.BarIn? ==> ReadsOnce(last.bar)
    ensures var o, o' := FullHistory(v, log, p, tiers, inputs), FullHistory(v, log, p, tiers, inputs + [last]);
      if last.BarIn? then BarLogged(o.world, o.log, o'.log, last.bar, tiers) else o'.log == o.log
  {
    hide Run, FullBar, OnUpdate, BarLogged, SchemaHolds;
    ReachedSchema(p, workers, setup, v, log, tiers, w, inputs);
    assert (inputs + [last])[..|inputs|] == inputs;
    var o := FullHistory(v, log, p, tiers, inputs);
    if last.BarIn? { BarDecisions(o.world, o.log, p, tiers, last.bar); }
  }

  // ---- shadow signals ----

  // What a bar adds to the shadow signals: a note that the regime is off or, with the regime on, the signal
  // of a free symbol whose price is above the average, whose index has just come up to 35 and whose
  // sentiment is good.
  ghost function SignalDue(trades: Trades, bar: Bar): seq<ShadowSignal> {
    if !bar.riskOn then [RegimeOff(bar.symbol, bar.price)]
    else if ShadowEntry(trades, bar.symbol, bar.price, bar.shadow) && bar.shadow.verdict == Some(true) then
      [Previewed(EntryAt(bar.symbol, bar.price, bar.shadow.state.value))]
    else []
  }

  lemma PreviewLogs(trades: Trades, log: Log, bar: Bar)
    ensures ShadowBuy(trades, log, bar).signals ==
      if Fails(log.faults, 0) || (bar.riskOn && Fails(log.faults, 1)) then log.signals else log.signals + SignalDue(trades, bar)
  {
    hide ShadowEntry, PreviewBuySignal;
    PreviewOutcome(trades, Head(log.faults), bar.symbol, bar.price, bar.shadow);
    assert log.signals + [] == log.signals;
  }

  lemma EntryAlike(a: Trades, b: Trades, bar: Bar)
    requires Alike(a, b)
    ensures SignalDue(a, bar) == SignalDue(b, bar)
  {
    hide Alike, Blocking, HasOpenPosition;
    SameHasOpen(a, b, bar.symbol);
    PositionExactly(a, bar.symbol);
    PositionExactly(b, bar.symbol);
  }

  // A bar logs the shadow signal that is due on the tables before it, unless the preview's query or the
  // insert fails; it never logs another.
  lemma SignalsExactly(v: World, log: Log, p: Params, tiers: Tiers, bar: Bar)
    ensures FullBar(v, log, p, tiers, bar).1.signals ==
      if Fails(log.faults, 1) || (bar.riskOn && Fails(log.faults, 2)) then log.signals
      else log.signals + SignalDue(v.db.trades, bar)
  {
    hide LiveBar, ShadowBuy, SignalDue, Observe, OpenBuys;
    ShadowOnlyMovesPeaks(v.db, log, bar, tiers);
    var (db, log1) := ShadowExits(v.db, log, bar, tiers);
    PreviewLogs(db.trades, log1, bar);
    EntryAlike(v.db.trades, db.trades, bar);
    assert Fails(log1.faults, 0) == Fails(log.faults, 1) && Fails(log1.faults, 1) == Fails(log.faults, 2);
  }
}
