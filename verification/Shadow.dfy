/** The live bar, and the full bar that runs the shadow pass first (live_coordinator.go,
    trading_coordinator.go), as functions on the world and the shadow tables. */
module Shadow {
  import opened Model
  import opened Database
  import opened Adaptive
  import opened Ledger
  import opened Calls
  import opened Signals

  // One bar and what the process sees with it: the order in which each table is read and the
  // market views of the live and of the shadow path.
  datatype Bar = Bar(symbol: string, price: real, scan: seq<nat>, transferScan: seq<nat>,
                     live: Market, riskOn: bool, shadow: Market)

  datatype Kind = StopMoved | ExitStop | ExitTakeProfit

  datatype Decision = Decision(trade: nat, price: real, peak: real, stop: Option<real>, kind: Kind)

  datatype ShadowSignal = RegimeOff(symbol: string, price: real) | Previewed(signal: Signal)

  // The shadow path's own rows and which of its database calls fail.
  datatype Log = Log(decisions: seq<Decision>, signals: seq<ShadowSignal>, faults: seq<bool>)

  // ---- live path ----

  function LiveBar(w: World, p: Params, bar: Bar): (World, Result<()>) {
    var (w1, exits) := ExitPass(w, bar.symbol, bar.price, bar.scan);
    if exits.Err? then (w1, exits) else
    var (w2, entry) := EvaluateBuySignal(w1, bar.symbol, bar.price, bar.live);
    if entry.Err? then (w2, Err(entry.error)) else
    if entry.value.None? then (w2, Ok(())) else
    var (w3, failed) := Read(w2);
    if failed then (w3, Err(Infrastructure)) else
    var budget := AvailableBudget(w3.db.transfers, bar.transferScan);
    if budget.None? || budget.value !in w3.db.transfers then (w3, Ok(())) else
    var (w4, bought) := ExecuteBuyTrade(w3, p, entry.value.value.0, entry.value.value.1, Some((budget.value, w3.db.transfers[budget.value])));
    (w4, if bought.Ok? then Ok(()) else Err(bought.error))
  }

  // ---- shadow exits ----

  function NewPeak(row: Trade, price: real): real
    requires Tracked(row)
  {
    Max(PeakOf(row), price)
  }

  function StopAt(row: Trade, peak: real, tiers: Tiers): real
    requires Tracked(row)
  {
    EffectiveStop(peak, EntryPrice(row).value, row.entryATR.value, row.stopLoss.value, tiers)
  }

  predicate StaticHolds(row: Trade, price: real) { !Triggered(row, price) }

  function AdaptiveDecision(id: nat, row: Trade, price: real, tiers: Tiers): Option<Decision>
    requires Tracked(row)
  {
    var oldEff, newEff := StopAt(row, PeakOf(row), tiers), StopAt(row, NewPeak(row, price), tiers);
    if !StaticHolds(row, price) then None
    else if price <= newEff then Some(Decision(id, price, NewPeak(row, price), Some(newEff), ExitStop))
    else if newEff > oldEff then Some(Decision(id, price, NewPeak(row, price), Some(newEff), StopMoved))
    else None
  }

  function LegacyDecision(id: nat, row: Trade, price: real): Option<Decision> {
    if row.stopLoss.Some? && price <= row.stopLoss.value then Some(Decision(id, price, price, row.stopLoss, ExitStop))
    else if row.takeProfit.Some? && price >= row.takeProfit.value then Some(Decision(id, price, price, row.stopLoss, ExitTakeProfit))
    else None
  }

  function DecisionFor(id: nat, row: Trade, price: real, tiers: Tiers): Option<Decision> {
    if row.entryATR.Some? && row.entryATR.value != 0.0 then
      if Tracked(row) then AdaptiveDecision(id, row, price, tiers) else None
    else LegacyDecision(id, row, price)
  }

  datatype Observed = Observed(db: Tables, decisions: seq<Decision>)

  function ObserveOne(o: Observed, f: Fetched, price: real, tiers: Tiers): Result<Observed> {
    var row := RaisePeak(f.row, price);
    var decision := DecisionFor(f.id, f.row, price, tiers);
    var logged := if decision.Some? then o.decisions + [decision.value] else o.decisions;
    if row == f.row then Ok(Observed(o.db, logged)) else
    match UpdateTrade(o.db, f.id, row)
    case Err(e) => Err(e)
    case Ok(db) => Ok(Observed(db, logged))
  }

  // The shadow exit transaction's body.
  function Observe(db: Tables, decisions: seq<Decision>, fetched: seq<Fetched>, price: real, tiers: Tiers): Result<Observed> {
    if fetched == [] then Ok(Observed(db, decisions)) else
    match Observe(db, decisions, fetched[..|fetched| - 1], price, tiers)
    case Err(e) => Err(e)
    case Ok(o) => ObserveOne(o, fetched[|fetched| - 1], price, tiers)
  }

  // Best effort: a failed transaction is logged and changes nothing.
  function ShadowExits(db: Tables, log: Log, bar: Bar, tiers: Tiers): (Tables, Log) {
    var r := Observe(db, log.decisions, OpenBuys(db.trades, bar.symbol, bar.scan), bar.price, tiers);
    var log1 := log.(faults := Tail(log.faults));
    if r.Err? || Head(log.faults) then (db, log1) else (r.value.db, log1.(decisions := r.value.decisions))
  }

  function LogSignal(log: Log, s: ShadowSignal): Log {
    if Head(log.faults) then log.(faults := Tail(log.faults))
    else log.(faults := Tail(log.faults), signals := log.signals + [s])
  }

  function ShadowBuy(trades: Trades, log: Log, bar: Bar): Log {
    if !bar.riskOn then LogSignal(log, RegimeOff(bar.symbol, bar.price)) else
    var r := PreviewBuySignal(trades, Head(log.faults), bar.symbol, bar.price, bar.shadow);
    var log1 := log.(faults := Tail(log.faults));
    if r.Err? || r.value.None? then log1 else LogSignal(log1, Previewed(r.value.value))
  }

  function FullBar(w: World, log: Log, p: Params, tiers: Tiers, bar: Bar): (World, Log, Result<()>) {
    var (db, log1) := ShadowExits(w.db, log, bar, tiers);
    var log2 := ShadowBuy(db.trades, log1, bar);
    var (w', r) := LiveBar(w.(db := db), p, bar);
    (w', log2, r)
  }
}
