/** The order ledger as a step machine: any number of bar workers interleave with
    one broker-update consumer over shared tables. A transaction is one action, and
    so is every broker call and every single statement outside a transaction. */
module Ledger {
  import opened Model
  import opened Database
  import opened Sizing
  import opened Adaptive
  import Mapper

  // ---- what the trade service writes ----

  // The row ExecuteBuyTrade builds from its in-memory signal and account; None: nothing to do.
  function BuyRow(p: Params, sig: nat, signal: Signal, budget: nat, account: Transfer): Result<Option<Trade>> {
    if !HasSlot(account) then Ok(None) else
    match Quantity(p, account.amountUSD, account.targetTrades, signal.price, signal.indicators.atr)
    case Err(e) => Err(e)
    case Ok(q) =>
      if q <= 0.0 then Ok(None) else
      Ok(Some(Trade(
        None, Some(sig), Some(budget), None, signal.symbol, Buy, q, Some(signal.price),
        None, None, None,
        Some(signal.price - StopDistance(p, signal.indicators.atr)),
        Some(signal.price + TargetDistance(p, signal.indicators.atr)),
        Some(signal.price), Some(signal.indicators.atr), Pending)))
  }

  // Position re-check, insert and slot decrement, in one transaction.
  function CommitBuyTx(db: Tables, id: nat, row: Trade): Result<Tables> {
    if HasOpenPosition(db.trades, row.symbol) then Err(PositionAlreadyOpen) else
    match InsertTrade(db, id, row)
    case Err(e) => Err(e)
    case Ok(db1) => DecrementRemaining(db1, row.transfer.value)
  }

  // The row write and the refund of cancelTradeAndRestoreSlot and ApplyTradeUpdates, in one transaction.
  function WriteStatusTx(db: Tables, id: nat, row: Trade): Result<Tables> {
    match UpdateTrade(db, id, row)
    case Err(e) => Err(e)
    case Ok(db1) =>
      if row.status.Refunds() && row.side.Buy? && row.transfer.Some? then IncrementRemaining(db1, row.transfer.value)
      else Ok(db1)
  }

  function Notional(quantity: real, price: real): real { quantity * price }

  function Fee(notional: real, pct: real): real { notional * pct }

  // A row after a broker event: status, fill price and, on a priced fill, the fees.
  function Reconciled(p: Params, row: Trade, status: Status, fill: Fill): Trade {
    var r := row.(status := status, avgFill := fill.avgPrice);
    if status.Filled? && fill.avgPrice.Some? then
      var notional := Notional(fill.quantity, fill.avgPrice.value);
      r.(commission := Some(Fee(notional, p.commissionPct)), fxFee := Some(Fee(notional, p.fxPct)))
    else r
  }

  predicate Triggered(row: Trade, price: real) {
    || (row.stopLoss.Some? && price <= row.stopLoss.value)
    || (row.takeProfit.Some? && price >= row.takeProfit.value)
  }

  function SellSignal(symbol: string, price: real): Signal {
    Signal(symbol, Sell, price, Indicators(0.0, 0.0, 0.0), false)
  }

  function SellRow(parent: nat, buy: Trade, sig: nat, symbol: string, price: real): Trade {
    Trade(Some(parent), Some(sig), buy.transfer, None, symbol, Sell, buy.quantity, Some(price),
          None, None, None, None, None, None, None, Pending)
  }

  datatype Staged = Staged(db: Tables, pending: seq<Fetched>, next: nat)

  // One iteration of the first exit loop; `next` is the next fresh UUID.
  function StageOne(st: Staged, f: Fetched, price: real): Result<Staged> {
    if !Triggered(f.row, price) then Ok(st) else
    match InsertSignal(st.db, st.next, SellSignal(f.row.symbol, price))
    case Err(e) => Err(e)
    case Ok(db1) =>
      var row := SellRow(f.id, f.row, st.next, f.row.symbol, price);
      match InsertTrade(db1, st.next, row)
      case Err(e) => Err(e)
      case Ok(db2) => Ok(Staged(db2, st.pending + [Fetched(st.next, row)], st.next + 1))
  }

  function StageSells(db: Tables, fetched: seq<Fetched>, price: real, next: nat): Result<Staged> {
    if fetched == [] then Ok(Staged(db, [], next)) else
    match StageSells(db, fetched[..|fetched| - 1], price, next)
    case Err(e) => Err(e)
    case Ok(st) => StageOne(st, fetched[|fetched| - 1], price)
  }

  function RowsOf(pending: seq<Fetched>): Trades {
    if pending == [] then map[] else
    RowsOf(pending[..|pending| - 1])[pending[|pending| - 1].id := pending[|pending| - 1].row]
  }

  // ---- the machine ----

  // Where a worker stands and the copies it holds in memory. Rows it inserted and has not
  // settled are in `id`/`row` and, for an exit pass, in `rest`; `pass` is false for ExecuteSellTrade.
  datatype Pc =
    | Idle
    | Gated(symbol: string)
    | Signalled(sig: nat, signal: Signal)
    | Budgeted(sig: nat, signal: Signal, budget: nat, account: Transfer)
    | BuyPlacing(id: nat, row: Trade)
    | BuyPersisting(id: nat, row: Trade)
    | BuyMarking(sig: nat)
    | BuyCancelling(id: nat, row: Trade)
    | Exits(rest: Trades, pass: bool)
    | SellPersisting(id: nat, row: Trade, rest: Trades, pass: bool)
    | SellMarking(sig: nat, rest: Trades)
    | SellUndoTrade(id: nat, row: Trade, rest: Trades, pass: bool)
    | SellUndoSignal(sig: nat, rest: Trades)

  // The update consumer between its read and its write.
  datatype Consumer = Waiting | Writing(id: nat, row: Trade, status: Status, fill: Fill)

  // `log`, `initial` and `undone` are history: orders the broker accepted, slots each transfer
  // started with, and the symbol of the buy re-exposed by each cleanup delete of a sell.
  datatype State = State(
    params: Params, db: Tables, pcs: seq<Pc>, consumer: Consumer,
    log: seq<Accepted>, initial: map<nat, Option<int>>, undone: multiset<string>)

  datatype Action =
    | AddTransfer(t: nat, transfer: Transfer)
    | AddSignal(sig: nat, signal: Signal)
    | PassGate(w: nat, symbol: string)
    | CreateBuySignal(w: nat, sig: nat, price: real, indicators: Indicators)
    | FindBudget(w: nat, scan: seq<nat>)
    | CommitBuy(w: nat, id: nat)
    | PlaceBuy(w: nat, accepted: bool)
    | PersistBuy(w: nat, ok: bool)
    | MarkBuy(w: nat, ok: bool)
    | CancelBuy(w: nat, ok: bool)
    | CommitExits(w: nat, symbol: string, price: real, scan: seq<nat>, next: nat)
    | CommitSell(w: nat, parent: nat, sig: nat, id: nat)
    | PlaceSell(w: nat, id: nat, accepted: bool)
    | PersistSell(w: nat, ok: bool)
    | MarkSell(w: nat, ok: bool)
    | UndoTrade(w: nat, ok: bool)
    | UndoSignal(w: nat, ok: bool)
    | TrackPeaks(symbol: string, price: real, scan: seq<nat>)
    | ReadEvent(id: nat, event: string, fill: Fill)
    | WriteEvent(ok: bool)
    | Abandon(w: nat)
    | AbandonConsumer

  function Goto(s: State, w: nat, pc: Pc): State
    requires w < |s.pcs|
  {
    s.(pcs := s.pcs[w := pc])
  }

  // The tables after a statement that may fail: with `ok` false, or refused, they are unchanged.
  function Try(db: Tables, ok: bool, r: Result<Tables>): Tables {
    if ok && r.Ok? then r.value else db
  }

  // The symbol of the buy that deleting the sell `row` re-exposes.
  function Reexposed(trades: Trades, row: Trade): multiset<string> {
    if row.parent.Some? && row.parent.value in trades then multiset{trades[row.parent.value].symbol} else multiset{}
  }

  function NextBuy(s: State, w: nat, a: Action): State
    requires w < |s.pcs|
  {
    match (a, s.pcs[w])
    case (PassGate(_, symbol), Idle) =>
      if HasOpenPosition(s.db.trades, symbol) then s else Goto(s, w, Gated(symbol))
    case (CreateBuySignal(_, sig, price, indicators), Gated(symbol)) =>
      var signal := Signal(symbol, Buy, price, indicators, false);
      (match InsertSignal(s.db, sig, signal)
       case Err(_) => Goto(s, w, Idle)
       case Ok(db) => Goto(s, w, Signalled(sig, signal)).(db := db))
    case (FindBudget(_, scan), Signalled(sig, signal)) =>
      (match AvailableBudget(s.db.transfers, scan)
       case None => Goto(s, w, Idle)
       case Some(t) =>
         if t in s.db.transfers then Goto(s, w, Budgeted(sig, signal, t, s.db.transfers[t])) else Goto(s, w, Idle))
    case (CommitBuy(_, id), Budgeted(sig, signal, budget, account)) =>
      (match BuyRow(s.params, sig, signal, budget, account)
       case Err(_) => Goto(s, w, Idle)
       case Ok(None) => Goto(s, w, Idle)
       case Ok(Some(row)) =>
         match CommitBuyTx(s.db, id, row)
         case Err(_) => Goto(s, w, Idle)
         case Ok(db) => Goto(s, w, BuyPlacing(id, row)).(db := db))
    case (PlaceBuy(_, accepted), BuyPlacing(id, row)) =>
      if accepted then
        Goto(s, w, BuyPersisting(id, row.(order := Some(|s.log|)))).(log := s.log + [OrderFor(id, row)])
      else Goto(s, w, BuyCancelling(id, row.(status := Cancelled)))
    case (PersistBuy(_, ok), BuyPersisting(id, row)) =>
      Goto(s, w, if row.signal.Some? then BuyMarking(row.signal.value) else Idle)
        .(db := Try(s.db, ok, UpdateTrade(s.db, id, row)))
    case (MarkBuy(_, ok), BuyMarking(sig)) =>
      Goto(s, w, Idle).(db := Try(s.db, ok, Ok(MarkExecuted(s.db, sig))))
    case (CancelBuy(_, ok), BuyCancelling(id, row)) =>
      Goto(s, w, Idle).(db := Try(s.db, ok, WriteStatusTx(s.db, id, row)))
    case _ => s
  }

  function NextSell(s: State, w: nat, a: Action): State
    requires w < |s.pcs|
  {
    match (a, s.pcs[w])
    case (CommitExits(_, symbol, price, scan, next), Idle) =>
      (match StageSells(s.db, OpenBuys(s.db.trades, symbol, scan), price, next)
       case Err(_) => s
       case Ok(st) => Goto(s, w, Exits(RowsOf(st.pending), true)).(db := st.db))
    case (CommitSell(_, parent, sig, id), Idle) =>
      if parent !in s.db.trades || sig !in s.db.signals then s else
      var signal := s.db.signals[sig];
      var row := SellRow(parent, s.db.trades[parent], sig, signal.symbol, signal.price);
      (match InsertTrade(s.db, id, row)
       case Err(_) => s
       case Ok(db) => Goto(s, w, Exits(map[id := row], false)).(db := db))
    case (PlaceSell(_, id, accepted), Exits(rest, pass)) =>
      if id !in rest then s else
      var row := rest[id];
      if accepted then
        Goto(s, w, SellPersisting(id, row.(order := Some(|s.log|)), rest - {id}, pass)).(log := s.log + [OrderFor(id, row)])
      else Goto(s, w, SellUndoTrade(id, row, rest - {id}, pass))
    case (PersistSell(_, ok), SellPersisting(id, row, rest, pass)) =>
      Goto(s, w, if pass && row.signal.Some? then SellMarking(row.signal.value, rest) else Exits(rest, pass))
        .(db := Try(s.db, ok, UpdateTrade(s.db, id, row)))
    case (MarkSell(_, ok), SellMarking(sig, rest)) =>
      Goto(s, w, Exits(rest, true)).(db := Try(s.db, ok, Ok(MarkExecuted(s.db, sig))))
    case (UndoTrade(_, ok), SellUndoTrade(id, row, rest, pass)) =>
      var t := Goto(s, w, if pass && row.signal.Some? then SellUndoSignal(row.signal.value, rest) else Exits(rest, pass));
      if ok && DeleteTrade(s.db, id).Ok? then
        t.(db := DeleteTrade(s.db, id).value, undone := s.undone + Reexposed(s.db.trades, row))
      else t
    case (UndoSignal(_, ok), SellUndoSignal(sig, rest)) =>
      Goto(s, w, Exits(rest, true)).(db := Try(s.db, ok, DeleteSignal(s.db, sig)))
    case _ => s
  }

  function NextEvent(s: State, a: Action): State {
    match (a, s.consumer)
    case (ReadEvent(id, event, fill), Waiting) =>
      var status := Mapper.StatusOf(event);
      if status.None? || id !in s.db.trades || s.db.trades[id].order.None? || s.db.trades[id].status.Terminal() then s
      else s.(consumer := Writing(id, s.db.trades[id], status.value, fill))
    case (WriteEvent(ok), Writing(id, row, status, fill)) =>
      s.(consumer := Waiting, db := Try(s.db, ok, WriteStatusTx(s.db, id, Reconciled(s.params, row, status, fill))))
    case (AbandonConsumer, _) => s.(consumer := Waiting)
    case _ => s
  }

  // Total: an action that is not enabled leaves the state alone, so every list of actions is a run.
  function Next(s: State, a: Action): State {
    match a
    case AddTransfer(t, transfer) =>
      if t in s.db.transfers then s else
      s.(db := s.db.(transfers := s.db.transfers[t := transfer]), initial := s.initial[t := transfer.remaining])
    case AddSignal(sig, signal) =>
      if signal.executed then s else s.(db := Try(s.db, true, InsertSignal(s.db, sig, signal)))
    case ReadEvent(_, _, _) => NextEvent(s, a)
    case WriteEvent(_) => NextEvent(s, a)
    case AbandonConsumer => NextEvent(s, a)
    case TrackPeaks(symbol, price, scan) =>
      var ids := set f | f in OpenBuys(s.db.trades, symbol, scan) :: f.id;
      s.(db := s.db.(trades := RaisePeaks(s.db.trades, ids, price)))
    case Abandon(w) => if w < |s.pcs| then Goto(s, w, Idle) else s
    case CommitExits(w, _, _, _, _) => if w < |s.pcs| then NextSell(s, w, a) else s
    case CommitSell(w, _, _, _) => if w < |s.pcs| then NextSell(s, w, a) else s
    case PlaceSell(w, _, _) => if w < |s.pcs| then NextSell(s, w, a) else s
    case PersistSell(w, _) => if w < |s.pcs| then NextSell(s, w, a) else s
    case MarkSell(w, _) => if w < |s.pcs| then NextSell(s, w, a) else s
    case UndoTrade(w, _) => if w < |s.pcs| then NextSell(s, w, a) else s
    case UndoSignal(w, _) => if w < |s.pcs| then NextSell(s, w, a) else s
    case _ => if a.w < |s.pcs| then NextBuy(s, a.w, a) else s
  }

  function Run(s: State, actions: seq<Action>): State {
    if actions == [] then s else Next(Run(s, actions[..|actions| - 1]), actions[|actions| - 1])
  }

  // Empty tables and `workers` idle workers.
  function Init(params: Params, workers: nat): State {
    State(params, Tables(map[], map[], map[]), seq(workers, i => Idle), Waiting, [], map[], multiset{})
  }
}
