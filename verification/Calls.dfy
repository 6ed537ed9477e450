/** The trade service's calls run to completion by one caller, as functions on everything
    outside the process: the tables, which database calls fail, which orders the broker
    refuses, the orders it accepted, and the supply of fresh UUIDs. */
module Calls {
  import opened Model
  import opened Database
  import opened Ledger
  import Mapper

  // Bit 0 of `faults` says whether the next transaction or single statement fails, bit 0 of
  // `refusals` whether the broker refuses the next order; an exhausted list means success.
  datatype World = World(db: Tables, faults: seq<bool>, refusals: seq<bool>, log: seq<Accepted>, next: nat)

  function Head(bits: seq<bool>): bool { bits != [] && bits[0] }
  function Tail(bits: seq<bool>): seq<bool> { if bits == [] then [] else bits[1..] }

  // A transaction, or a statement outside one: it fails as a whole or applies as a whole.
  function Commit(w: World, r: Result<Tables>): (World, Result<()>) {
    if Head(w.faults) then (w.(faults := Tail(w.faults)), Err(Infrastructure))
    else (w.(faults := Tail(w.faults), db := Try(w.db, true, r)), if r.Ok? then Ok(()) else Err(r.error))
  }

  // The broker's answer: the new order's ID, or None when it refuses.
  function Place(w: World, order: Accepted): (World, Option<nat>) {
    if Head(w.refusals) then (w.(refusals := Tail(w.refusals)), None)
    else (w.(refusals := Tail(w.refusals), log := w.log + [order]), Some(|w.log|))
  }

  function ExecuteBuyTrade(w: World, p: Params, sig: nat, signal: Signal, account: Option<(nat, Transfer)>): (World, Result<Option<nat>>) {
    match account
    case None => (w, Err(Invalid))
    case Some((budget, transfer)) => BuyAs(w, BuyRow(p, sig, signal, budget, transfer), sig)
  }

  // The buy of a row already sized, if sizing produced one.
  function BuyAs(w: World, sized: Result<Option<Trade>>, sig: nat): (World, Result<Option<nat>>) {
    match sized
    case Err(e) => (w, Err(e))
    case Ok(None) => (w, Ok(None))
    case Ok(Some(row)) => PlaceBuyOrder(w.(next := w.next + 1), w.next, row, sig)
  }

  function PlaceBuyOrder(w: World, id: nat, row: Trade, sig: nat): (World, Result<Option<nat>>) {
    var (w1, r) := Commit(w, CommitBuyTx(w.db, id, row));
    match r
    case Err(e) => (w1, if e.NoRemainingSlots? || e.PositionAlreadyOpen? then Ok(None) else Err(e))
    case Ok(_) => SettleBuy(w1, id, row, sig)
  }

  // The broker call of a committed buy, then its order ID or its cancellation.
  function SettleBuy(w: World, id: nat, row: Trade, sig: nat): (World, Result<Option<nat>>) {
    var (w1, answer) := Place(w, OrderFor(id, row));
    match answer
    case None => (Commit(w1, WriteStatusTx(w1.db, id, row.(status := Cancelled))).0, Err(Infrastructure))
    case Some(order) =>
      var w2 := Commit(w1, UpdateTrade(w1.db, id, row.(order := Some(order)))).0;
      (Commit(w2, Ok(MarkExecuted(w2.db, sig))).0, Ok(Some(id)))
  }

  // One iteration of the second exit loop: place the pre-inserted sell, or clean it up.
  function SettleOne(w: World, f: Fetched): World {
    var (w1, answer) := Place(w, OrderFor(f.id, f.row));
    var sig := if f.row.signal.Some? then f.row.signal.value else 0;
    match answer
    case None =>
      var w2 := Commit(w1, DeleteTrade(w1.db, f.id)).0;
      Commit(w2, DeleteSignal(w2.db, sig)).0
    case Some(order) =>
      var w2 := Commit(w1, UpdateTrade(w1.db, f.id, f.row.(order := Some(order)))).0;
      Commit(w2, Ok(MarkExecuted(w2.db, sig))).0
  }

  function Settle(w: World, pending: seq<Fetched>): World {
    if pending == [] then w else SettleOne(Settle(w, pending[..|pending| - 1]), pending[|pending| - 1])
  }

  function ExitPass(w: World, symbol: string, price: real, scan: seq<nat>): (World, Result<()>) {
    match StageSells(w.db, OpenBuys(w.db.trades, symbol, scan), price, w.next)
    case Err(e) => (w, Err(e))
    case Ok(st) =>
      var (w1, r) := Commit(w, Ok(st.db));
      if r.Err? then (w1, r) else (Settle(w1.(next := st.next), st.pending), Ok(()))
  }

  function ExecuteSellTrade(w: World, sig: nat, signal: Signal, parent: Fetched): (World, Result<nat>) {
    if parent.row.transfer.None? then (w, Err(Invalid)) else
    var id, row := w.next, SellRow(parent.id, parent.row, sig, signal.symbol, signal.price);
    var (w1, r) := Commit(w.(next := w.next + 1), InsertTrade(w.db, id, row));
    if r.Err? then (w1, Err(r.error)) else
    var (w2, answer) := Place(w1, OrderFor(id, row));
    match answer
    case None => (Commit(w2, DeleteTrade(w2.db, id)).0, Err(Infrastructure))
    case Some(order) => (Commit(w2, UpdateTrade(w2.db, id, row.(order := Some(order)))).0, Ok(id))
  }

  function OrderIds(trades: Trades, order: nat): set<nat> {
    set id | id in trades && trades[id].order == Some(order)
  }

  ghost function AnyOf(ids: set<nat>): nat
    requires ids != {}
  {
    var id :| id in ids; id
  }

  // The row an order ID names, if any; unique by the schema.
  ghost function ByOrder(trades: Trades, order: nat): (r: Option<nat>)
    ensures r.Some? ==> r.value in trades && trades[r.value].order == Some(order)
    ensures r.None? ==> forall id :: id in trades ==> trades[id].order != Some(order)
  {
    assert forall id :: id in trades && trades[id].order == Some(order) ==> id in OrderIds(trades, order);
    if OrderIds(trades, order) == {} then None else Some(AnyOf(OrderIds(trades, order)))
  }

  ghost function ApplyTradeUpdates(w: World, p: Params, order: nat, status: Status, fill: Fill): (World, Result<()>) {
    if Head(w.faults) then (w.(faults := Tail(w.faults)), Err(Infrastructure)) else
    var w1 := w.(faults := Tail(w.faults));
    match ByOrder(w.db.trades, order)
    case None => (w1, Ok(()))
    case Some(id) =>
      UpdateRow(w1, p, id, w.db.trades[id], status, fill)
  }

  // What a broker event does to the row it names; terminal rows ignore it.
  function UpdateRow(w: World, p: Params, id: nat, row: Trade, status: Status, fill: Fill): (World, Result<()>) {
    if row.status.Terminal() then (w, Ok(())) else Commit(w, WriteStatusTx(w.db, id, Reconciled(p, row, status, fill)))
  }
}
