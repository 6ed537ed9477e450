/** The machine's actions, one equation each: what an enabled action does to the state. */
module LedgerNext {
  import opened Model
  import opened Database
  import opened Ledger
  import Mapper

  // ---- entering ----

  lemma GateStep(s: State, w: nat, symbol: string)
    requires w < |s.pcs| && s.pcs[w].Idle? && !HasOpenPosition(s.db.trades, symbol)
    ensures Next(s, PassGate(w, symbol)) == Goto(s, w, Gated(symbol))
  {
    hide HasOpenPosition;
  }

  lemma CreateStep(s: State, w: nat, sig: nat, symbol: string, price: real, indicators: Indicators)
    requires w < |s.pcs| && s.pcs[w] == Gated(symbol) && sig !in s.db.signals
    ensures var signal := Signal(symbol, Buy, price, indicators, false);
      Next(s, CreateBuySignal(w, sig, price, indicators))
      == Goto(s, w, Signalled(sig, signal)).(db := s.db.(signals := s.db.signals[sig := signal]))
  {}

  lemma {:induction false} FindBudgetStep(s: State, w: nat, sig: nat, signal: Signal, scan: seq<nat>, t: nat)
    requires w < |s.pcs| && s.pcs[w] == Signalled(sig, signal)
    requires AvailableBudget(s.db.transfers, scan) == Some(t) && t in s.db.transfers
    ensures Next(s, FindBudget(w, scan)) == Goto(s, w, Budgeted(sig, signal, t, s.db.transfers[t]))
  {
    hide AvailableBudget;
  }

  // The buy's transaction commits.
  lemma CommitBuyStep(s: State, w: nat, id: nat, row: Trade)
    requires w < |s.pcs| && s.pcs[w].Budgeted? && CommitBuyTx(s.db, id, row).Ok?
    requires BuyRow(s.params, s.pcs[w].sig, s.pcs[w].signal, s.pcs[w].budget, s.pcs[w].account) == Ok(Some(row))
    ensures Next(s, CommitBuy(w, id)) == Goto(s, w, BuyPlacing(id, row)).(db := CommitBuyTx(s.db, id, row).value)
  {
    hide BuyRow, CommitBuyTx;
  }

  // It does not, or there is nothing to buy.
  lemma NoBuyStep(s: State, w: nat, id: nat)
    requires w < |s.pcs| && s.pcs[w].Budgeted?
    requires var sized := BuyRow(s.params, s.pcs[w].sig, s.pcs[w].signal, s.pcs[w].budget, s.pcs[w].account);
      sized.Err? || sized.value.None? || CommitBuyTx(s.db, id, sized.value.value).Err?
    ensures Next(s, CommitBuy(w, id)) == Goto(s, w, Idle)
  {
    hide BuyRow, CommitBuyTx;
  }

  lemma PlaceBuyStep(s: State, w: nat, id: nat, row: Trade, accepted: bool)
    requires w < |s.pcs| && s.pcs[w] == BuyPlacing(id, row)
    ensures Next(s, PlaceBuy(w, accepted)) ==
      if accepted then Goto(s, w, BuyPersisting(id, row.(order := Some(|s.log|)))).(log := s.log + [OrderFor(id, row)])
      else Goto(s, w, BuyCancelling(id, row.(status := Cancelled)))
  {}

  lemma PersistBuyStep(s: State, w: nat, id: nat, row: Trade, ok: bool)
    requires w < |s.pcs| && s.pcs[w] == BuyPersisting(id, row)
    ensures Next(s, PersistBuy(w, ok))
         == Goto(s, w, if row.signal.Some? then BuyMarking(row.signal.value) else Idle).(db := Try(s.db, ok, UpdateTrade(s.db, id, row)))
  {
    hide UpdateTrade;
  }

  lemma MarkBuyStep(s: State, w: nat, sig: nat, ok: bool)
    requires w < |s.pcs| && s.pcs[w] == BuyMarking(sig)
    ensures Next(s, MarkBuy(w, ok)) == Goto(s, w, Idle).(db := Try(s.db, ok, Ok(MarkExecuted(s.db, sig))))
  {
    hide MarkExecuted;
  }

  lemma CancelStep(s: State, w: nat, id: nat, row: Trade, ok: bool)
    requires w < |s.pcs| && s.pcs[w] == BuyCancelling(id, row)
    ensures Next(s, CancelBuy(w, ok)) == Goto(s, w, Idle).(db := Try(s.db, ok, WriteStatusTx(s.db, id, row)))
  {
    hide WriteStatusTx;
  }

  // A call that ends early leaves its worker idle.
  lemma LeaveStep(s: State, w: nat)
    requires w < |s.pcs|
    ensures Next(s, Abandon(w)) == Goto(s, w, Idle)
  {}

  // ---- exits ----

  lemma {:induction false} CommitExitsStep(s: State, w: nat, symbol: string, price: real, scan: seq<nat>, next: nat)
    requires w < |s.pcs| && s.pcs[w].Idle?
    ensures var r := StageSells(s.db, OpenBuys(s.db.trades, symbol, scan), price, next);
      Next(s, CommitExits(w, symbol, price, scan, next))
      == if r.Ok? then Goto(s, w, Exits(RowsOf(r.value.pending), true)).(db := r.value.db) else s
  {
    hide StageOne, OpenBuy;
  }

  lemma CommitSellStep(s: State, w: nat, parent: nat, sig: nat, id: nat)
    requires w < |s.pcs| && s.pcs[w].Idle? && parent in s.db.trades && sig in s.db.signals
    ensures var row := SellRow(parent, s.db.trades[parent], sig, s.db.signals[sig].symbol, s.db.signals[sig].price);
      Next(s, CommitSell(w, parent, sig, id)) ==
        if InsertTrade(s.db, id, row).Ok? then Goto(s, w, Exits(map[id := row], false)).(db := InsertTrade(s.db, id, row).value)
        else s
  {
    hide InsertTrade;
  }

  lemma PlaceSellStep(s: State, w: nat, id: nat, rest: Trades, pass: bool, accepted: bool)
    requires w < |s.pcs| && s.pcs[w] == Exits(rest, pass) && id in rest
    ensures Next(s, PlaceSell(w, id, accepted)) ==
      if accepted then
        Goto(s, w, SellPersisting(id, rest[id].(order := Some(|s.log|)), rest - {id}, pass)).(log := s.log + [OrderFor(id, rest[id])])
      else Goto(s, w, SellUndoTrade(id, rest[id], rest - {id}, pass))
  {}

  lemma PersistSellStep(s: State, w: nat, id: nat, row: Trade, rest: Trades, pass: bool, ok: bool)
    requires w < |s.pcs| && s.pcs[w] == SellPersisting(id, row, rest, pass)
    ensures Next(s, PersistSell(w, ok))
         == Goto(s, w, if pass && row.signal.Some? then SellMarking(row.signal.value, rest) else Exits(rest, pass))
              .(db := Try(s.db, ok, UpdateTrade(s.db, id, row)))
  {
    hide UpdateTrade;
  }

  lemma MarkSellStep(s: State, w: nat, sig: nat, rest: Trades, ok: bool)
    requires w < |s.pcs| && s.pcs[w] == SellMarking(sig, rest)
    ensures Next(s, MarkSell(w, ok)) == Goto(s, w, Exits(rest, true)).(db := Try(s.db, ok, Ok(MarkExecuted(s.db, sig))))
  {
    hide MarkExecuted;
  }

  lemma UndoTradeStep(s: State, w: nat, id: nat, row: Trade, rest: Trades, pass: bool, ok: bool)
    requires w < |s.pcs| && s.pcs[w] == SellUndoTrade(id, row, rest, pass)
    ensures var deleted := ok && DeleteTrade(s.db, id).Ok?;
      Next(s, UndoTrade(w, ok))
      == Goto(s, w, if pass && row.signal.Some? then SellUndoSignal(row.signal.value, rest) else Exits(rest, pass))
           .(db := Try(s.db, ok, DeleteTrade(s.db, id)),
             undone := if deleted then s.undone + Reexposed(s.db.trades, row) else s.undone)
  {
    hide DeleteTrade, Reexposed;
  }

  lemma UndoSignalStep(s: State, w: nat, sig: nat, rest: Trades, ok: bool)
    requires w < |s.pcs| && s.pcs[w] == SellUndoSignal(sig, rest)
    ensures Next(s, UndoSignal(w, ok)) == Goto(s, w, Exits(rest, true)).(db := Try(s.db, ok, DeleteSignal(s.db, sig)))
  {
    hide DeleteSignal;
  }

  // ---- broker events ----

  lemma ReadEventStep(s: State, id: nat, event: string, status: Status, fill: Fill)
    requires s.consumer.Waiting? && Mapper.StatusOf(event) == Some(status)
    requires id in s.db.trades && s.db.trades[id].order.Some? && !s.db.trades[id].status.Terminal()
    ensures Next(s, ReadEvent(id, event, fill)) == s.(consumer := Writing(id, s.db.trades[id], status, fill))
  {}

  lemma WriteEventStep(s: State, id: nat, row: Trade, status: Status, fill: Fill, ok: bool)
    requires s.consumer == Writing(id, row, status, fill)
    ensures Next(s, WriteEvent(ok))
         == s.(consumer := Waiting, db := Try(s.db, ok, WriteStatusTx(s.db, id, Reconciled(s.params, row, status, fill))))
  {
    hide WriteStatusTx, Reconciled;
  }
}
