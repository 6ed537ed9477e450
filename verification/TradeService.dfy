/** The repositories and the trade service in the source's own form: methods that overwrite
    tables and counters step by step, proved against the functions of Ledger and Calls. */
module TradeServices {
  import opened Model
  import opened Database
  import opened Ledger
  import opened Calls
  import Sizing

  // The tables behind the repositories, the broker, and the supply of fresh UUIDs.
  // `tx` says that the context carries an open transaction: then only its commit can fail.
  class Backend {
    var trades: Trades
    var signals: map<nat, Signal>
    var transfers: map<nat, Transfer>
    var faults: seq<bool>
    var refusals: seq<bool>
    var log: seq<Accepted>
    var next: nat

    constructor (db: Tables, faults: seq<bool>, refusals: seq<bool>, log: seq<Accepted>, next: nat)
      ensures State() == World(db, faults, refusals, log, next)
    {
      trades, signals, transfers := db.trades, db.signals, db.transfers;
      this.faults, this.refusals, this.log, this.next := faults, refusals, log, next;
    }

    function Db(): Tables
      reads this
    {
      Tables(trades, signals, transfers)
    }

    function State(): World
      reads this
    {
      World(Db(), faults, refusals, log, next)
    }

    // Pops the outcome of the next database call.
    method Fault() returns (failed: bool)
      modifies this`faults
      ensures failed == Head(old(faults)) && faults == Tail(old(faults))
    {
      failed := Head(faults);
      faults := Tail(faults);
    }

    // ---- transactor ----

    // WithinTransaction's end: commit when the body succeeded and the commit does, else roll back.
    method End(saved: Tables, body: Result<()>) returns (r: Result<()>)
      modifies this
      ensures State() == Commit(old(State()).(db := saved), if body.Ok? then Ok(old(Db())) else Err(body.error)).0
      ensures r == Commit(old(State()).(db := saved), if body.Ok? then Ok(old(Db())) else Err(body.error)).1
    {
      var failed := Fault();
      if failed {
        r := Err(Infrastructure);
      } else {
        r := if body.Ok? then Ok(()) else body;
      }
      if r.Err? {
        trades, signals, transfers := saved.trades, saved.signals, saved.transfers;
      }
    }

    // ---- trade repository ----

    method CreateTrade(tx: bool, id: nat, row: Trade) returns (r: Result<()>)
      modifies this
      ensures tx ==> State() == old(State()).(db := Try(old(Db()), true, InsertTrade(old(Db()), id, row)))
      ensures tx ==> r == (match InsertTrade(old(Db()), id, row) case Ok(_) => Ok(()) case Err(e) => Err(e))
      ensures !tx ==> (State(), r) == Commit(old(State()), InsertTrade(old(Db()), id, row))
    {
      if !tx {
        var failed := Fault();
        if failed { return Err(Infrastructure); }
      }
      if id in trades { return Err(UniqueViolation); }
      r := Write(id, row);
    }

    method UpdateTradeRow(tx: bool, id: nat, row: Trade) returns (r: Result<()>)
      modifies this
      ensures tx ==> State() == old(State()).(db := Try(old(Db()), true, UpdateTrade(old(Db()), id, row)))
      ensures tx ==> r == (match UpdateTrade(old(Db()), id, row) case Ok(_) => Ok(()) case Err(e) => Err(e))
      ensures !tx ==> (State(), r) == Commit(old(State()), UpdateTrade(old(Db()), id, row))
    {
      if !tx {
        var failed := Fault();
        if failed { return Err(Infrastructure); }
      }
      if id !in trades { return Ok(()); }
      r := Write(id, row);
    }

    method Write(id: nat, row: Trade) returns (r: Result<()>)
      modifies this`trades
      ensures Db() == Try(old(Db()), true, Put(old(Db()), id, row))
      ensures r == (match Put(old(Db()), id, row) case Ok(_) => Ok(()) case Err(e) => Err(e))
    {
      match Put(Db(), id, row)
      case Err(e) => r := Err(e);
      case Ok(db) =>
        trades := trades[id := row];
        r := Ok(());
    }

    method DeleteTradeRow(id: nat) returns (r: Result<()>)
      modifies this
      ensures (State(), r) == Commit(old(State()), DeleteTrade(old(Db()), id))
    {
      var failed := Fault();
      if failed { return Err(Infrastructure); }
      if exists k | k in trades :: k != id && trades[k].parent == Some(id) { return Err(ForeignKeyViolation); }
      trades := trades - {id};
      r := Ok(());
    }

    // The row loop of the open-buy query.
    method GetOpenBuyTradesBySymbol(symbol: string, scan: seq<nat>) returns (rows: seq<Fetched>)
      ensures rows == OpenBuys(trades, symbol, scan)
    {
      rows := [];
      var i := 0;
      while i < |scan|
        invariant i <= |scan| && rows == OpenBuys(trades, symbol, scan[..i])
      {
        assert scan[..i + 1][..i] == scan[..i];
        if OpenBuy(trades, scan[i], symbol) {
          rows := rows + [Fetched(scan[i], trades[scan[i]])];
        }
        i := i + 1;
      }
      assert scan[..i] == scan;
    }

    method GetByAlpacaOrderID(order: nat) returns (r: Result<Option<Fetched>>)
      requires UniqueOrders(trades)
      modifies this`faults
      ensures faults == Tail(old(faults))
      ensures r == if Head(old(faults)) then Err(Infrastructure) else Ok(
        match ByOrder(trades, order) case None => None case Some(id) => Some(Fetched(id, trades[id])))
    {
      var failed := Fault();
      if failed { return Err(Infrastructure); }
      if exists id | id in trades :: trades[id].order == Some(order) {
        var id :| id in trades && trades[id].order == Some(order);
        return Ok(Some(Fetched(id, trades[id])));
      }
      return Ok(None);
    }

    method HasOpen(symbol: string) returns (r: Result<bool>)
      modifies this`faults
      ensures faults == Tail(old(faults))
      ensures r == if Head(old(faults)) then Err(Infrastructure) else Ok(HasOpenPosition(trades, symbol))
    {
      var failed := Fault();
      if failed { return Err(Infrastructure); }
      r := Ok(HasOpenPosition(trades, symbol));
    }

    // ---- signal repository ----

    method CreateSignal(tx: bool, id: nat, signal: Signal) returns (r: Result<()>)
      modifies this
      ensures tx ==> State() == old(State()).(db := Try(old(Db()), true, InsertSignal(old(Db()), id, signal)))
      ensures tx ==> r == (match InsertSignal(old(Db()), id, signal) case Ok(_) => Ok(()) case Err(e) => Err(e))
      ensures !tx ==> (State(), r) == Commit(old(State()), InsertSignal(old(Db()), id, signal))
    {
      if !tx {
        var failed := Fault();
        if failed { return Err(Infrastructure); }
      }
      if id in signals { return Err(UniqueViolation); }
      signals := signals[id := signal];
      r := Ok(());
    }

    method DeleteSignalRow(id: nat) returns (r: Result<()>)
      modifies this
      ensures (State(), r) == Commit(old(State()), DeleteSignal(old(Db()), id))
    {
      var failed := Fault();
      if failed { return Err(Infrastructure); }
      if exists k | k in trades :: trades[k].signal == Some(id) { return Err(ForeignKeyViolation); }
      signals := signals - {id};
      r := Ok(());
    }

    method MarkSignalExecuted(id: nat) returns (r: Result<()>)
      modifies this
      ensures (State(), r) == Commit(old(State()), Ok(MarkExecuted(old(Db()), id)))
    {
      var failed := Fault();
      if failed { return Err(Infrastructure); }
      if id in signals {
        signals := signals[id := signals[id].(executed := true)];
      }
      r := Ok(());
    }

    // ---- account transfer repository, always inside a transaction ----

    method DecrementRemainingTrades(id: nat) returns (r: Result<()>)
      modifies this`transfers
      ensures Db() == Try(old(Db()), true, DecrementRemaining(old(Db()), id))
      ensures r == (match DecrementRemaining(old(Db()), id) case Ok(_) => Ok(()) case Err(e) => Err(e))
    {
      if id !in transfers || !HasSlot(transfers[id]) { return Err(NoRemainingSlots); }
      transfers := transfers[id := transfers[id].(remaining := Some(transfers[id].remaining.value - 1))];
      r := Ok(());
    }

    method IncrementRemainingTrades(id: nat) returns (r: Result<()>)
      modifies this`transfers
      ensures Db() == Try(old(Db()), true, IncrementRemaining(old(Db()), id))
      ensures r == (match IncrementRemaining(old(Db()), id) case Ok(_) => Ok(()) case Err(e) => Err(e))
    {
      if id !in transfers { return Err(NotFound); }
      if transfers[id].remaining.Some? {
        transfers := transfers[id := transfers[id].(remaining := Some(transfers[id].remaining.value + 1))];
      }
      r := Ok(());
    }

    // The oldest transfer with a slot, with a copy of its row.
    method GetAvailableBudget(scan: seq<nat>) returns (r: Result<Option<(nat, Transfer)>>)
      modifies this`faults
      ensures faults == Tail(old(faults))
      ensures Head(old(faults)) ==> r == Err(Infrastructure)
      ensures !Head(old(faults)) ==> r == match AvailableBudget(transfers, scan)
        case None => Ok(None)
        case Some(t) => Ok(if t in transfers then Some((t, transfers[t])) else None)
    {
      var failed := Fault();
      if failed { return Err(Infrastructure); }
      var found := AvailableBudget(transfers, scan);
      if found.Some? && found.value in transfers {
        r := Ok(Some((found.value, transfers[found.value])));
      } else {
        r := Ok(None);
      }
    }

    // ---- broker ----

    method PlaceOrder(order: Accepted) returns (answer: Option<nat>)
      modifies this`refusals, this`log
      ensures (State(), answer) == Place(old(State()), order)
    {
      var refused := Head(refusals);
      refusals := Tail(refusals);
      if refused { return None; }
      answer := Some(|log|);
      log := log + [order];
    }

    method NewId() returns (id: nat)
      modifies this`next
      ensures id == old(next) && next == old(next) + 1
    {
      id := next;
      next := next + 1;
    }
  }

  class TradeService {
    const backend: Backend
    const params: Params

    constructor (backend: Backend, params: Params)
      ensures this.backend == backend && this.params == params
    {
      this.backend, this.params := backend, params;
    }

    method ExecuteBuyTrade(sig: nat, signal: Signal, account: Option<(nat, Transfer)>) returns (r: Result<Option<nat>>)
      modifies backend
      ensures (backend.State(), r) == Calls.ExecuteBuyTrade(old(backend.State()), params, sig, signal, account)
    {
      hide Sizing.Quantity, CommitBuyTx, Calls.SettleBuy;
      if account.None? { return Err(Invalid); }
      var sized := BuyRow(params, sig, signal, account.value.0, account.value.1);
      if sized.Err? { return Err(sized.error); }
      if sized.value.None? { return Ok(None); }
      var row := sized.value.value;
      var id := backend.NewId();

      var saved := backend.Db();
      var body := CommitBuy(id, row);
      var committed := backend.End(saved, body);
      if committed.Err? {
        if committed.error.NoRemainingSlots? || committed.error.PositionAlreadyOpen? { return Ok(None); }
        return Err(committed.error);
      }

      r := SettleBuy(id, row, sig);
    }

    // The broker call of a committed buy, then its order ID or its cancellation.
    method SettleBuy(id: nat, row: Trade, sig: nat) returns (r: Result<Option<nat>>)
      modifies backend
      ensures (backend.State(), r) == Calls.SettleBuy(old(backend.State()), id, row, sig)
    {
      hide WriteStatusTx, UpdateTrade, MarkExecuted;
      var answer := backend.PlaceOrder(OrderFor(id, row));
      if answer.None? {
        CancelTradeAndRestoreSlot(id, row);
        return Err(Infrastructure);
      }
      var placed := row.(order := answer);
      var _ := backend.UpdateTradeRow(false, id, placed);
      var _ := backend.MarkSignalExecuted(sig);
      r := Ok(Some(id));
    }

    // The body of the buy transaction.
    method CommitBuy(id: nat, row: Trade) returns (r: Result<()>)
      requires row.transfer.Some?
      modifies backend
      ensures backend.State().(db := old(backend.Db())) == old(backend.State())
      ensures match CommitBuyTx(old(backend.Db()), id, row)
              case Ok(db) => r == Ok(()) && backend.Db() == db
              case Err(e) => r == Err(e)
    {
      if HasOpenPosition(backend.trades, row.symbol) { return Err(PositionAlreadyOpen); }
      r := backend.CreateTrade(true, id, row);
      if r.Err? { return; }
      r := backend.DecrementRemainingTrades(row.transfer.value);
    }

    method CancelTradeAndRestoreSlot(id: nat, row: Trade)
      modifies backend
      ensures backend.State() == Commit(old(backend.State()), WriteStatusTx(old(backend.Db()), id, row.(status := Cancelled))).0
    {
      var saved := backend.Db();
      var body := WriteStatus(id, row.(status := Cancelled));
      var _ := backend.End(saved, body);
    }

    // The body of a status transaction: the row, then the refund.
    method WriteStatus(id: nat, row: Trade) returns (r: Result<()>)
      modifies backend
      ensures backend.State().(db := old(backend.Db())) == old(backend.State())
      ensures match WriteStatusTx(old(backend.Db()), id, row)
              case Ok(db) => r == Ok(()) && backend.Db() == db
              case Err(e) => r == Err(e)
    {
      r := backend.UpdateTradeRow(true, id, row);
      if r.Err? { return; }
      if row.status.Refunds() && row.side.Buy? && row.transfer.Some? {
        r := backend.IncrementRemainingTrades(row.transfer.value);
      }
    }

    method ApplyTradeUpdates(order: nat, status: Status, fill: Fill) returns (r: Result<()>)
      requires UniqueOrders(backend.trades)
      modifies backend
      ensures (backend.State(), r) == Calls.ApplyTradeUpdates(old(backend.State()), params, order, status, fill)
    {
      var found := backend.GetByAlpacaOrderID(order);
      if found.Err? { return Err(found.error); }
      if found.value.None? { return Ok(()); }
      var Fetched(id, row) := found.value.value;
      if row.status.Terminal() { return Ok(()); }

      var saved := backend.Db();
      row := row.(status := status, avgFill := fill.avgPrice);
      if status.Filled? && fill.avgPrice.Some? {
        var notional := Notional(fill.quantity, fill.avgPrice.value);
        row := row.(commission := Some(Fee(notional, params.commissionPct)), fxFee := Some(Fee(notional, params.fxPct)));
      }
      var body := WriteStatus(id, row);
      r := backend.End(saved, body);
    }

    method ExecuteSellTrade(sig: nat, signal: Signal, parent: Fetched) returns (r: Result<nat>)
      modifies backend
      ensures (backend.State(), r) == Calls.ExecuteSellTrade(old(backend.State()), sig, signal, parent)
    {
      if parent.row.transfer.None? { return Err(Invalid); }
      var id := backend.NewId();
      var row := SellRow(parent.id, parent.row, sig, signal.symbol, signal.price);
      var created := backend.CreateTrade(false, id, row);
      if created.Err? { return Err(created.error); }
      var answer := backend.PlaceOrder(OrderFor(id, row));
      if answer.None? {
        var _ := backend.DeleteTradeRow(id);
        return Err(Infrastructure);
      }
      row := row.(order := answer);
      var _ := backend.UpdateTradeRow(false, id, row);
      r := Ok(id);
    }

    method EvaluateAndExecuteExits(symbol: string, price: real, scan: seq<nat>) returns (r: Result<()>)
      modifies backend
      ensures (backend.State(), r) == ExitPass(old(backend.State()), symbol, price, scan)
    {
      hide StageSells, OpenBuys, Settle;
      var saved := backend.Db();
      var fetched := backend.GetOpenBuyTradesBySymbol(symbol, scan);
      var body, pending, next := StageExits(fetched, price);
      if body.Err? {
        backend.trades, backend.signals, backend.transfers := saved.trades, saved.signals, saved.transfers;
        return body;
      }
      r := backend.End(saved, body);
      if r.Err? { return; }
      backend.next := next;

      SettleExits(pending);
    }

    // The second exit loop.
    method SettleExits(pending: seq<Fetched>)
      modifies backend
      ensures backend.State() == Settle(old(backend.State()), pending)
    {
      hide SettleOne;
      ghost var placed := backend.State();
      var i := 0;
      while i < |pending|
        invariant i <= |pending| && backend.State() == Settle(placed, pending[..i])
      {
        assert pending[..i + 1][..i] == pending[..i];
        SettleExit(pending[i]);
        i := i + 1;
      }
      assert pending[..i] == pending;
    }

    // The first exit loop: a signal and a sell row for every triggered buy.
    method StageExits(fetched: seq<Fetched>, price: real) returns (r: Result<()>, pending: seq<Fetched>, next: nat)
      modifies backend
      ensures backend.State().(db := old(backend.Db())) == old(backend.State())
      ensures match StageSells(old(backend.Db()), fetched, price, old(backend.next))
              case Ok(st) => r == Ok(()) && backend.Db() == st.db && pending == st.pending && next == st.next
              case Err(e) => r == Err(e)
    {
      pending, next := [], backend.next;
      ghost var db := backend.Db();
      var i := 0;
      while i < |fetched|
        invariant i <= |fetched|
        invariant backend.State().(db := db) == old(backend.State())
        invariant StageSells(db, fetched[..i], price, old(backend.next)) == Ok(Staged(backend.Db(), pending, next))
      {
        assert fetched[..i + 1][..i] == fetched[..i];
        var f := fetched[i];
        if Triggered(f.row, price) {
          r := backend.CreateSignal(true, next, SellSignal(f.row.symbol, price));
          if r.Err? { StageErr(db, fetched, i + 1, price, old(backend.next)); return; }
          var row := SellRow(f.id, f.row, next, f.row.symbol, price);
          r := backend.CreateTrade(true, next, row);
          if r.Err? { StageErr(db, fetched, i + 1, price, old(backend.next)); return; }
          pending := pending + [Fetched(next, row)];
          next := next + 1;
        }
        i := i + 1;
      }
      assert fetched[..i] == fetched;
      r := Ok(());
    }

    // The second exit loop's body.
    method SettleExit(f: Fetched)
      modifies backend
      ensures backend.State() == SettleOne(old(backend.State()), f)
    {
      var answer := backend.PlaceOrder(OrderFor(f.id, f.row));
      var sig := if f.row.signal.Some? then f.row.signal.value else 0;
      if answer.None? {
        var _ := backend.DeleteTradeRow(f.id);
        var _ := backend.DeleteSignalRow(sig);
      } else {
        var row := f.row.(order := answer);
        var _ := backend.UpdateTradeRow(false, f.id, row);
        var _ := backend.MarkSignalExecuted(sig);
      }
    }
  }

  // Staging that fails on a prefix fails, with the same error, on the whole list.
  lemma {:induction false} StageErr(db: Tables, fetched: seq<Fetched>, n: nat, price: real, next: nat)
    requires n <= |fetched| && StageSells(db, fetched[..n], price, next).Err?
    ensures StageSells(db, fetched, price, next) == StageSells(db, fetched[..n], price, next)
  {
    if n == |fetched| {
      assert fetched[..n] == fetched;
    } else {
      assert fetched[..|fetched| - 1][..n] == fetched[..n];
      StageErr(db, fetched[..|fetched| - 1], n, price, next);
    }
  }
}
