/** What a buy, a manual sell and a signal evaluation leave behind, whichever calls fail and whichever order
    is refused, branch by branch and column by column. */
module BuyOutcomes {
  import opened Model
  import opened Database
  import opened Ledger
  import opened Calls
  import opened Signals
  import opened ExitPasses
  import opened ExitOutcomes
  import opened Sizing

  // ---- buys ----

  function AtrsBelow(price: real, atr: real, k: real): real { price - atr * k }
  function AtrsAbove(price: real, atr: real, k: real): real { price + atr * k }

  // A buy of q shares at the signal's price: stop and target at their ATR multiples, the peak at the entry.
  function BoughtRow(p: Params, sig: nat, signal: Signal, budget: nat, q: real, order: Option<nat>, status: Status): Trade {
    BoughtAt(sig, signal, budget, q, AtrsBelow(signal.price, signal.indicators.atr, p.atrRiskMult),
             AtrsAbove(signal.price, signal.indicators.atr, p.takeProfitMult), order, status)
  }

  function BoughtAt(sig: nat, signal: Signal, budget: nat, q: real, stop: real, target: real, order: Option<nat>, status: Status): Trade {
    Trade(None, Some(sig), Some(budget), order, signal.symbol, Buy, q, Some(signal.price), None, None, None,
          Some(stop), Some(target), Some(signal.price), Some(signal.indicators.atr), status)
  }

  // What the call was handed is stored, its identifier is unused and the order IDs are known.
  ghost predicate ReadyToBuy(w: World, sig: nat, budget: nat, account: Transfer) {
    && OrdersKnown(w) && w.next !in w.db.trades
    && sig in w.db.signals && budget in w.db.transfers && w.db.transfers[budget] == account
  }

  // The tables with the row of the buy in them and a slot of its transfer taken.
  function Taken(db: Tables, id: nat, row: Trade, budget: nat, account: Transfer): Tables
    requires account.remaining.Some?
  {
    Tables(db.trades[id := row], db.signals, db.transfers[budget := account.(remaining := Some(account.remaining.value - 1))])
  }

  // The broker refused: there is no order, the row stays behind cancelled and every slot is back; only if
  // that transaction fails is the row left pending and its slot taken.
  ghost predicate BuyCancelled(w: World, w': World, p: Params, sig: nat, signal: Signal, budget: nat, account: Transfer, q: real)
    requires account.remaining.Some?
  {
    w' == w.(next := w.next + 1, faults := Later(w.faults, 2), refusals := Later(w.refusals, 1),
             db := if Fails(w.faults, 1) then Taken(w.db, w.next, BoughtRow(p, sig, signal, budget, q, None, Pending), budget, account)
                   else w.db.(trades := w.db.trades[w.next := BoughtRow(p, sig, signal, budget, q, None, Cancelled)]))
  }

  // The broker accepted: the order is logged, one slot is taken, the pending row carries the order's ID and
  // the signal is executed, each of the last two unless its call fails.
  ghost predicate BuyPlaced(w: World, w': World, p: Params, sig: nat, signal: Signal, budget: nat, account: Transfer, q: real)
    requires sig in w.db.signals && account.remaining.Some?
  {
    var row := BoughtRow(p, sig, signal, budget, q, if Fails(w.faults, 1) then None else Some(|w.log|), Pending);
    w' == w.(next := w.next + 1, faults := Later(w.faults, 3), refusals := Later(w.refusals, 1),
             log := w.log + [Accepted(w.next, Buy, None, Some(sig), signal.symbol, q)],
             db := Taken(w.db, w.next, row, budget, account)
                     .(signals := if Fails(w.faults, 2) then w.db.signals else w.db.signals[sig := w.db.signals[sig].(executed := true)]))
  }

  lemma RowIs(p: Params, sig: nat, signal: Signal, budget: nat, account: Transfer, q: real)
    requires account.remaining.Some? && account.remaining.value > 0
    requires account.targetTrades != 0 && signal.price != 0.0 ==>
      Fits(p, account.amountUSD, account.targetTrades, signal.price, signal.indicators.atr, q)
    ensures BuyRow(p, sig, signal, budget, account) ==
      if account.targetTrades == 0 || signal.price == 0.0 then Err(DivisionByZero)
      else if q <= 0.0 then Ok(None)
      else Ok(Some(BoughtRow(p, sig, signal, budget, q, None, Pending)))
  {
    hide Fits, Quantity, AtrsBelow, AtrsAbove, StopDistance, TargetDistance;
    LevelsAre(p, signal);
    if account.targetTrades != 0 && signal.price != 0.0 {
      QuantityIs(p, account.amountUSD, account.targetTrades, signal.price, signal.indicators.atr, q);
    } else {
      SizingFails(p, account.amountUSD, account.targetTrades, signal.price, signal.indicators.atr);
    }
  }

  lemma LevelsAre(p: Params, signal: Signal)
    ensures AtrsBelow(signal.price, signal.indicators.atr, p.atrRiskMult) == signal.price - StopDistance(p, signal.indicators.atr)
    ensures AtrsAbove(signal.price, signal.indicators.atr, p.takeProfitMult) == signal.price + TargetDistance(p, signal.indicators.atr)
  {}

  lemma SizingFails(p: Params, amount: real, target: int, price: real, atr: real)
    requires target == 0 || price == 0.0
    ensures Quantity(p, amount, target, price, atr) == Err(DivisionByZero)
  {}

  // The buy transaction: refused if a position blocks it, else the row is in and a slot is taken.
  lemma CommitIs(w: World, row: Trade, budget: nat, account: Transfer, sig: nat)
    requires ReadyToBuy(w, sig, budget, account) && account.remaining.Some? && account.remaining.value > 0
    requires row.transfer == Some(budget) && row.signal == Some(sig) && row.parent.None? && row.order.None?
    ensures CommitBuyTx(w.db, w.next, row) ==
      if exists id :: Blocking(w.db.trades, id, row.symbol) then Err(PositionAlreadyOpen)
      else Ok(Taken(w.db, w.next, row, budget, account))
  {
    hide HasOpenPosition, OrdersKnown, Blocking;
    PositionExactly(w.db.trades, row.symbol);
  }

  lemma CancelIs(db: Tables, id: nat, row: Trade, budget: nat)
    requires row.transfer == Some(budget) && row.order.None? && row.parent.None? && row.side.Buy? && row.status.Cancelled?
    requires id in db.trades && KeysOk(db, row) && db.transfers[budget].remaining.Some?
    ensures WriteStatusTx(db, id, row)
         == Ok(Tables(db.trades[id := row], db.signals,
               db.transfers[budget := db.transfers[budget].(remaining := Some(db.transfers[budget].remaining.value + 1))]))
  {}

  lemma StoreOrderIs(db: Tables, id: nat, row: Trade, order: nat)
    requires row.order == Some(order) && row.parent.None? && row.side.Buy?
    requires id in db.trades && KeysOk(db, row) && forall k :: k in db.trades && db.trades[k].order.Some? ==> db.trades[k].order.value < order
    ensures UpdateTrade(db, id, row) == Ok(db.(trades := db.trades[id := row]))
  {}

  lemma ColumnsAt(sig: nat, signal: Signal, budget: nat, q: real, stop: real, target: real, order: Option<nat>, status: Status)
    ensures var row := BoughtAt(sig, signal, budget, q, stop, target, None, Pending);
      && row.(order := order) == BoughtAt(sig, signal, budget, q, stop, target, order, Pending)
      && row.(status := status) == BoughtAt(sig, signal, budget, q, stop, target, None, status)
      && row.parent.None? && row.signal == Some(sig) && row.transfer == Some(budget) && row.order.None?
      && row.symbol == signal.symbol && row.side.Buy? && row.quantity == q && row.status.Pending?
  {}

  lemma BoughtColumns(p: Params, sig: nat, signal: Signal, budget: nat, q: real, order: Option<nat>, status: Status)
    ensures var row := BoughtRow(p, sig, signal, budget, q, None, Pending);
      && row.(order := order) == BoughtRow(p, sig, signal, budget, q, order, Pending)
      && row.(status := status) == BoughtRow(p, sig, signal, budget, q, None, status)
      && row.parent.None? && row.signal == Some(sig) && row.transfer == Some(budget) && row.order.None?
      && row.symbol == signal.symbol && row.side.Buy? && row.quantity == q && row.status.Pending?
  {
    hide BoughtAt, AtrsBelow, AtrsAbove;
    ColumnsAt(sig, signal, budget, q, AtrsBelow(signal.price, signal.indicators.atr, p.atrRiskMult),
              AtrsAbove(signal.price, signal.indicators.atr, p.takeProfitMult), order, status);
  }

  // The world after the buy transaction.
  ghost function Committed(w: World, row: Trade, budget: nat, account: Transfer): World
    requires account.remaining.Some?
  {
    w.(next := w.next + 1, faults := Later(w.faults, 1), db := Taken(w.db, w.next, row, budget, account))
  }

  lemma RefusedBuy(w: World, p: Params, sig: nat, signal: Signal, budget: nat, account: Transfer, q: real)
    requires ReadyToBuy(w, sig, budget, account) && account.remaining.Some? && Fails(w.refusals, 0)
    ensures var row := BoughtRow(p, sig, signal, budget, q, None, Pending);
      var x := SettleBuy(Committed(w, row, budget, account), w.next, row, sig);
      x.1 == Err(Infrastructure) && BuyCancelled(w, x.0, p, sig, signal, budget, account, q)
  {
    hide WriteStatusTx, OrdersKnown, BoughtRow;
    var row := BoughtRow(p, sig, signal, budget, q, None, Pending);
    BoughtColumns(p, sig, signal, budget, q, None, Cancelled);
    var w1 := Committed(w, row, budget, account);
    LaterNext(w.faults, 1);
    CancelIs(w1.db, w.next, row.(status := Cancelled), budget);
    assert w1.db.trades[w.next := row.(status := Cancelled)] == w.db.trades[w.next := row.(status := Cancelled)];
    assert w1.db.transfers[budget := account] == w.db.transfers;
  }

  lemma AcceptedBuy(w: World, p: Params, sig: nat, signal: Signal, budget: nat, account: Transfer, q: real)
    requires ReadyToBuy(w, sig, budget, account) && account.remaining.Some? && !Fails(w.refusals, 0)
    ensures var row := BoughtRow(p, sig, signal, budget, q, None, Pending);
      var x := SettleBuy(Committed(w, row, budget, account), w.next, row, sig);
      x.1 == Ok(Some(w.next)) && BuyPlaced(w, x.0, p, sig, signal, budget, account, q)
  {
    hide UpdateTrade, BoughtRow;
    var row := BoughtRow(p, sig, signal, budget, q, None, Pending);
    BoughtColumns(p, sig, signal, budget, q, Some(|w.log|), Pending);
    var w1, row' := Committed(w, row, budget, account), row.(order := Some(|w.log|));
    LaterNext(w.faults, 1);
    LaterNext(w.faults, 2);
    StoreOrderIs(w1.db, w.next, row', |w.log|);
    assert w1.db.trades[w.next := row'] == w.db.trades[w.next := row'];
  }

  // A buy, whichever calls fail. It does nothing without a slot, on a quantity that is not positive or
  // beside a blocking position; it fails without a trace where sizing would divide by zero or its
  // transaction fails. Otherwise it buys the one quantity that fits: an accepted order leaves the pending
  // row, its order, one slot less and an executed signal; a refused one the cancelled row and every slot.
  lemma BuyOutcome(w: World, p: Params, sig: nat, signal: Signal, budget: nat, account: Transfer, q: real)
    requires ReadyToBuy(w, sig, budget, account)
    requires account.targetTrades != 0 && signal.price != 0.0 ==>
      Fits(p, account.amountUSD, account.targetTrades, signal.price, signal.indicators.atr, q)
    ensures var (w', r) := ExecuteBuyTrade(w, p, sig, signal, Some((budget, account)));
      var quiet := w.(next := w.next + 1, faults := Later(w.faults, 1));
      if account.remaining.None? || account.remaining.value <= 0 then w' == w && r == Ok(None)
      else if account.targetTrades == 0 || signal.price == 0.0 then w' == w && r == Err(DivisionByZero)
      else if q <= 0.0 then w' == w && r == Ok(None)
      else if Fails(w.faults, 0) then w' == quiet && r == Err(Infrastructure)
      else if exists id :: Blocking(w.db.trades, id, signal.symbol) then w' == quiet && r == Ok(None)
      else if Fails(w.refusals, 0) then r == Err(Infrastructure) && BuyCancelled(w, w', p, sig, signal, budget, account, q)
      else r == Ok(Some(w.next)) && BuyPlaced(w, w', p, sig, signal, budget, account, q)
  {
    hide Fits, BuyRow, CommitBuyTx, Blocking, OrdersKnown, SettleBuy, BuyCancelled, BuyPlaced, Fails, BoughtRow, Later;
    LaterZero(w.faults);
    LaterNext(w.faults, 0);
    if account.remaining.None? || account.remaining.value <= 0 {
      NoSlotNoBuy(p, sig, signal, budget, account);
    } else {
      RowIs(p, sig, signal, budget, account, q);
      var row := BoughtRow(p, sig, signal, budget, q, None, Pending);
      BoughtColumns(p, sig, signal, budget, q, None, Pending);
      CommitIs(w, row, budget, account, sig);
      if Fails(w.refusals, 0) { RefusedBuy(w, p, sig, signal, budget, account, q); } else { AcceptedBuy(w, p, sig, signal, budget, account, q); }
    }
  }

  lemma NoSlotNoBuy(p: Params, sig: nat, signal: Signal, budget: nat, account: Transfer)
    requires account.remaining.None? || account.remaining.value <= 0
    ensures BuyRow(p, sig, signal, budget, account) == Ok(None)
  {}

  // ---- manual sells ----

  // What is handed to a manual sell: a stored buy and a stored signal.
  ghost predicate ReadyToSell(w: World, sig: nat, parent: Fetched) {
    && OrdersKnown(w) && ForeignKeys(w.db) && w.next !in w.db.trades && sig in w.db.signals
    && parent.id in w.db.trades && w.db.trades[parent.id] == parent.row
  }

  function ManualSell(sig: nat, signal: Signal, parent: Fetched, order: Option<nat>): Trade {
    Trade(Some(parent.id), Some(sig), parent.row.transfer, order, signal.symbol, Sell, parent.row.quantity, Some(signal.price),
          None, None, None, None, None, None, None, Pending)
  }

  lemma SellInsertIs(w: World, sig: nat, signal: Signal, parent: Fetched)
    requires ReadyToSell(w, sig, parent)
    ensures var row := ManualSell(sig, signal, parent, None);
      InsertTrade(w.db, w.next, row)
      == if Unsold(w.db.trades, parent.id) then Ok(w.db.(trades := w.db.trades[w.next := row])) else Err(UniqueViolation)
  {
    var row := ManualSell(sig, signal, parent, None);
    if Unsold(w.db.trades, parent.id) {
      forall k | k in w.db.trades ensures !ClashesWith(w.db.trades[k], row) {}
    } else {
      var k :| k in w.db.trades && w.db.trades[k].side == Sell && w.db.trades[k].parent == Some(parent.id);
      assert ClashesWith(w.db.trades[k], row);
    }
  }

  lemma SellStoreIs(w: World, sig: nat, signal: Signal, parent: Fetched)
    requires ReadyToSell(w, sig, parent) && Unsold(w.db.trades, parent.id)
    ensures var row, row' := ManualSell(sig, signal, parent, None), ManualSell(sig, signal, parent, Some(|w.log|));
      var db := w.db.(trades := w.db.trades[w.next := row]);
      UpdateTrade(db, w.next, row') == Ok(w.db.(trades := w.db.trades[w.next := row']))
  {
    var row, row' := ManualSell(sig, signal, parent, None), ManualSell(sig, signal, parent, Some(|w.log|));
    var db := w.db.(trades := w.db.trades[w.next := row]);
    forall k | k in w.db.trades ensures !ClashesWith(w.db.trades[k], row') {}
    assert db.trades[w.next := row'] == w.db.trades[w.next := row'];
  }

  lemma SellUndoIs(w: World, sig: nat, signal: Signal, parent: Fetched)
    requires ReadyToSell(w, sig, parent)
    ensures var db := w.db.(trades := w.db.trades[w.next := ManualSell(sig, signal, parent, None)]);
      DeleteTrade(db, w.next) == Ok(w.db)
  {
    var db := w.db.(trades := w.db.trades[w.next := ManualSell(sig, signal, parent, None)]);
    forall k | k in db.trades && k != w.next ensures db.trades[k].parent != Some(w.next) {}
    assert db.trades - {w.next} == w.db.trades;
  }

  // A manual sell, whichever calls fail: refused for a buy that has a sell; otherwise its accepted order and
  // one pending row of the whole buy that carries the order's ID unless that call fails; or, if the broker
  // refuses, no trace unless the delete fails.
  lemma SellOutcome(w: World, sig: nat, signal: Signal, parent: Fetched)
    requires ReadyToSell(w, sig, parent)
    ensures var (w', r) := ExecuteSellTrade(w, sig, signal, parent);
      var quiet := w.(next := w.next + 1, faults := Later(w.faults, 1));
      var done := w.(next := w.next + 1, faults := Later(w.faults, 2), refusals := Later(w.refusals, 1));
      var unplaced := w.db.(trades := w.db.trades[w.next := ManualSell(sig, signal, parent, None)]);
      if Fails(w.faults, 0) then w' == quiet && r == Err(Infrastructure)
      else if !Unsold(w.db.trades, parent.id) then w' == quiet && r == Err(UniqueViolation)
      else if Fails(w.refusals, 0) then
        r == Err(Infrastructure) && w' == if Fails(w.faults, 1) then done.(db := unplaced) else done
      else
        && r == Ok(w.next)
        && w' == done.(log := w.log + [Accepted(w.next, Sell, Some(parent.id), Some(sig), signal.symbol, parent.row.quantity)],
                       db := if Fails(w.faults, 1) then unplaced
                             else w.db.(trades := w.db.trades[w.next := ManualSell(sig, signal, parent, Some(|w.log|))]))
  {
    hide Unsold, OrdersKnown, InsertTrade, UpdateTrade, DeleteTrade;
    LaterZero(w.faults);
    LaterNext(w.faults, 0);
    LaterNext(w.faults, 1);
    LaterZero(w.refusals);
    LaterNext(w.refusals, 0);
    assert parent.row.transfer.Some?;
    hide ForeignKeys, Fails, Later;
    SellInsertIs(w, sig, signal, parent);
    if Unsold(w.db.trades, parent.id) {
      SellStoreIs(w, sig, signal, parent);
      SellUndoIs(w, sig, signal, parent);
    }
  }

  // ---- signals ----

  // The signal of an entry: unexecuted, with the indicators it was judged by.
  function EntryAt(symbol: string, price: real, state: IndicatorState): Signal {
    Signal(symbol, Buy, price, Indicators(state.ema, state.rsi, state.atr), false)
  }

  // Every live gate passes but, perhaps, the sentiment verdict.
  ghost predicate LiveEntry(trades: Trades, symbol: string, price: real, market: Market) {
    && !(exists id :: Blocking(trades, id, symbol))
    && market.state.Some? && price > market.state.value.ema && market.state.value.rsi < 35.0
  }

  // The shadow gate: the momentum has just left the oversold zone.
  ghost predicate ShadowEntry(trades: Trades, symbol: string, price: real, market: Market) {
    && !(exists id :: Blocking(trades, id, symbol))
    && market.state.Some? && price > market.state.value.ema
    && market.state.value.rsiPrev < 35.0 && market.state.value.rsi >= 35.0
  }

  // A buy signal is stored and returned if and only if nothing blocks the symbol, the price is above the
  // average, the index below 35, the sentiment good and no call fails; a missing verdict is an error only
  // when the other gates pass, and an error stores nothing.
  lemma SignalOutcome(w: World, symbol: string, price: real, market: Market)
    requires w.next !in w.db.signals
    ensures var (w', r) := EvaluateBuySignal(w, symbol, price, market);
      var read := w.(faults := Later(w.faults, 1));
      if Fails(w.faults, 0) then w' == read && r == Err(Infrastructure)
      else if LiveEntry(w.db.trades, symbol, price, market) && market.verdict == Some(true) then
        var signal := EntryAt(symbol, price, market.state.value);
        var tried := w.(next := w.next + 1, faults := Later(w.faults, 2));
        if Fails(w.faults, 1) then w' == tried && r == Err(Infrastructure)
        else w' == tried.(db := w.db.(signals := w.db.signals[w.next := signal])) && r == Ok(Some((w.next, signal)))
      else if LiveEntry(w.db.trades, symbol, price, market) && market.verdict.None? then w' == read && r == Err(Infrastructure)
      else w' == read && r == Ok(None)
  {
    hide HasOpenPosition, Blocking, Fails, Later;
    PositionExactly(w.db.trades, symbol);
    LaterZero(w.faults);
    LaterNext(w.faults, 0);
    LaterNext(w.faults, 1);
  }

  // The same of the shadow preview, which stores nothing.
  lemma PreviewOutcome(trades: Trades, failed: bool, symbol: string, price: real, market: Market)
    ensures PreviewBuySignal(trades, failed, symbol, price, market) ==
      if failed then Err(Infrastructure)
      else if ShadowEntry(trades, symbol, price, market) && market.verdict == Some(true) then
        Ok(Some(EntryAt(symbol, price, market.state.value)))
      else if ShadowEntry(trades, symbol, price, market) && market.verdict.None? then Err(Infrastructure)
      else Ok(None)
  {
    hide HasOpenPosition, Blocking;
    PositionExactly(trades, symbol);
  }
}
