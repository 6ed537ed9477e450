/** The SQL of the repositories as functions on table values, with the schema's
    primary keys, foreign keys and unique indexes. */
module Database {
  import opened Model

  type Trades = map<nat, Trade>

  datatype Tables = Tables(trades: Trades, signals: map<nat, Signal>, transfers: map<nat, Transfer>)

  // ---- trades: queries ----

  predicate SellOf(row: Trade, parent: nat) {
    row.side.Sell? && row.parent == Some(parent)
  }

  predicate HasSellChild(trades: Trades, id: nat) {
    exists k | k in trades :: SellOf(trades[k], id)
  }

  // A buy that blocks another entry in its symbol.
  predicate OpenPosition(trades: Trades, id: nat, symbol: string) {
    id in trades && trades[id].symbol == symbol && trades[id].side.Buy? && trades[id].status.Live()
    && !HasSellChild(trades, id)
  }

  predicate HasOpenPosition(trades: Trades, symbol: string) {
    exists id | id in trades :: OpenPosition(trades, id, symbol)
  }

  // A buy whose exits are evaluated: shares are held and no sell exists yet.
  predicate OpenBuy(trades: Trades, id: nat, symbol: string) {
    OpenPosition(trades, id, symbol) && !trades[id].status.Pending?
  }

  // The rows the open-buy query yields when the table is read in the order `scan`.
  function OpenBuys(trades: Trades, symbol: string, scan: seq<nat>): seq<Fetched> {
    if scan == [] then [] else
    var front := OpenBuys(trades, symbol, scan[..|scan| - 1]);
    var id := scan[|scan| - 1];
    if OpenBuy(trades, id, symbol) then front + [Fetched(id, trades[id])] else front
  }

  // Every row the query yields is an open buy of the symbol, with its columns.
  lemma {:induction false} OpenBuysAre(trades: Trades, symbol: string, scan: seq<nat>, f: Fetched)
    requires f in OpenBuys(trades, symbol, scan)
    ensures OpenBuy(trades, f.id, symbol) && f.row == trades[f.id] && f.id in scan
  {
    var front := OpenBuys(trades, symbol, scan[..|scan| - 1]);
    if f in front {
      OpenBuysAre(trades, symbol, scan[..|scan| - 1], f);
    }
  }

  // `scan` reads every row of the table exactly once.
  ghost predicate IsScan(scan: seq<nat>, trades: Trades) {
    && (forall i, j :: 0 <= i < j < |scan| ==> scan[i] != scan[j])
    && (forall id :: id in scan <==> id in trades)
  }

  // alpaca_order_id is unique.
  ghost predicate UniqueOrders(trades: Trades) {
    forall i, j :: i in trades && j in trades && trades[i].order.Some? && trades[i].order == trades[j].order ==> i == j
  }

  // ---- the two queries, column by column ----

  // No sell names row `id` as its parent.
  ghost predicate Unsold(trades: Trades, id: nat) {
    forall k :: k in trades && trades[k].side == Sell ==> trades[k].parent != Some(id)
  }

  // A pending, open or filled buy of the symbol that no sell closes.
  ghost predicate Blocking(trades: Trades, id: nat, symbol: string) {
    && id in trades && trades[id].symbol == symbol && trades[id].side == Buy
    && trades[id].status in {Pending, Open, Filled} && Unsold(trades, id)
  }

  // An open or filled buy of the symbol that no sell closes.
  ghost predicate Held(trades: Trades, id: nat, symbol: string) {
    && id in trades && trades[id].symbol == symbol && trades[id].side == Buy
    && trades[id].status in {Open, Filled} && Unsold(trades, id)
  }

  // The position check finds the blocking buys and the open-buy query the held ones.
  lemma QueriesExactly(trades: Trades, id: nat, symbol: string)
    ensures OpenPosition(trades, id, symbol) <==> Blocking(trades, id, symbol)
    ensures OpenBuy(trades, id, symbol) <==> Held(trades, id, symbol)
  {
    if !HasSellChild(trades, id) {
      forall k | k in trades && trades[k].side == Sell ensures trades[k].parent != Some(id) {
        assert !SellOf(trades[k], id);
      }
    }
  }

  // An entry in the symbol is blocked if and only if some pending, open or filled buy of it is unsold.
  lemma PositionExactly(trades: Trades, symbol: string)
    ensures HasOpenPosition(trades, symbol) <==> exists id :: Blocking(trades, id, symbol)
  {
    forall id: nat ensures OpenPosition(trades, id, symbol) <==> Blocking(trades, id, symbol) {
      QueriesExactly(trades, id, symbol);
    }
  }

  // ---- trades: writes ----

  predicate ClashesWith(a: Trade, b: Trade) {
    || (a.order.Some? && a.order == b.order)
    || (a.side.Sell? && b.side.Sell? && a.parent.Some? && a.parent == b.parent)
  }

  predicate Clashes(trades: Trades, id: nat, row: Trade) {
    exists k | k in trades :: k != id && ClashesWith(trades[k], row)
  }

  // The rows that `row` names exist.
  predicate KeysOk(db: Tables, row: Trade) {
    && row.transfer.Some? && row.transfer.value in db.transfers
    && (row.signal.Some? ==> row.signal.value in db.signals)
    && (row.parent.Some? ==> row.parent.value in db.trades)
  }

  // Every row's transfer, signal and parent are there.
  ghost predicate ForeignKeys(db: Tables) {
    forall id :: id in db.trades ==>
      && db.trades[id].transfer.Some? && db.trades[id].transfer.value in db.transfers
      && (db.trades[id].signal.Some? ==> db.trades[id].signal.value in db.signals)
      && (db.trades[id].parent.Some? ==> db.trades[id].parent.value in db.trades)
  }

  // No two sells close the same buy.
  ghost predicate OneSellEach(trades: Trades) {
    forall i, j :: i in trades && j in trades && i != j && trades[i].side == trades[j].side == Sell && trades[i].parent.Some? ==>
      trades[i].parent != trades[j].parent
  }

  ghost predicate SchemaHolds(db: Tables) {
    ForeignKeys(db) && UniqueOrders(db.trades) && OneSellEach(db.trades)
  }

  // Writing `row` under `id`, checked against every constraint of the schema.
  function Put(db: Tables, id: nat, row: Trade): Result<Tables> {
    if row.transfer.None? then Err(NotNullViolation)
    else if !KeysOk(db, row) then Err(ForeignKeyViolation)
    else if Clashes(db.trades, id, row) then Err(UniqueViolation)
    else Ok(db.(trades := db.trades[id := row]))
  }

  function InsertTrade(db: Tables, id: nat, row: Trade): Result<Tables> {
    if id in db.trades then Err(UniqueViolation) else Put(db, id, row)
  }

  // Overwrites every column; updating an absent row changes nothing and is no error.
  function UpdateTrade(db: Tables, id: nat, row: Trade): Result<Tables> {
    if id !in db.trades then Ok(db) else Put(db, id, row)
  }

  function DeleteTrade(db: Tables, id: nat): Result<Tables> {
    if exists k | k in db.trades :: k != id && db.trades[k].parent == Some(id) then Err(ForeignKeyViolation)
    else Ok(db.(trades := db.trades - {id}))
  }

  lemma KeysExactly(db: Tables, id: nat, row: Trade)
    requires ForeignKeys(db) && (row.parent == Some(id) ==> id in db.trades)
    ensures KeysOk(db, row) <==> ForeignKeys(db.(trades := db.trades[id := row]))
  {
    var db' := db.(trades := db.trades[id := row]);
    assert db'.trades[id] == row;
  }

  lemma UniqueExactly(trades: Trades, id: nat, row: Trade)
    requires UniqueOrders(trades) && OneSellEach(trades)
    ensures Clashes(trades, id, row) <==> !(UniqueOrders(trades[id := row]) && OneSellEach(trades[id := row]))
  {
    var trades' := trades[id := row];
    assert trades'[id] == row;
    if Clashes(trades, id, row) {
      var k :| k in trades && k != id && ClashesWith(trades[k], row);
      assert trades'[k] == trades[k];
    } else {
      forall k | k in trades && k != id ensures trades'[k] == trades[k] && !ClashesWith(trades[k], row) {}
    }
  }

  // A write is accepted if and only if the schema still holds after it.
  lemma PutExactly(db: Tables, id: nat, row: Trade)
    requires SchemaHolds(db) && (row.parent == Some(id) ==> id in db.trades)
    ensures Put(db, id, row).Ok? <==> SchemaHolds(db.(trades := db.trades[id := row]))
    ensures Put(db, id, row).Ok? ==> Put(db, id, row).value == db.(trades := db.trades[id := row])
  {
    KeysExactly(db, id, row);
    UniqueExactly(db.trades, id, row);
    hide ForeignKeys, UniqueOrders, OneSellEach, Clashes;
  }

  // A delete is accepted if and only if the schema still holds after it.
  lemma DeleteExactly(db: Tables, id: nat)
    requires SchemaHolds(db)
    ensures DeleteTrade(db, id).Ok? <==> SchemaHolds(db.(trades := db.trades - {id}))
  {
    var db' := db.(trades := db.trades - {id});
    if k :| k in db.trades && k != id && db.trades[k].parent == Some(id) {
      assert k in db'.trades && db'.trades[k] == db.trades[k];
    }
  }

  // ---- signals ----

  function InsertSignal(db: Tables, id: nat, signal: Signal): Result<Tables> {
    if id in db.signals then Err(UniqueViolation) else Ok(db.(signals := db.signals[id := signal]))
  }

  function DeleteSignal(db: Tables, id: nat): Result<Tables> {
    if exists k | k in db.trades :: db.trades[k].signal == Some(id) then Err(ForeignKeyViolation)
    else Ok(db.(signals := db.signals - {id}))
  }

  lemma DeleteSignalExactly(db: Tables, id: nat)
    requires SchemaHolds(db)
    ensures DeleteSignal(db, id).Ok? <==> SchemaHolds(db.(signals := db.signals - {id}))
  {
    var db' := db.(signals := db.signals - {id});
    if k :| k in db.trades && db.trades[k].signal == Some(id) {
      assert db'.trades[k] == db.trades[k];
    }
  }

  function MarkExecuted(db: Tables, id: nat): Tables {
    if id in db.signals then db.(signals := db.signals[id := db.signals[id].(executed := true)]) else db
  }

  // ---- account transfers ----

  predicate HasSlot(t: Transfer) { t.remaining.Some? && t.remaining.value > 0 }

  function DecrementRemaining(db: Tables, id: nat): Result<Tables> {
    if id in db.transfers && HasSlot(db.transfers[id]) then
      Ok(db.(transfers := db.transfers[id := db.transfers[id].(remaining := Some(db.transfers[id].remaining.value - 1))]))
    else Err(NoRemainingSlots)
  }

  // A NULL counter stays NULL.
  function IncrementRemaining(db: Tables, id: nat): Result<Tables> {
    if id !in db.transfers then Err(NotFound)
    else if db.transfers[id].remaining.None? then Ok(db)
    else Ok(db.(transfers := db.transfers[id := db.transfers[id].(remaining := Some(db.transfers[id].remaining.value + 1))]))
  }

  // The oldest transfer with a slot left, ties broken by the order the table is read in.
  function AvailableBudget(transfers: map<nat, Transfer>, scan: seq<nat>): Option<nat> {
    if scan == [] then None else
    var best := AvailableBudget(transfers, scan[..|scan| - 1]);
    var id := scan[|scan| - 1];
    if id in transfers && HasSlot(transfers[id])
       && (best.None? || best.value !in transfers || transfers[id].createdAt < transfers[best.value].createdAt)
    then Some(id) else best
  }

  // FIFO: the budget found has a slot and no older transfer has one; none is found only if none exists.
  lemma {:induction false} BudgetIsOldest(transfers: map<nat, Transfer>, scan: seq<nat>)
    ensures match AvailableBudget(transfers, scan)
      case Some(t) => t in scan && t in transfers && HasSlot(transfers[t])
        && forall u :: u in scan && u in transfers && HasSlot(transfers[u]) ==> transfers[t].createdAt <= transfers[u].createdAt
      case None => forall u :: u in scan && u in transfers ==> !HasSlot(transfers[u])
  {
    if scan != [] {
      BudgetIsOldest(transfers, scan[..|scan| - 1]);
      assert scan == scan[..|scan| - 1] + [scan[|scan| - 1]];
    }
  }
}
