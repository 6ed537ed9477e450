/** What one exit pass does to the tables, exactly. */
module ExitPasses {
  import opened Model
  import opened Database
  import opened Ledger
  import opened Calls

  // ---- the open-buy query ----

  lemma {:induction false} QueryComplete(trades: Trades, symbol: string, scan: seq<nat>, id: nat)
    requires id in scan && OpenBuy(trades, id, symbol)
    ensures Fetched(id, trades[id]) in OpenBuys(trades, symbol, scan)
  {
    hide OpenPosition;
    var front := scan[..|scan| - 1];
    if id in front { QueryComplete(trades, symbol, front, id); }
  }

  lemma {:induction false} QueryDistinct(trades: Trades, symbol: string, scan: seq<nat>, i: nat, j: nat)
    requires forall a, b :: 0 <= a < b < |scan| ==> scan[a] != scan[b]
    requires i < j < |OpenBuys(trades, symbol, scan)|
    ensures OpenBuys(trades, symbol, scan)[i].id != OpenBuys(trades, symbol, scan)[j].id
  {
    hide OpenBuy;
    var front := scan[..|scan| - 1];
    if j < |OpenBuys(trades, symbol, front)| {
      QueryDistinct(trades, symbol, front, i, j);
    } else {
      OpenBuysAre(trades, symbol, front, OpenBuys(trades, symbol, front)[i]);
    }
  }

  ghost predicate ExactRows(trades: Trades, symbol: string, scan: seq<nat>, rows: seq<Fetched>) {
    && (forall k :: 0 <= k < |rows| ==> rows[k].id in scan && Held(trades, rows[k].id, symbol) && rows[k].row == trades[rows[k].id])
    && (forall id :: id in scan && Held(trades, id, symbol) ==> Fetched(id, trades[id]) in rows)
    && (forall i, j :: 0 <= i < j < |rows| ==> rows[i].id != rows[j].id)
  }

  // The query yields each held buy of the symbol exactly once, with its columns.
  lemma {:induction false} QueryExact(trades: Trades, symbol: string, scan: seq<nat>)
    requires forall i, j :: 0 <= i < j < |scan| ==> scan[i] != scan[j]
    ensures ExactRows(trades, symbol, scan, OpenBuys(trades, symbol, scan))
  {
    hide OpenBuy, Unsold;
    var rows := OpenBuys(trades, symbol, scan);
    forall k: nat | k < |rows|
      ensures rows[k].id in scan && Held(trades, rows[k].id, symbol) && rows[k].row == trades[rows[k].id]
    {
      OpenBuysAre(trades, symbol, scan, rows[k]);
      QueriesExactly(trades, rows[k].id, symbol);
    }
    forall id: nat | id in scan && Held(trades, id, symbol) ensures Fetched(id, trades[id]) in rows {
      QueriesExactly(trades, id, symbol);
      QueryComplete(trades, symbol, scan, id);
    }
    forall i: nat, j: nat | i < j < |rows| ensures rows[i].id != rows[j].id {
      QueryDistinct(trades, symbol, scan, i, j);
    }
  }

  // ---- staging ----

  // The fetched rows whose stop or target the price has reached.
  function Exiting(fetched: seq<Fetched>, price: real): seq<Fetched> {
    if fetched == [] then [] else
    var front := Exiting(fetched[..|fetched| - 1], price);
    if Triggered(fetched[|fetched| - 1].row, price) then front + [fetched[|fetched| - 1]] else front
  }

  function SellAt(f: Fetched, price: real, n: nat): Trade {
    SellRow(f.id, f.row, n, f.row.symbol, price)
  }

  // The sells of `exits`, numbered from `next`.
  function Sells(exits: seq<Fetched>, price: real, next: nat): seq<Fetched> {
    seq(|exits|, i requires 0 <= i < |exits| => Fetched(next + i, SellAt(exits[i], price, next + i)))
  }

  // `db'` is `db` with the sells of `exits` from the k-th on, and their signals, inserted.
  ghost predicate WithSells(db: Tables, exits: seq<Fetched>, price: real, next: nat, k: nat, db': Tables) {
    && db'.transfers == db.transfers
    && (forall id :: id in db'.trades <==> id in db.trades || next + k <= id < next + |exits|)
    && (forall id :: id in db'.trades ==> db'.trades[id] == RowAt(db, exits, price, next, id))
    && (forall id :: id in db'.signals <==> id in db.signals || next + k <= id < next + |exits|)
    && (forall id :: id in db'.signals ==> db'.signals[id] == SignalAt(db, exits, price, next, id))
  }

  ghost function RowAt(db: Tables, exits: seq<Fetched>, price: real, next: nat, id: nat): Trade
    requires id in db.trades || next <= id < next + |exits|
  {
    if next <= id < next + |exits| then SellAt(exits[id - next], price, id) else db.trades[id]
  }

  ghost function SignalAt(db: Tables, exits: seq<Fetched>, price: real, next: nat, id: nat): Signal
    requires id in db.signals || next <= id < next + |exits|
  {
    if next <= id < next + |exits| then SellSignal(exits[id - next].row.symbol, price) else db.signals[id]
  }

  ghost predicate Fresh(db: Tables, next: nat) {
    forall n :: next <= n ==> n !in db.trades && n !in db.signals
  }

  ghost predicate Sellable(db: Tables, f: Fetched) {
    && f.id in db.trades && f.row == db.trades[f.id] && !HasSellChild(db.trades, f.id)
    && f.row.transfer.Some? && f.row.transfer.value in db.transfers
  }

  ghost predicate AllSellable(db: Tables, fetched: seq<Fetched>) {
    && (forall k :: 0 <= k < |fetched| ==> Sellable(db, fetched[k]))
    && (forall i, j :: 0 <= i < j < |fetched| ==> fetched[i].id != fetched[j].id)
  }

  lemma {:induction false} ExitingIn(fetched: seq<Fetched>, price: real)
    ensures forall f :: f in Exiting(fetched, price) <==> f in fetched && Triggered(f.row, price)
    ensures (forall i, j :: 0 <= i < j < |fetched| ==> fetched[i].id != fetched[j].id) ==>
      forall i, j :: 0 <= i < j < |Exiting(fetched, price)| ==> Exiting(fetched, price)[i].id != Exiting(fetched, price)[j].id
  {
    if fetched != [] {
      var front, last := fetched[..|fetched| - 1], fetched[|fetched| - 1];
      ExitingIn(front, price);
      assert fetched == front + [last];
    }
  }

  lemma NoClash(db: Tables, exits: seq<Fetched>, price: real, next: nat, f: Fetched, db0: Tables, k: nat)
    requires Sellable(db, f) && WithSells(db, exits, price, next, 0, db0) && k in db0.trades
    requires forall i :: 0 <= i < |exits| ==> exits[i].id != f.id
    ensures !ClashesWith(db0.trades[k], SellAt(f, price, next + |exits|))
  {
    if next <= k < next + |exits| {
      assert db0.trades[k].parent == Some(exits[k - next].id);
    } else {
      assert !SellOf(db.trades[k], f.id);
    }
  }

  // Inserting the next sell and its signal violates no constraint.
  lemma InsertNext(db: Tables, exits: seq<Fetched>, price: real, next: nat, f: Fetched, db0: Tables)
    requires Fresh(db, next) && Sellable(db, f) && WithSells(db, exits, price, next, 0, db0)
    requires forall k :: 0 <= k < |exits| ==> exits[k].id != f.id
    ensures var n := next + |exits|;
      && InsertSignal(db0, n, SellSignal(f.row.symbol, price)).Ok?
      && InsertTrade(InsertSignal(db0, n, SellSignal(f.row.symbol, price)).value, n, SellAt(f, price, n))
         == Ok(db0.(trades := db0.trades[n := SellAt(f, price, n)], signals := db0.signals[n := SellSignal(f.row.symbol, price)]))
  {
    forall k | k in db0.trades ensures !ClashesWith(db0.trades[k], SellAt(f, price, next + |exits|)) {
      NoClash(db, exits, price, next, f, db0, k);
    }
  }

  lemma ExtendSells(db: Tables, exits: seq<Fetched>, price: real, next: nat, f: Fetched, db0: Tables)
    requires WithSells(db, exits, price, next, 0, db0)
    ensures var n := next + |exits|;
      WithSells(db, exits + [f], price, next, 0,
        db0.(trades := db0.trades[n := SellAt(f, price, n)], signals := db0.signals[n := SellSignal(f.row.symbol, price)]))
  {
    var n := next + |exits|;
    var db1 := db0.(trades := db0.trades[n := SellAt(f, price, n)], signals := db0.signals[n := SellSignal(f.row.symbol, price)]);
    forall id | id in db1.trades ensures db1.trades[id] == RowAt(db, exits + [f], price, next, id) {
      if id != n { assert db0.trades[id] == RowAt(db, exits, price, next, id); }
    }
    forall id | id in db1.signals ensures db1.signals[id] == SignalAt(db, exits + [f], price, next, id) {
      if id != n { assert db0.signals[id] == SignalAt(db, exits, price, next, id); }
    }
  }

  // What staging has built after the rows of which `exits` must exit.
  ghost predicate StagedAs(db: Tables, exits: seq<Fetched>, price: real, next: nat, st: Staged) {
    WithSells(db, exits, price, next, 0, st.db) && st.pending == Sells(exits, price, next) && st.next == next + |exits|
  }

  lemma StageNext(db: Tables, exits: seq<Fetched>, price: real, next: nat, f: Fetched, st: Staged)
    requires Fresh(db, next) && Sellable(db, f) && StagedAs(db, exits, price, next, st) && Triggered(f.row, price)
    requires forall k :: 0 <= k < |exits| ==> exits[k].id != f.id
    ensures StageOne(st, f, price).Ok? && StagedAs(db, exits + [f], price, next, StageOne(st, f, price).value)
  {
    InsertNext(db, exits, price, next, f, st.db);
    ExtendSells(db, exits, price, next, f, st.db);
    assert Sells(exits + [f], price, next) == Sells(exits, price, next) + [Fetched(st.next, SellAt(f, price, st.next))];
  }

  // The first loop inserts exactly one sell, of the whole quantity, per triggered row.
  lemma {:induction false} StagedExactly(db: Tables, fetched: seq<Fetched>, price: real, next: nat)
    requires Fresh(db, next) && AllSellable(db, fetched)
    ensures StageSells(db, fetched, price, next).Ok?
    ensures StagedAs(db, Exiting(fetched, price), price, next, StageSells(db, fetched, price, next).value)
  {
    if fetched != [] {
      var front, last := fetched[..|fetched| - 1], fetched[|fetched| - 1];
      StagedExactly(db, front, price, next);
      if Triggered(last.row, price) {
        ExitingIn(front, price);
        var exits := Exiting(front, price);
        forall k | 0 <= k < |exits| ensures exits[k].id != last.id {
          assert exits[k] in exits;
        }
        StageNext(db, exits, price, next, last, StageSells(db, front, price, next).value);
      }
    }
  }

  // ---- exactness ----

  // A held buy whose stop the price has come down to, or whose target it has come up to; a buy
  // without a stop or without a target exits on the other level alone.
  ghost predicate MustExit(trades: Trades, id: nat, symbol: string, price: real) {
    && Held(trades, id, symbol)
    && ((trades[id].stopLoss.Some? && price <= trades[id].stopLoss.value)
        || (trades[id].takeProfit.Some? && price >= trades[id].takeProfit.value))
  }

  lemma {:induction false} QuerySellable(db: Tables, symbol: string, scan: seq<nat>)
    requires IsScan(scan, db.trades) && ForeignKeys(db)
    ensures AllSellable(db, OpenBuys(db.trades, symbol, scan))
  {
    QueryExact(db.trades, symbol, scan);
    var rows := OpenBuys(db.trades, symbol, scan);
    forall k | 0 <= k < |rows| ensures Sellable(db, rows[k]) {
      QueriesExactly(db.trades, rows[k].id, symbol);
    }
  }

  // A pending market sell of the whole of its parent, which must exit.
  ghost predicate SellsWhole(trades: Trades, row: Trade, symbol: string, price: real) {
    && row.side.Sell? && row.status.Pending? && row.order.None? && row.symbol == symbol && row.price == Some(price)
    && row.parent.Some? && MustExit(trades, row.parent.value, symbol, price)
    && row.quantity == trades[row.parent.value].quantity && row.transfer == trades[row.parent.value].transfer
  }

  ghost predicate HasSellIn(pending: seq<Fetched>, id: nat) {
    exists k :: 0 <= k < |pending| && pending[k].row.parent == Some(id)
  }

  // One sell per buy that must exit, none for any other, and no other row changed.
  ghost predicate ExactlySold(db: Tables, st: Staged, symbol: string, price: real) {
    && (forall id :: MustExit(db.trades, id, symbol, price) <==> HasSellIn(st.pending, id))
    && (forall i, j :: 0 <= i < j < |st.pending| ==> st.pending[i].row.parent != st.pending[j].row.parent)
    && (forall k :: 0 <= k < |st.pending| ==> SellsWhole(db.trades, st.pending[k].row, symbol, price))
    && (forall id :: id in db.trades ==> id in st.db.trades && st.db.trades[id] == db.trades[id])
    && (forall id :: id in st.db.trades && id !in db.trades ==> Fetched(id, st.db.trades[id]) in st.pending)
    && st.db.transfers == db.transfers
  }

  // Each held buy whose stop or target is reached gets exactly one sell, of its whole quantity and
  // from its transfer; no other buy gets one.
  lemma {:induction false} ExitExactness(db: Tables, symbol: string, price: real, scan: seq<nat>, next: nat)
    requires IsScan(scan, db.trades) && ForeignKeys(db) && Fresh(db, next)
    ensures StageSells(db, OpenBuys(db.trades, symbol, scan), price, next).Ok?
    ensures ExactlySold(db, StageSells(db, OpenBuys(db.trades, symbol, scan), price, next).value, symbol, price)
  {
    var fetched := OpenBuys(db.trades, symbol, scan);
    var exits := Exiting(fetched, price);
    QuerySellable(db, symbol, scan);
    StagedExactly(db, fetched, price, next);
    ExitsAreDue(db.trades, symbol, scan, price);
    StagedIsExact(db, exits, symbol, price, next, StageSells(db, fetched, price, next).value);
  }

  lemma StagedIsExact(db: Tables, exits: seq<Fetched>, symbol: string, price: real, next: nat, st: Staged)
    requires Fresh(db, next) && StagedAs(db, exits, price, next, st) && Due(db.trades, exits, symbol, price)
    ensures ExactlySold(db, st, symbol, price)
  {
    EachIsSold(db.trades, exits, symbol, price, next);
    forall id | id in db.trades ensures id in st.db.trades && st.db.trades[id] == db.trades[id] {
      OldRow(db, exits, price, next, st.db, id);
    }
    forall id | id in st.db.trades && id !in db.trades ensures Fetched(id, st.db.trades[id]) in st.pending {
      NewRow(db, exits, price, next, st.db, id);
    }
  }

  lemma OldRow(db: Tables, exits: seq<Fetched>, price: real, next: nat, db': Tables, id: nat)
    requires Fresh(db, next) && WithSells(db, exits, price, next, 0, db') && id in db.trades
    ensures id in db'.trades && db'.trades[id] == db.trades[id]
  {
    assert db'.trades[id] == RowAt(db, exits, price, next, id);
  }

  lemma NewRow(db: Tables, exits: seq<Fetched>, price: real, next: nat, db': Tables, id: nat)
    requires WithSells(db, exits, price, next, 0, db') && id in db'.trades && id !in db.trades
    ensures Fetched(id, db'.trades[id]) in Sells(exits, price, next)
  {
    assert db'.trades[id] == RowAt(db, exits, price, next, id);
    assert Sells(exits, price, next)[id - next] == Fetched(id, SellAt(exits[id - next], price, id));
  }

  // The k-th sell is of the whole of the k-th row, which must exit.
  lemma SellIsWhole(trades: Trades, exits: seq<Fetched>, symbol: string, price: real, next: nat, k: nat)
    requires Due(trades, exits, symbol, price) && k < |exits|
    ensures Sells(exits, price, next)[k].row.parent == Some(exits[k].id)
    ensures SellsWhole(trades, Sells(exits, price, next)[k].row, symbol, price)
  {
    assert MustExit(trades, exits[k].id, symbol, price) && exits[k].row == trades[exits[k].id];
    assert trades[exits[k].id].symbol == symbol;
  }

  lemma EachIsSold(trades: Trades, exits: seq<Fetched>, symbol: string, price: real, next: nat)
    requires Due(trades, exits, symbol, price)
    ensures var pending := Sells(exits, price, next);
      && (forall id :: MustExit(trades, id, symbol, price) <==> HasSellIn(pending, id))
      && (forall i, j :: 0 <= i < j < |pending| ==> pending[i].row.parent != pending[j].row.parent)
      && (forall k :: 0 <= k < |pending| ==> SellsWhole(trades, pending[k].row, symbol, price))
  {
    hide MustExit, SellsWhole, SellAt;
    var pending := Sells(exits, price, next);
    forall k: nat | k < |pending|
      ensures SellsWhole(trades, pending[k].row, symbol, price) && pending[k].row.parent == Some(exits[k].id)
    {
      SellIsWhole(trades, exits, symbol, price, next, k);
    }
    forall id: nat | MustExit(trades, id, symbol, price) ensures HasSellIn(pending, id) {
      var k :| 0 <= k < |exits| && exits[k].id == id;
      assert pending[k].row.parent == Some(id);
    }
  }

  ghost predicate Due(trades: Trades, exits: seq<Fetched>, symbol: string, price: real) {
    && (forall k :: 0 <= k < |exits| ==>
          MustExit(trades, exits[k].id, symbol, price) && exits[k].row == trades[exits[k].id])
    && (forall id :: MustExit(trades, id, symbol, price) ==> exists k :: 0 <= k < |exits| && exits[k].id == id)
    && (forall i, j :: 0 <= i < j < |exits| ==> exits[i].id != exits[j].id)
  }

  // The rows that exit are those that must, each once.
  lemma {:induction false} ExitsAreDue(trades: Trades, symbol: string, scan: seq<nat>, price: real)
    requires IsScan(scan, trades)
    ensures Due(trades, Exiting(OpenBuys(trades, symbol, scan), price), symbol, price)
  {
    var fetched := OpenBuys(trades, symbol, scan);
    var exits := Exiting(fetched, price);
    QueryExact(trades, symbol, scan);
    ExitingIn(fetched, price);
    forall k | 0 <= k < |exits| ensures MustExit(trades, exits[k].id, symbol, price) && exits[k].row == trades[exits[k].id] {
      assert exits[k] in exits;
    }
    forall id: nat | MustExit(trades, id, symbol, price) ensures exists k :: 0 <= k < |exits| && exits[k].id == id {
      assert Fetched(id, trades[id]) in exits;
      var k :| 0 <= k < |exits| && exits[k] == Fetched(id, trades[id]);
    }
  }
}
