/** What one exit pass leaves behind, whichever orders the broker refuses and whichever database calls fail:
    which buys are sold, with which rows, signals and orders, column by column. */
module ExitOutcomes {
  import opened Model
  import opened Database
  import opened Ledger
  import opened Calls
  import opened ExitPasses

  // ---- the outcomes of the calls to come ----

  // The i-th of the next calls fails, or the i-th of the next orders is refused.
  predicate Fails(bits: seq<bool>, i: nat) { i < |bits| && bits[i] }

  // The outcomes left after k calls.
  function Later(bits: seq<bool>, k: nat): seq<bool> {
    if k <= |bits| then bits[k..] else []
  }

  // How many of the next k orders are accepted.
  function AcceptedOf(refusals: seq<bool>, k: nat): nat {
    if k == 0 then 0 else AcceptedOf(refusals, k - 1) + if Fails(refusals, k - 1) then 0 else 1
  }

  lemma LaterNext(bits: seq<bool>, k: nat)
    ensures Head(Later(bits, k)) <==> Fails(bits, k)
    ensures Tail(Later(bits, k)) == Later(bits, k + 1)
  {}

  lemma LaterZero(bits: seq<bool>)
    ensures Later(bits, 0) == bits
  {}

  lemma {:induction false} AcceptedMono(refusals: seq<bool>, i: nat, k: nat)
    requires i < k && !Fails(refusals, i)
    ensures AcceptedOf(refusals, i) < AcceptedOf(refusals, k)
  {
    hide Fails;
    if i < k - 1 { AcceptedMono(refusals, i, k - 1); }
  }

  // The i-th placement, whose two cleanup or storing calls are the (2i+1)-th and (2i+2)-th of the pass:
  // a refused sell is deleted if that call succeeds, and its signal if both do; an accepted one gets its
  // order ID and its signal the executed mark, each if its own call succeeds.
  predicate Removed(w: World, i: nat) { Fails(w.refusals, i) && !Fails(w.faults, 2 * i + 1) }
  predicate SignalRemoved(w: World, i: nat) { Removed(w, i) && !Fails(w.faults, 2 * i + 2) }
  predicate OrderStored(w: World, i: nat) { !Fails(w.refusals, i) && !Fails(w.faults, 2 * i + 1) }
  predicate Marked(w: World, i: nat) { !Fails(w.refusals, i) && !Fails(w.faults, 2 * i + 2) }

  // ---- the tables after k placements ----

  ghost function LogTo(w: World, exits: seq<Fetched>, price: real, k: nat): (log: seq<Accepted>)
    requires k <= |exits|
    ensures |log| == |w.log| + AcceptedOf(w.refusals, k)
  {
    if k == 0 then w.log
    else if Fails(w.refusals, k - 1) then LogTo(w, exits, price, k - 1)
    else LogTo(w, exits, price, k - 1) + [OrderFor(w.next + k - 1, SellAt(exits[k - 1], price, w.next + k - 1))]
  }

  // One of the new identifiers.
  predicate New(w: World, exits: seq<Fetched>, id: nat) { w.next <= id < w.next + |exits| }

  ghost function RowTo(w: World, exits: seq<Fetched>, price: real, k: nat, id: nat): Trade
    requires id in w.db.trades || New(w, exits, id)
  {
    if !New(w, exits, id) then w.db.trades[id] else
    var row := SellAt(exits[id - w.next], price, id);
    if id < w.next + k && OrderStored(w, id - w.next) then row.(order := Some(|w.log| + AcceptedOf(w.refusals, id - w.next))) else row
  }

  ghost function SignalTo(w: World, exits: seq<Fetched>, price: real, k: nat, id: nat): Signal
    requires id in w.db.signals || New(w, exits, id)
  {
    if !New(w, exits, id) then w.db.signals[id] else
    SellSignal(exits[id - w.next].row.symbol, price).(executed := id < w.next + k && Marked(w, id - w.next))
  }

  // A new sell, or a new signal, that is still there after k placements.
  predicate Stands(w: World, exits: seq<Fetched>, k: nat, id: nat) {
    New(w, exits, id) && (id < w.next + k ==> !Removed(w, id - w.next))
  }

  predicate SignalStands(w: World, exits: seq<Fetched>, k: nat, id: nat) {
    New(w, exits, id) && (id < w.next + k ==> !SignalRemoved(w, id - w.next))
  }

  ghost predicate TradesTo(w: World, exits: seq<Fetched>, price: real, k: nat, trades: Trades) {
    && (forall id :: id in trades <==> id in w.db.trades || Stands(w, exits, k, id))
    && (forall id :: id in trades ==> trades[id] == RowTo(w, exits, price, k, id))
  }

  ghost predicate SignalsTo(w: World, exits: seq<Fetched>, price: real, k: nat, signals: map<nat, Signal>) {
    && (forall id :: id in signals <==> id in w.db.signals || SignalStands(w, exits, k, id))
    && (forall id :: id in signals ==> signals[id] == SignalTo(w, exits, price, k, id))
  }

  ghost predicate TablesTo(w: World, exits: seq<Fetched>, price: real, k: nat, db: Tables) {
    TradesTo(w, exits, price, k, db.trades) && SignalsTo(w, exits, price, k, db.signals) && db.transfers == w.db.transfers
  }

  ghost predicate SettledTo(w: World, exits: seq<Fetched>, price: real, k: nat, w': World)
    requires k <= |exits|
  {
    && TablesTo(w, exits, price, k, w'.db)
    && w' == w.(db := w'.db, faults := Later(w.faults, 2 * k + 1), refusals := Later(w.refusals, k),
                log := LogTo(w, exits, price, k), next := w.next + |exits|)
  }

  // Every order ID in the tables is one of the broker's.
  ghost predicate OrdersKnown(w: World) {
    forall id :: id in w.db.trades && w.db.trades[id].order.Some? ==> w.db.trades[id].order.value < |w.log|
  }

  // References are in place, the fresh identifiers unused and the order IDs known.
  ghost predicate Clean(w: World) {
    ForeignKeys(w.db) && Fresh(w.db, w.next) && OrdersKnown(w)
  }

  // ---- one placement ----

  // The k-th placement concerns the k-th sell alone.
  lemma OthersStay(w: World, exits: seq<Fetched>, price: real, k: nat, id: nat)
    requires k < |exits| && id != w.next + k
    ensures Stands(w, exits, k + 1, id) <==> Stands(w, exits, k, id)
    ensures SignalStands(w, exits, k + 1, id) <==> SignalStands(w, exits, k, id)
    ensures Stands(w, exits, k, id) || SignalStands(w, exits, k, id) ==> New(w, exits, id)
    ensures id in w.db.trades || New(w, exits, id) ==> RowTo(w, exits, price, k + 1, id) == RowTo(w, exits, price, k, id)
    ensures id in w.db.signals || New(w, exits, id) ==> SignalTo(w, exits, price, k + 1, id) == SignalTo(w, exits, price, k, id)
  {
    hide SellAt, AcceptedOf, Removed, SignalRemoved, OrderStored, Marked;
  }

  // What it does to the k-th sell.
  ghost function NextTrades(w: World, exits: seq<Fetched>, price: real, k: nat, trades: Trades): Trades
    requires k < |exits|
  {
    if Removed(w, k) then trades - {w.next + k}
    else if OrderStored(w, k) then trades[w.next + k := RowTo(w, exits, price, k + 1, w.next + k)]
    else trades
  }

  ghost function NextSignals(w: World, exits: seq<Fetched>, price: real, k: nat, signals: map<nat, Signal>): map<nat, Signal>
    requires k < |exits|
  {
    if SignalRemoved(w, k) then signals - {w.next + k}
    else if Marked(w, k) then signals[w.next + k := SignalTo(w, exits, price, k + 1, w.next + k)]
    else signals
  }

  // The two tables differ at `n` at most.
  ghost predicate DifferAt<T>(a: map<nat, T>, b: map<nat, T>, n: nat) {
    forall id :: id != n ==> (id in a <==> id in b) && (id in a ==> a[id] == b[id])
  }

  lemma TradesNext(w: World, exits: seq<Fetched>, price: real, k: nat, a: Trades, b: Trades)
    requires k < |exits| && TradesTo(w, exits, price, k, a) && DifferAt(a, b, w.next + k)
    requires w.next + k in b <==> w.next + k in w.db.trades || Stands(w, exits, k + 1, w.next + k)
    requires w.next + k in b ==> b[w.next + k] == RowTo(w, exits, price, k + 1, w.next + k)
    ensures TradesTo(w, exits, price, k + 1, b)
  {
    hide RowTo, Stands;
    forall id: nat
      ensures id in b <==> id in w.db.trades || Stands(w, exits, k + 1, id)
      ensures id in b ==> (id in w.db.trades || New(w, exits, id)) && b[id] == RowTo(w, exits, price, k + 1, id)
    {
      if id != w.next + k { OthersStay(w, exits, price, k, id); }
    }
  }

  lemma SignalsNext(w: World, exits: seq<Fetched>, price: real, k: nat, a: map<nat, Signal>, b: map<nat, Signal>)
    requires k < |exits| && SignalsTo(w, exits, price, k, a) && DifferAt(a, b, w.next + k)
    requires w.next + k in b <==> w.next + k in w.db.signals || SignalStands(w, exits, k + 1, w.next + k)
    requires w.next + k in b ==> b[w.next + k] == SignalTo(w, exits, price, k + 1, w.next + k)
    ensures SignalsTo(w, exits, price, k + 1, b)
  {
    hide SignalTo, SignalStands;
    forall id: nat
      ensures id in b <==> id in w.db.signals || SignalStands(w, exits, k + 1, id)
      ensures id in b ==> (id in w.db.signals || New(w, exits, id)) && b[id] == SignalTo(w, exits, price, k + 1, id)
    {
      if id != w.next + k { OthersStay(w, exits, price, k, id); }
    }
  }

  // Before its placement the k-th sell stands, unplaced; what becomes of it is what the calls' outcomes say.
  lemma {:induction false} SellItself(w: World, exits: seq<Fetched>, price: real, k: nat)
    requires Fresh(w.db, w.next) && k < |exits|
    ensures w.next + k !in w.db.trades && w.next + k !in w.db.signals && New(w, exits, w.next + k)
    ensures Stands(w, exits, k, w.next + k) && SignalStands(w, exits, k, w.next + k)
    ensures Stands(w, exits, k + 1, w.next + k) <==> !Removed(w, k)
    ensures SignalStands(w, exits, k + 1, w.next + k) <==> !SignalRemoved(w, k)
    ensures RowTo(w, exits, price, k, w.next + k) == SellAt(exits[k], price, w.next + k)
    ensures RowTo(w, exits, price, k + 1, w.next + k) ==
      if OrderStored(w, k) then SellAt(exits[k], price, w.next + k).(order := Some(|w.log| + AcceptedOf(w.refusals, k)))
      else SellAt(exits[k], price, w.next + k)
    ensures SignalTo(w, exits, price, k, w.next + k) == SellSignal(exits[k].row.symbol, price)
    ensures SignalTo(w, exits, price, k + 1, w.next + k) == SellSignal(exits[k].row.symbol, price).(executed := Marked(w, k))
  {
    hide SellAt, AcceptedOf, Removed, SignalRemoved, OrderStored, Marked;
  }

  lemma TablesNext(w: World, exits: seq<Fetched>, price: real, k: nat, db: Tables)
    requires Fresh(w.db, w.next) && k < |exits| && TablesTo(w, exits, price, k, db)
    ensures w.next + k in db.trades && db.trades[w.next + k] == SellAt(exits[k], price, w.next + k)
    ensures w.next + k in db.signals && db.signals[w.next + k] == SellSignal(exits[k].row.symbol, price)
    ensures TablesTo(w, exits, price, k + 1,
              db.(trades := NextTrades(w, exits, price, k, db.trades), signals := NextSignals(w, exits, price, k, db.signals)))
  {
    hide RowTo, SignalTo, Stands, SignalStands, Fresh, SellAt, AcceptedOf, Removed, OrderStored, SellSignal;
    SellItself(w, exits, price, k);
    var n := w.next + k;
    assert n in db.trades && n in db.signals;
    assert db.trades[n] == RowTo(w, exits, price, k, n) && db.signals[n] == SignalTo(w, exits, price, k, n);
    hide TradesTo, SignalsTo;
    StayedTrade(w, exits, price, k, db.trades);
    StayedSignal(w, exits, price, k, db.signals);
    TradesNext(w, exits, price, k, db.trades, NextTrades(w, exits, price, k, db.trades));
    SignalsNext(w, exits, price, k, db.signals, NextSignals(w, exits, price, k, db.signals));
  }

  lemma StayedTrade(w: World, exits: seq<Fetched>, price: real, k: nat, trades: Trades)
    requires Fresh(w.db, w.next) && k < |exits|
    requires w.next + k in trades && trades[w.next + k] == SellAt(exits[k], price, w.next + k)
    ensures var trades' := NextTrades(w, exits, price, k, trades);
      && DifferAt(trades, trades', w.next + k)
      && (w.next + k in trades' <==> w.next + k in w.db.trades || Stands(w, exits, k + 1, w.next + k))
      && (w.next + k in trades' ==> trades'[w.next + k] == RowTo(w, exits, price, k + 1, w.next + k))
  {
    hide RowTo, Stands, Fresh, SellAt, AcceptedOf, Fails;
    SellItself(w, exits, price, k);
  }

  lemma StayedSignal(w: World, exits: seq<Fetched>, price: real, k: nat, signals: map<nat, Signal>)
    requires Fresh(w.db, w.next) && k < |exits|
    requires w.next + k in signals && signals[w.next + k] == SellSignal(exits[k].row.symbol, price)
    ensures var signals' := NextSignals(w, exits, price, k, signals);
      && DifferAt(signals, signals', w.next + k)
      && (w.next + k in signals' <==> w.next + k in w.db.signals || SignalStands(w, exits, k + 1, w.next + k))
      && (w.next + k in signals' ==> signals'[w.next + k] == SignalTo(w, exits, price, k + 1, w.next + k))
  {
    hide SignalTo, SignalStands, Fresh, Fails;
    SellItself(w, exits, price, k);
  }

  // ---- its calls ----

  lemma UndoOk(w: World, exits: seq<Fetched>, price: real, k: nat, db: Tables)
    requires Clean(w) && AllSellable(w.db, exits) && k < |exits| && TablesTo(w, exits, price, k, db)
    ensures DeleteTrade(db, w.next + k) == Ok(db.(trades := db.trades - {w.next + k}))
  {
    hide Removed, OrderStored, AcceptedOf, SignalsTo;
    forall m | m in db.trades ensures db.trades[m].parent != Some(w.next + k) {
      if New(w, exits, m) { assert Sellable(w.db, exits[m - w.next]); }
    }
  }

  // The signal can go once its sell is gone, and not before.
  lemma UndoSignalOk(w: World, exits: seq<Fetched>, price: real, k: nat, db: Tables)
    requires Clean(w) && k < |exits| && TablesTo(w, exits, price, k, db)
    ensures var db1 := db.(trades := db.trades - {w.next + k});
      DeleteSignal(db1, w.next + k) == Ok(db1.(signals := db1.signals - {w.next + k}))
    ensures DeleteSignal(db, w.next + k).Err?
  {
    hide Removed, OrderStored, AcceptedOf, SignalsTo;
    SellItself(w, exits, price, k);
    assert db.trades[w.next + k].signal == Some(w.next + k);
    forall m | m in db.trades && m != w.next + k ensures db.trades[m].signal != Some(w.next + k) {}
  }

  // Two of the new sells differ in parent, and in order ID once both are placed.
  lemma NewSellsDiffer(w: World, exits: seq<Fetched>, price: real, k: nat, i: nat)
    requires AllSellable(w.db, exits) && k < |exits| && i < |exits| && i != k
    ensures !ClashesWith(RowTo(w, exits, price, k, w.next + i), RowTo(w, exits, price, k + 1, w.next + k))
  {
    hide Sellable, AcceptedOf, Fails;
    assert exits[i].id != exits[k].id;
    if i < k && OrderStored(w, i) { AcceptedMono(w.refusals, i, k); }
  }

  // A row that was there is no sell of the k-th buy and has an older order.
  lemma OldRowDiffers(w: World, exits: seq<Fetched>, price: real, k: nat, m: nat)
    requires OrdersKnown(w) && k < |exits| && Sellable(w.db, exits[k]) && m in w.db.trades
    ensures !ClashesWith(w.db.trades[m], RowTo(w, exits, price, k + 1, w.next + k))
  {
    hide AcceptedOf, OrderStored;
    assert !SellOf(w.db.trades[m], exits[k].id);
  }

  // No other row carries the k-th sell's order or its parent.
  lemma NoClashAt(w: World, exits: seq<Fetched>, price: real, k: nat, trades: Trades, m: nat)
    requires OrdersKnown(w) && Fresh(w.db, w.next) && AllSellable(w.db, exits) && k < |exits| && TradesTo(w, exits, price, k, trades)
    requires m in trades && m != w.next + k
    ensures !ClashesWith(trades[m], RowTo(w, exits, price, k + 1, w.next + k))
  {
    hide ClashesWith, OrdersKnown, SellAt, AcceptedOf, Sellable, Removed, OrderStored;
    if New(w, exits, m) {
      NewSellsDiffer(w, exits, price, k, m - w.next);
    } else {
      OldRowDiffers(w, exits, price, k, m);
    }
  }

  lemma StoreOk(w: World, exits: seq<Fetched>, price: real, k: nat, db: Tables)
    requires Clean(w) && AllSellable(w.db, exits) && k < |exits| && TablesTo(w, exits, price, k, db)
    ensures var row := RowTo(w, exits, price, k + 1, w.next + k);
      UpdateTrade(db, w.next + k, row) == Ok(db.(trades := db.trades[w.next + k := row]))
  {
    hide ClashesWith, OrdersKnown, AcceptedOf, ForeignKeys, OrderStored;
    assert Sellable(w.db, exits[k]);
    SellItself(w, exits, price, k);
    assert exits[k].id in w.db.trades && exits[k].id in db.trades;
    forall m | m in db.trades && m != w.next + k ensures !ClashesWith(db.trades[m], RowTo(w, exits, price, k + 1, w.next + k)) {
      NoClashAt(w, exits, price, k, db.trades, m);
    }
  }

  // ---- one placement as a whole ----

  // A statement of its own: applied unless it fails or is refused.
  function Applied(db: Tables, failed: bool, r: Result<Tables>): Tables {
    if failed || r.Err? then db else r.value
  }

  lemma RefusalIs(w: World, f: Fetched, sig: nat)
    requires Head(w.refusals) && f.row.signal == Some(sig)
    ensures var db1 := Applied(w.db, Head(w.faults), DeleteTrade(w.db, f.id));
      SettleOne(w, f) == w.(db := Applied(db1, Head(Tail(w.faults)), DeleteSignal(db1, sig)),
                            faults := Tail(Tail(w.faults)), refusals := Tail(w.refusals))
  {
    hide DeleteTrade, DeleteSignal;
  }

  lemma AcceptanceIs(w: World, f: Fetched, sig: nat, row: Trade)
    requires !Head(w.refusals) && f.row.signal == Some(sig) && row == f.row.(order := Some(|w.log|))
    ensures var db1 := Applied(w.db, Head(w.faults), UpdateTrade(w.db, f.id, row));
      SettleOne(w, f) == w.(db := Applied(db1, Head(Tail(w.faults)), Ok(MarkExecuted(db1, sig))),
                            faults := Tail(Tail(w.faults)), refusals := Tail(w.refusals), log := w.log + [OrderFor(f.id, f.row)])
  {
    hide UpdateTrade, MarkExecuted;
  }

  lemma RefusedTables(w: World, exits: seq<Fetched>, price: real, k: nat, db: Tables)
    requires Clean(w) && AllSellable(w.db, exits) && k < |exits| && TablesTo(w, exits, price, k, db) && Fails(w.refusals, k)
    ensures var db1 := Applied(db, Fails(w.faults, 2 * k + 1), DeleteTrade(db, w.next + k));
      Applied(db1, Fails(w.faults, 2 * k + 2), DeleteSignal(db1, w.next + k))
      == db.(trades := NextTrades(w, exits, price, k, db.trades), signals := NextSignals(w, exits, price, k, db.signals))
  {
    hide Clean, AllSellable, TablesTo, DeleteTrade, DeleteSignal, RowTo, SignalTo;
    UndoOk(w, exits, price, k, db);
    UndoSignalOk(w, exits, price, k, db);
  }

  lemma {:induction false} AcceptedTables(w: World, exits: seq<Fetched>, price: real, k: nat, db: Tables)
    requires Clean(w) && AllSellable(w.db, exits) && k < |exits| && TablesTo(w, exits, price, k, db) && !Fails(w.refusals, k)
    ensures var row := SellAt(exits[k], price, w.next + k).(order := Some(|w.log| + AcceptedOf(w.refusals, k)));
      var db1 := Applied(db, Fails(w.faults, 2 * k + 1), UpdateTrade(db, w.next + k, row));
      Applied(db1, Fails(w.faults, 2 * k + 2), Ok(MarkExecuted(db1, w.next + k)))
      == db.(trades := NextTrades(w, exits, price, k, db.trades), signals := NextSignals(w, exits, price, k, db.signals))
  {
    hide AllSellable, TablesTo, UpdateTrade, RowTo, SignalTo, SellAt, SellSignal, AcceptedOf, Fresh, ForeignKeys, OrdersKnown;
    SellItself(w, exits, price, k);
    TablesNext(w, exits, price, k, db);
    StoreOk(w, exits, price, k, db);
  }

  lemma SettleNext(w: World, exits: seq<Fetched>, price: real, k: nat, w': World)
    requires Clean(w) && AllSellable(w.db, exits) && k < |exits| && SettledTo(w, exits, price, k, w')
    ensures SettledTo(w, exits, price, k + 1, SettleOne(w', Sells(exits, price, w.next)[k]))
  {
    hide Clean, AllSellable, TablesTo, SettleOne, NextTrades, NextSignals, SellAt, DeleteTrade, DeleteSignal, UpdateTrade, MarkExecuted,
         Applied, AcceptedOf, Later, OrderFor, Sells;
    var n, f := w.next + k, Fetched(w.next + k, SellAt(exits[k], price, w.next + k));
    SellIs(exits, price, w.next, k);
    CleanIsFresh(w);
    TablesNext(w, exits, price, k, w'.db);
    LaterNext(w.refusals, k);
    LaterNext(w.faults, 2 * k + 1);
    LaterNext(w.faults, 2 * k + 2);
    SellNames(exits[k], price, n);
    if Fails(w.refusals, k) {
      RefusedTables(w, exits, price, k, w'.db);
      RefusalIs(w', f, n);
    } else {
      AcceptedTables(w, exits, price, k, w'.db);
      AcceptanceIs(w', f, n, f.row.(order := Some(|w'.log|)));
    }
  }

  lemma SellIs(exits: seq<Fetched>, price: real, next: nat, k: nat)
    requires k < |exits|
    ensures |Sells(exits, price, next)| == |exits| && Sells(exits, price, next)[k] == Fetched(next + k, SellAt(exits[k], price, next + k))
  {}

  lemma CleanIsFresh(w: World)
    requires Clean(w)
    ensures Fresh(w.db, w.next)
  {}

  lemma SellNames(f: Fetched, price: real, n: nat)
    ensures SellAt(f, price, n).signal == Some(n)
  {}

  lemma {:induction false} SettleExactly(w: World, exits: seq<Fetched>, price: real, k: nat, w0: World)
    requires Clean(w) && AllSellable(w.db, exits) && k <= |exits| && SettledTo(w, exits, price, 0, w0)
    ensures SettledTo(w, exits, price, k, Settle(w0, Sells(exits, price, w.next)[..k]))
  {
    hide SettleOne, SettledTo, Clean, AllSellable;
    var sells := Sells(exits, price, w.next);
    if k > 0 {
      SettleExactly(w, exits, price, k - 1, w0);
      assert sells[..k][..k - 1] == sells[..k - 1];
      SettleNext(w, exits, price, k - 1, Settle(w0, sells[..k - 1]));
    }
  }

  // Staging leaves the tables as they are before the first placement.
  lemma StagedIsStart(w: World, exits: seq<Fetched>, price: real, db: Tables)
    requires WithSells(w.db, exits, price, w.next, 0, db)
    ensures SettledTo(w, exits, price, 0, w.(db := db, faults := Tail(w.faults), next := w.next + |exits|))
  {
    hide SellAt, Removed, SignalRemoved, OrderStored, Marked;
    LaterZero(w.refusals);
    LaterZero(w.faults);
    LaterNext(w.faults, 0);
  }

  lemma {:induction false} PassIsSettled(w: World, symbol: string, price: real, scan: seq<nat>)
    requires Clean(w) && IsScan(scan, w.db.trades)
    ensures Fails(w.faults, 0) ==> ExitPass(w, symbol, price, scan) == (w.(faults := Later(w.faults, 1)), Err(Infrastructure))
    ensures !Fails(w.faults, 0) ==>
      var exits := Exiting(OpenBuys(w.db.trades, symbol, scan), price);
      ExitPass(w, symbol, price, scan).1 == Ok(()) && SettledTo(w, exits, price, |exits|, ExitPass(w, symbol, price, scan).0)
  {
    hide OpenBuys, WithSells, ForeignKeys, Fresh, OrdersKnown, SettledTo, SettleOne, StageOne, Triggered;
    var fetched := OpenBuys(w.db.trades, symbol, scan);
    var exits := Exiting(fetched, price);
    QuerySellable(w.db, symbol, scan);
    StagedExactly(w.db, fetched, price, w.next);
    LaterZero(w.faults);
    LaterNext(w.faults, 0);
    if !Fails(w.faults, 0) {
      ExitingIn(fetched, price);
      forall k | 0 <= k < |exits| ensures Sellable(w.db, exits[k]) { assert exits[k] in exits; }
      var st := StageSells(w.db, fetched, price, w.next).value;
      StagedIsStart(w, exits, price, st.db);
      SettleExactly(w, exits, price, |exits|, w.(db := st.db, faults := Tail(w.faults), next := st.next));
      assert st.pending[..|exits|] == st.pending;
    }
  }

  // ---- the outcome, column by column ----

  // Row n is a pending market sell of the whole of `buy`, with a signal of its own.
  ghost predicate SellStands(w': World, id: nat, buy: Trade, n: nat, symbol: string, price: real, order: Option<nat>, executed: bool) {
    && n in w'.db.trades
    && w'.db.trades[n] == Trade(Some(id), Some(n), buy.transfer, order, symbol, Sell, buy.quantity, Some(price),
                                None, None, None, None, None, None, None, Pending)
    && n in w'.db.signals && w'.db.signals[n] == Signal(symbol, Sell, price, Indicators(0.0, 0.0, 0.0), executed)
  }

  // The i-th sell. Accepted, it stands, its order is logged, its row carries the order ID and its signal is
  // executed unless that call failed. Refused, it is gone unless its delete failed, and so is its signal
  // unless either delete failed.
  ghost predicate SellEnds(w: World, w': World, id: nat, i: nat, symbol: string, price: real)
    requires id in w.db.trades
  {
    var n, buy, o := w.next + i, w.db.trades[id], |w.log| + AcceptedOf(w.refusals, i);
    if !Fails(w.refusals, i) then
      && SellStands(w', id, buy, n, symbol, price, if Fails(w.faults, 2 * i + 1) then None else Some(o), !Fails(w.faults, 2 * i + 2))
      && o < |w'.log| && w'.log[o] == Accepted(n, Sell, Some(id), Some(n), symbol, buy.quantity)
    else if Fails(w.faults, 2 * i + 1) then SellStands(w', id, buy, n, symbol, price, None, false)
    else
      && n !in w'.db.trades && (n in w'.db.signals <==> Fails(w.faults, 2 * i + 2))
      && (n in w'.db.signals ==> w'.db.signals[n] == Signal(symbol, Sell, price, Indicators(0.0, 0.0, 0.0), false))
  }

  // Everything that was there is still there, as it was.
  ghost predicate KeptAll(w: World, w': World) {
    && (forall id :: id in w.db.trades ==> id in w'.db.trades && w'.db.trades[id] == w.db.trades[id])
    && (forall id :: id in w.db.signals ==> id in w'.db.signals && w'.db.signals[id] == w.db.signals[id])
    && w'.db.transfers == w.db.transfers && w.log <= w'.log
  }

  ghost predicate EachSold(w: World, w': World, ids: seq<nat>, symbol: string, price: real) {
    forall i :: 0 <= i < |ids| ==> ids[i] in w.db.trades && SellEnds(w, w', ids[i], i, symbol, price)
  }

  // There are no new rows, signals or orders but those of the sells of `ids`.
  ghost predicate NothingElse(w: World, w': World, ids: seq<nat>) {
    && (forall id :: id in w'.db.trades && id !in w.db.trades ==> w.next <= id < w.next + |ids|)
    && (forall id :: id in w'.db.signals && id !in w.db.signals ==> w.next <= id < w.next + |ids|)
    && |w'.log| == |w.log| + AcceptedOf(w.refusals, |ids|)
    && w'.faults == Later(w.faults, 2 * |ids| + 1) && w'.refusals == Later(w.refusals, |ids|) && w'.next == w.next + |ids|
  }

  // The pass sold exactly the buys that must exit, each once.
  ghost predicate PassSold(w: World, w': World, ids: seq<nat>, symbol: string, price: real) {
    && (forall id :: id in ids <==> MustExit(w.db.trades, id, symbol, price))
    && (forall i, j :: 0 <= i < j < |ids| ==> ids[i] != ids[j])
    && KeptAll(w, w') && EachSold(w, w', ids, symbol, price) && NothingElse(w, w', ids)
  }

  lemma {:induction false} LogAt(w: World, exits: seq<Fetched>, price: real, k: nat, i: nat)
    requires i < k <= |exits| && !Fails(w.refusals, i)
    ensures AcceptedOf(w.refusals, i) < AcceptedOf(w.refusals, k)
    ensures LogTo(w, exits, price, k)[|w.log| + AcceptedOf(w.refusals, i)] == OrderFor(w.next + i, SellAt(exits[i], price, w.next + i))
  {
    hide Fails, SellAt;
    if i < k - 1 { LogAt(w, exits, price, k - 1, i); }
  }

  lemma {:induction false} LogExtends(w: World, exits: seq<Fetched>, price: real, k: nat)
    requires k <= |exits|
    ensures w.log <= LogTo(w, exits, price, k)
  {
    hide Fails, SellAt;
    if k > 0 { LogExtends(w, exits, price, k - 1); }
  }

  function IdsOf(exits: seq<Fetched>): seq<nat> {
    seq(|exits|, i requires 0 <= i < |exits| => exits[i].id)
  }

  // The i-th sell and its signal in the tables after the pass.
  lemma {:induction false} SellAfter(w: World, exits: seq<Fetched>, price: real, db: Tables, i: nat)
    requires Fresh(w.db, w.next) && i < |exits| && TablesTo(w, exits, price, |exits|, db)
    ensures w.next + i in db.trades <==> !Removed(w, i)
    ensures w.next + i in db.signals <==> !SignalRemoved(w, i)
    ensures w.next + i in db.trades ==>
      var order := if OrderStored(w, i) then Some(|w.log| + AcceptedOf(w.refusals, i)) else None;
      db.trades[w.next + i] == Trade(Some(exits[i].id), Some(w.next + i), exits[i].row.transfer, order, exits[i].row.symbol, Sell,
                                     exits[i].row.quantity, Some(price), None, None, None, None, None, None, None, Pending)
    ensures w.next + i in db.signals ==>
      db.signals[w.next + i] == Signal(exits[i].row.symbol, Sell, price, Indicators(0.0, 0.0, 0.0), Marked(w, i))
  {
    hide AcceptedOf, Removed, SignalRemoved, OrderStored, Marked;
    assert New(w, exits, w.next + i) && w.next + i !in w.db.trades && w.next + i !in w.db.signals;
  }

  lemma SellEndsAs(w: World, exits: seq<Fetched>, symbol: string, price: real, w': World, i: nat)
    requires Fresh(w.db, w.next) && i < |exits| && SettledTo(w, exits, price, |exits|, w')
    requires exits[i].id in w.db.trades && exits[i].row == w.db.trades[exits[i].id] && exits[i].row.symbol == symbol
    ensures SellEnds(w, w', exits[i].id, i, symbol, price)
  {
    hide AcceptedOf, LogTo, Fails, TablesTo, Fresh;
    SellAfter(w, exits, price, w'.db, i);
    if !Fails(w.refusals, i) { LogAt(w, exits, price, |exits|, i); }
  }

  lemma OldStays(w: World, exits: seq<Fetched>, price: real, w': World)
    requires Fresh(w.db, w.next) && SettledTo(w, exits, price, |exits|, w')
    ensures KeptAll(w, w')
  {
    hide LogTo, Removed, SignalRemoved, OrderStored, Marked;
    LogExtends(w, exits, price, |exits|);
  }

  lemma OnlySells(w: World, exits: seq<Fetched>, price: real, w': World)
    requires SettledTo(w, exits, price, |exits|, w')
    ensures NothingElse(w, w', IdsOf(exits))
  {
    hide LogTo, AcceptedOf, RowTo, SignalTo, Removed, SignalRemoved;
  }

  lemma SettledIsSold(w: World, exits: seq<Fetched>, symbol: string, price: real, w': World)
    requires Fresh(w.db, w.next) && SettledTo(w, exits, price, |exits|, w')
    requires Due(w.db.trades, exits, symbol, price)
    ensures PassSold(w, w', IdsOf(exits), symbol, price)
  {
    hide SettledTo, SellEnds, KeptAll, NothingElse, Fresh;
    var ids := IdsOf(exits);
    OldStays(w, exits, price, w');
    OnlySells(w, exits, price, w');
    forall i: nat | i < |ids| ensures ids[i] in w.db.trades && SellEnds(w, w', ids[i], i, symbol, price) {
      assert MustExit(w.db.trades, exits[i].id, symbol, price);
      SellEndsAs(w, exits, symbol, price, w', i);
    }
    forall id: nat ensures id in ids <==> MustExit(w.db.trades, id, symbol, price) {
      if id in ids {
        var i :| 0 <= i < |ids| && ids[i] == id;
        assert MustExit(w.db.trades, exits[i].id, symbol, price);
      }
      if MustExit(w.db.trades, id, symbol, price) {
        var i :| 0 <= i < |exits| && exits[i].id == id;
        assert ids[i] == id;
      }
    }
  }

  // An exit pass, whichever calls fail and whichever orders are refused. If its transaction fails nothing
  // changes. Otherwise the buys that must exit are exactly the ones that get a sell, each one of its whole
  // quantity; which rows, order IDs, executed marks and signals stand in the end is what the outcomes of the
  // later calls say, and nothing else changes.
  lemma {:induction false} PassOutcome(w: World, symbol: string, price: real, scan: seq<nat>)
    requires Clean(w) && IsScan(scan, w.db.trades)
    ensures Fails(w.faults, 0) ==> ExitPass(w, symbol, price, scan) == (w.(faults := Later(w.faults, 1)), Err(Infrastructure))
    ensures !Fails(w.faults, 0) ==>
      ExitPass(w, symbol, price, scan).1 == Ok(()) && exists ids :: PassSold(w, ExitPass(w, symbol, price, scan).0, ids, symbol, price)
  {
    hide ExitPass, SettledTo, PassSold, ForeignKeys, OrdersKnown;
    var exits := Exiting(OpenBuys(w.db.trades, symbol, scan), price);
    PassIsSettled(w, symbol, price, scan);
    ExitsAreDue(w.db.trades, symbol, scan, price);
    if !Fails(w.faults, 0) { SettledIsSold(w, exits, symbol, price, ExitPass(w, symbol, price, scan).0); }
  }

  // If the broker refuses every order and no call fails, the tables and the log are what they were.
  lemma {:induction false} RefusedPassRestores(w: World, symbol: string, price: real, scan: seq<nat>)
    requires Clean(w) && IsScan(scan, w.db.trades)
    requires forall i :: 0 <= i <= 2 * |Exiting(OpenBuys(w.db.trades, symbol, scan), price)| ==> !Fails(w.faults, i)
    requires forall i :: 0 <= i < |Exiting(OpenBuys(w.db.trades, symbol, scan), price)| ==> Fails(w.refusals, i)
    ensures ExitPass(w, symbol, price, scan).1.Ok?
    ensures ExitPass(w, symbol, price, scan).0.db == w.db && ExitPass(w, symbol, price, scan).0.log == w.log
  {
    hide OpenBuys, Exiting, ExitPass, Fresh, ForeignKeys, OrdersKnown, Fails;
    PassIsSettled(w, symbol, price, scan);
    AllGone(w, Exiting(OpenBuys(w.db.trades, symbol, scan), price), price, ExitPass(w, symbol, price, scan).0);
  }

  lemma {:induction false} NoneAccepted(w: World, exits: seq<Fetched>, price: real, k: nat)
    requires k <= |exits| && forall i :: 0 <= i < k ==> Fails(w.refusals, i)
    ensures LogTo(w, exits, price, k) == w.log
  {
    hide Fails;
    if k > 0 { NoneAccepted(w, exits, price, k - 1); }
  }

  lemma AllGone(w: World, exits: seq<Fetched>, price: real, w': World)
    requires SettledTo(w, exits, price, |exits|, w')
    requires forall i :: 0 <= i < |exits| ==> Fails(w.refusals, i)
    requires forall i :: 0 <= i <= 2 * |exits| ==> !Fails(w.faults, i)
    requires Fresh(w.db, w.next)
    ensures w'.db == w.db && w'.log == w.log
  {
    hide Fails, LogTo, AcceptedOf;
    NoneAccepted(w, exits, price, |exits|);
    forall id: nat ensures !Stands(w, exits, |exits|, id) && !SignalStands(w, exits, |exits|, id) {
      if New(w, exits, id) {
        assert Fails(w.refusals, id - w.next) && !Fails(w.faults, 2 * (id - w.next) + 1) && !Fails(w.faults, 2 * (id - w.next) + 2);
      }
    }
    hide Stands, SignalStands;
    assert w'.db.trades == w.db.trades;
    assert w'.db.signals == w.db.signals;
  }
}
