/** The shadow path never changes the live path: with stored peaks and shadow rows erased,
    full bars and live bars alone lead to the same world. */
module Erasure {
  import opened Model
  import opened Database
  import opened Adaptive
  import opened Ledger
  import opened Calls
  import opened Signals
  import opened Shadow
  import Mapper

  function Blank(row: Trade): Trade { row.(peak := None) }

  // Equal up to stored peaks.
  ghost predicate Alike(a: Trades, b: Trades) {
    a.Keys == b.Keys && forall id :: id in a ==> Blank(a[id]) == Blank(b[id])
  }

  ghost predicate AlikeDb(a: Tables, b: Tables) {
    Alike(a.trades, b.trades) && a.signals == b.signals && a.transfers == b.transfers
  }

  ghost predicate AlikeWorld(v: World, w: World) {
    AlikeDb(v.db, w.db) && v == w.(db := v.db)
  }

  ghost predicate AlikeResult(a: Result<Tables>, b: Result<Tables>) {
    match (a, b)
    case (Ok(x), Ok(y)) => AlikeDb(x, y)
    case (Err(e), Err(f)) => e == f
    case _ => false
  }

  ghost predicate AlikeRows(a: seq<Fetched>, b: seq<Fetched>) {
    |a| == |b| && forall i :: 0 <= i < |a| ==> a[i].id == b[i].id && Blank(a[i].row) == Blank(b[i].row)
  }

  // ---- queries ----

  lemma SameChildren(a: Trades, b: Trades, id: nat)
    requires Alike(a, b)
    ensures HasSellChild(a, id) <==> HasSellChild(b, id)
  {
    if HasSellChild(a, id) {
      var k :| k in a && SellOf(a[k], id);
      assert Blank(a[k]) == Blank(b[k]) && SellOf(b[k], id);
    }
    if HasSellChild(b, id) {
      var k :| k in b && SellOf(b[k], id);
      assert Blank(a[k]) == Blank(b[k]) && SellOf(a[k], id);
    }
  }

  lemma SamePosition(a: Trades, b: Trades, id: nat, symbol: string)
    requires Alike(a, b)
    ensures OpenPosition(a, id, symbol) <==> OpenPosition(b, id, symbol)
    ensures OpenBuy(a, id, symbol) <==> OpenBuy(b, id, symbol)
  {
    SameChildren(a, b, id);
    assert id in a ==> Blank(a[id]) == Blank(b[id]);
  }

  lemma SameHasOpen(a: Trades, b: Trades, symbol: string)
    requires Alike(a, b)
    ensures HasOpenPosition(a, symbol) <==> HasOpenPosition(b, symbol)
  {
    forall id: nat ensures OpenPosition(a, id, symbol) <==> OpenPosition(b, id, symbol) {
      SamePosition(a, b, id, symbol);
    }
  }

  lemma {:induction false} SameOpenBuys(a: Trades, b: Trades, symbol: string, scan: seq<nat>)
    requires Alike(a, b)
    ensures AlikeRows(OpenBuys(a, symbol, scan), OpenBuys(b, symbol, scan))
  {
    if scan != [] {
      SameOpenBuys(a, b, symbol, scan[..|scan| - 1]);
      SamePosition(a, b, scan[|scan| - 1], symbol);
    }
  }

  // ---- writes ----

  lemma SamePut(a: Tables, b: Tables, id: nat, x: Trade, y: Trade)
    requires AlikeDb(a, b) && Blank(x) == Blank(y)
    ensures AlikeResult(Put(a, id, x), Put(b, id, y))
  {
    forall k | k in a.trades ensures ClashesWith(a.trades[k], x) <==> ClashesWith(b.trades[k], y) {
      assert Blank(a.trades[k]) == Blank(b.trades[k]);
    }
    assert Clashes(a.trades, id, x) <==> Clashes(b.trades, id, y);
  }

  lemma SameUpdateTrade(a: Tables, b: Tables, id: nat, row: Trade)
    requires AlikeDb(a, b)
    ensures AlikeResult(UpdateTrade(a, id, row), UpdateTrade(b, id, row))
  {
    hide Put;
    SamePut(a, b, id, row, row);
  }

  lemma SameDeleteTrade(a: Tables, b: Tables, id: nat)
    requires AlikeDb(a, b)
    ensures AlikeResult(DeleteTrade(a, id), DeleteTrade(b, id))
  {
    forall k | k in a.trades ensures a.trades[k].parent == b.trades[k].parent {
      assert Blank(a.trades[k]) == Blank(b.trades[k]);
    }
  }

  lemma SameDeleteSignal(a: Tables, b: Tables, id: nat)
    requires AlikeDb(a, b)
    ensures AlikeResult(DeleteSignal(a, id), DeleteSignal(b, id))
  {
    forall k | k in a.trades ensures a.trades[k].signal == b.trades[k].signal {
      assert Blank(a.trades[k]) == Blank(b.trades[k]);
    }
  }

  lemma SameIncrement(a: Tables, b: Tables, t: nat)
    requires AlikeDb(a, b)
    ensures AlikeResult(IncrementRemaining(a, t), IncrementRemaining(b, t))
  {}

  lemma SameStatusTx(a: Tables, b: Tables, id: nat, x: Trade, y: Trade)
    requires AlikeDb(a, b) && Blank(x) == Blank(y)
    ensures AlikeResult(WriteStatusTx(a, id, x), WriteStatusTx(b, id, y))
  {
    SamePut(a, b, id, x, y);
    var r, q := UpdateTrade(a, id, x), UpdateTrade(b, id, y);
    assert AlikeResult(r, q);
    assert x.status == y.status && x.side == y.side && x.transfer == y.transfer;
    if r.Ok? && x.transfer.Some? { SameIncrement(r.value, q.value, x.transfer.value); }
  }

  lemma SameBuyTx(a: Tables, b: Tables, id: nat, row: Trade)
    requires AlikeDb(a, b)
    ensures AlikeResult(CommitBuyTx(a, id, row), CommitBuyTx(b, id, row))
  {
    SameHasOpen(a.trades, b.trades, row.symbol);
    SamePut(a, b, id, row, row);
  }

  lemma SameCommit(v: World, w: World, a: Result<Tables>, b: Result<Tables>)
    requires AlikeWorld(v, w) && AlikeResult(a, b)
    ensures AlikeWorld(Commit(v, a).0, Commit(w, b).0) && Commit(v, a).1 == Commit(w, b).1
  {}

  // ---- calls ----

  lemma SamePlace(v: World, w: World, order: Accepted)
    requires AlikeWorld(v, w)
    ensures AlikeWorld(Place(v, order).0, Place(w, order).0) && Place(v, order).1 == Place(w, order).1
  {
    hide AlikeDb;
  }

  // What follows an accepted order: its ID is stored and its signal marked executed.
  ghost function Stored(w: World, id: nat, row: Trade, sig: nat): World {
    var w1 := Commit(w, UpdateTrade(w.db, id, row)).0;
    Commit(w1, Ok(MarkExecuted(w1.db, sig))).0
  }

  lemma SameStored(v: World, w: World, id: nat, row: Trade, sig: nat)
    requires AlikeWorld(v, w)
    ensures AlikeWorld(Stored(v, id, row, sig), Stored(w, id, row, sig))
  {
    hide UpdateTrade, Alike, Commit;
    SameUpdateTrade(v.db, w.db, id, row);
    SameCommit(v, w, UpdateTrade(v.db, id, row), UpdateTrade(w.db, id, row));
    var v1, w1 := Commit(v, UpdateTrade(v.db, id, row)).0, Commit(w, UpdateTrade(w.db, id, row)).0;
    SameCommit(v1, w1, Ok(MarkExecuted(v1.db, sig)), Ok(MarkExecuted(w1.db, sig)));
  }

  // What follows a refused sell: its row and then its signal are deleted.
  ghost function Removed(w: World, id: nat, sig: nat): World {
    var w1 := Commit(w, DeleteTrade(w.db, id)).0;
    Commit(w1, DeleteSignal(w1.db, sig)).0
  }

  lemma SameRemoved(v: World, w: World, id: nat, sig: nat)
    requires AlikeWorld(v, w)
    ensures AlikeWorld(Removed(v, id, sig), Removed(w, id, sig))
  {
    hide DeleteTrade, DeleteSignal, Alike, Commit;
    SameDeleteTrade(v.db, w.db, id);
    SameCommit(v, w, DeleteTrade(v.db, id), DeleteTrade(w.db, id));
    var v1, w1 := Commit(v, DeleteTrade(v.db, id)).0, Commit(w, DeleteTrade(w.db, id)).0;
    SameDeleteSignal(v1.db, w1.db, sig);
    SameCommit(v1, w1, DeleteSignal(v1.db, sig), DeleteSignal(w1.db, sig));
  }

  lemma SameSettleBuy(v: World, w: World, id: nat, row: Trade, sig: nat)
    requires AlikeWorld(v, w)
    ensures AlikeWorld(SettleBuy(v, id, row, sig).0, SettleBuy(w, id, row, sig).0)
    ensures SettleBuy(v, id, row, sig).1 == SettleBuy(w, id, row, sig).1
  {
    hide Place, Commit, WriteStatusTx, UpdateTrade, MarkExecuted, AlikeDb;
    var (v1, answer) := Place(v, OrderFor(id, row));
    var w1 := Place(w, OrderFor(id, row)).0;
    SamePlace(v, w, OrderFor(id, row));
    match answer
    case None =>
      var cancelled := row.(status := Cancelled);
      SameStatusTx(v1.db, w1.db, id, cancelled, cancelled);
      SameCommit(v1, w1, WriteStatusTx(v1.db, id, cancelled), WriteStatusTx(w1.db, id, cancelled));
    case Some(order) => SameStored(v1, w1, id, row.(order := Some(order)), sig);
  }

  lemma SameBuyOrder(v: World, w: World, id: nat, row: Trade, sig: nat)
    requires AlikeWorld(v, w)
    ensures AlikeWorld(PlaceBuyOrder(v, id, row, sig).0, PlaceBuyOrder(w, id, row, sig).0)
    ensures PlaceBuyOrder(v, id, row, sig).1 == PlaceBuyOrder(w, id, row, sig).1
  {
    SameBuyTx(v.db, w.db, id, row);
    SameCommit(v, w, CommitBuyTx(v.db, id, row), CommitBuyTx(w.db, id, row));
    SameSettleBuy(Commit(v, CommitBuyTx(v.db, id, row)).0, Commit(w, CommitBuyTx(w.db, id, row)).0, id, row, sig);
  }

  ghost predicate AlikeStaged(a: Result<Staged>, b: Result<Staged>) {
    match (a, b)
    case (Ok(x), Ok(y)) => AlikeDb(x.db, y.db) && x.pending == y.pending && x.next == y.next
    case (Err(e), Err(f)) => e == f
    case _ => false
  }

  lemma SameStageOne(a: Staged, b: Staged, f: Fetched, g: Fetched, price: real)
    requires AlikeDb(a.db, b.db) && a.pending == b.pending && a.next == b.next
    requires f.id == g.id && Blank(f.row) == Blank(g.row)
    ensures AlikeStaged(StageOne(a, f, price), StageOne(b, g, price))
  {
    assert Triggered(f.row, price) == Triggered(g.row, price);
    var signal := SellSignal(f.row.symbol, price);
    if Triggered(f.row, price) && a.next !in a.db.signals {
      var row := SellRow(f.id, f.row, a.next, f.row.symbol, price);
      assert row == SellRow(g.id, g.row, b.next, g.row.symbol, price);
      SamePut(InsertSignal(a.db, a.next, signal).value, InsertSignal(b.db, b.next, signal).value, a.next, row, row);
    }
  }

  lemma {:induction false} SameStaging(a: Tables, b: Tables, fs: seq<Fetched>, gs: seq<Fetched>, price: real, next: nat)
    requires AlikeDb(a, b) && AlikeRows(fs, gs)
    ensures AlikeStaged(StageSells(a, fs, price, next), StageSells(b, gs, price, next))
  {
    if fs != [] {
      SameStaging(a, b, fs[..|fs| - 1], gs[..|gs| - 1], price, next);
      var x, y := StageSells(a, fs[..|fs| - 1], price, next), StageSells(b, gs[..|gs| - 1], price, next);
      if x.Ok? { SameStageOne(x.value, y.value, fs[|fs| - 1], gs[|gs| - 1], price); }
    }
  }

  lemma SameSettleOne(v: World, w: World, f: Fetched)
    requires AlikeWorld(v, w)
    ensures AlikeWorld(SettleOne(v, f), SettleOne(w, f))
  {
    hide Place, Commit, DeleteTrade, DeleteSignal, UpdateTrade, MarkExecuted, AlikeDb;
    var (v1, answer) := Place(v, OrderFor(f.id, f.row));
    var w1 := Place(w, OrderFor(f.id, f.row)).0;
    var sig := if f.row.signal.Some? then f.row.signal.value else 0;
    SamePlace(v, w, OrderFor(f.id, f.row));
    match answer
    case None => SameRemoved(v1, w1, f.id, sig);
    case Some(order) => SameStored(v1, w1, f.id, f.row.(order := Some(order)), sig);
  }

  lemma {:induction false} SameSettle(v: World, w: World, pending: seq<Fetched>)
    requires AlikeWorld(v, w)
    ensures AlikeWorld(Settle(v, pending), Settle(w, pending))
  {
    if pending != [] {
      SameSettle(v, w, pending[..|pending| - 1]);
      SameSettleOne(Settle(v, pending[..|pending| - 1]), Settle(w, pending[..|pending| - 1]), pending[|pending| - 1]);
    }
  }

  lemma SameExitPass(v: World, w: World, symbol: string, price: real, scan: seq<nat>)
    requires AlikeWorld(v, w)
    ensures AlikeWorld(ExitPass(v, symbol, price, scan).0, ExitPass(w, symbol, price, scan).0)
    ensures ExitPass(v, symbol, price, scan).1 == ExitPass(w, symbol, price, scan).1
  {
    hide Settle, StageSells, Alike;
    var fs, gs := OpenBuys(v.db.trades, symbol, scan), OpenBuys(w.db.trades, symbol, scan);
    SameOpenBuys(v.db.trades, w.db.trades, symbol, scan);
    SameStaging(v.db, w.db, fs, gs, price, v.next);
    var x, y := StageSells(v.db, fs, price, v.next), StageSells(w.db, gs, price, w.next);
    if x.Ok? {
      SameCommit(v, w, Ok(x.value.db), Ok(y.value.db));
      SameSettle(Commit(v, Ok(x.value.db)).0.(next := x.value.next), Commit(w, Ok(y.value.db)).0.(next := y.value.next), x.value.pending);
    }
  }

  lemma SameEvaluate(v: World, w: World, symbol: string, price: real, market: Market)
    requires AlikeWorld(v, w)
    ensures AlikeWorld(EvaluateBuySignal(v, symbol, price, market).0, EvaluateBuySignal(w, symbol, price, market).0)
    ensures EvaluateBuySignal(v, symbol, price, market).1 == EvaluateBuySignal(w, symbol, price, market).1
  {
    hide HasOpenPosition, LiveGate, Alike;
    SameHasOpen(v.db.trades, w.db.trades, symbol);
  }

  // The live path does not see stored peaks.
  lemma LiveIgnoresPeaks(v: World, w: World, p: Params, bar: Bar)
    requires AlikeWorld(v, w)
    ensures AlikeWorld(LiveBar(v, p, bar).0, LiveBar(w, p, bar).0) && LiveBar(v, p, bar).1 == LiveBar(w, p, bar).1
  {
    hide ExitPass, EvaluateBuySignal, ExecuteBuyTrade, AvailableBudget, Alike;
    SameExitPass(v, w, bar.symbol, bar.price, bar.scan);
    var v1, w1 := ExitPass(v, bar.symbol, bar.price, bar.scan).0, ExitPass(w, bar.symbol, bar.price, bar.scan).0;
    SameEvaluate(v1, w1, bar.symbol, bar.price, bar.live);
    var (v2, entry) := EvaluateBuySignal(v1, bar.symbol, bar.price, bar.live);
    var w2 := EvaluateBuySignal(w1, bar.symbol, bar.price, bar.live).0;
    var v3, w3 := Read(v2).0, Read(w2).0;
    var budget := AvailableBudget(v3.db.transfers, bar.transferScan);
    if entry.Ok? && entry.value.Some? && budget.Some? && budget.value in v3.db.transfers {
      SameExecuteBuy(v3, w3, p, entry.value.value.0, entry.value.value.1, budget.value, v3.db.transfers[budget.value]);
    }
  }

  lemma SameBuyAs(v: World, w: World, sized: Result<Option<Trade>>, sig: nat)
    requires AlikeWorld(v, w)
    ensures AlikeWorld(BuyAs(v, sized, sig).0, BuyAs(w, sized, sig).0) && BuyAs(v, sized, sig).1 == BuyAs(w, sized, sig).1
  {
    hide PlaceBuyOrder;
    if sized.Ok? && sized.value.Some? {
      SameBuyOrder(v.(next := v.next + 1), w.(next := w.next + 1), v.next, sized.value.value, sig);
    }
  }

  lemma SameExecuteBuy(v: World, w: World, p: Params, sig: nat, signal: Signal, budget: nat, account: Transfer)
    requires AlikeWorld(v, w)
    ensures var x, y := ExecuteBuyTrade(v, p, sig, signal, Some((budget, account))), ExecuteBuyTrade(w, p, sig, signal, Some((budget, account)));
      AlikeWorld(x.0, y.0) && x.1 == y.1
  {
    SameBuyAs(v, w, BuyRow(p, sig, signal, budget, account), sig);
  }

  lemma SameByOrder(a: Trades, b: Trades, order: nat)
    requires Alike(a, b)
    ensures ByOrder(a, order) == ByOrder(b, order)
  {
    forall id | id in a ensures a[id].order == b[id].order { assert Blank(a[id]) == Blank(b[id]); }
    assert OrderIds(a, order) == OrderIds(b, order);
  }

  lemma SameReconciled(p: Params, x: Trade, y: Trade, status: Status, fill: Fill)
    requires Blank(x) == Blank(y)
    ensures Blank(Reconciled(p, x, status, fill)) == Blank(Reconciled(p, y, status, fill)) && x.status == y.status
  {}

  lemma SameUpdateRow(v: World, w: World, p: Params, id: nat, x: Trade, y: Trade, status: Status, fill: Fill)
    requires AlikeWorld(v, w) && Blank(x) == Blank(y)
    ensures AlikeWorld(UpdateRow(v, p, id, x, status, fill).0, UpdateRow(w, p, id, y, status, fill).0)
    ensures UpdateRow(v, p, id, x, status, fill).1 == UpdateRow(w, p, id, y, status, fill).1
  {
    var x', y' := Reconciled(p, x, status, fill), Reconciled(p, y, status, fill);
    SameReconciled(p, x, y, status, fill);
    SameStatusTx(v.db, w.db, id, x', y');
    SameCommit(v, w, WriteStatusTx(v.db, id, x'), WriteStatusTx(w.db, id, y'));
  }

  lemma AlikeRow(a: Trades, b: Trades, id: nat)
    requires Alike(a, b) && id in a
    ensures id in b && Blank(a[id]) == Blank(b[id])
  {}

  lemma SameUpdate(v: World, w: World, p: Params, order: nat, status: Status, fill: Fill)
    requires AlikeWorld(v, w)
    ensures AlikeWorld(ApplyTradeUpdates(v, p, order, status, fill).0, ApplyTradeUpdates(w, p, order, status, fill).0)
    ensures ApplyTradeUpdates(v, p, order, status, fill).1 == ApplyTradeUpdates(w, p, order, status, fill).1
  {
    hide UpdateRow, Alike;
    SameByOrder(v.db.trades, w.db.trades, order);
    var found := ByOrder(v.db.trades, order);
    if found.Some? {
      AlikeRow(v.db.trades, w.db.trades, found.value);
      SameUpdateRow(v.(faults := Tail(v.faults)), w.(faults := Tail(w.faults)), p, found.value,
                    v.db.trades[found.value], w.db.trades[found.value], status, fill);
    }
  }

  // ---- the shadow pass ----

  lemma ObserveOneBlank(db: Tables, o: Observed, f: Fetched, price: real, tiers: Tiers)
    requires AlikeDb(db, o.db) && f.id in db.trades && f.row == db.trades[f.id] && ObserveOne(o, f, price, tiers).Ok?
    ensures AlikeDb(db, ObserveOne(o, f, price, tiers).value.db)
  {
    assert Blank(o.db.trades[f.id]) == Blank(RaisePeak(f.row, price));
  }

  lemma {:induction false} ObserveBlank(db: Tables, decisions: seq<Decision>, fetched: seq<Fetched>, price: real, tiers: Tiers)
    requires forall f :: f in fetched ==> f.id in db.trades && f.row == db.trades[f.id]
    requires Observe(db, decisions, fetched, price, tiers).Ok?
    ensures AlikeDb(db, Observe(db, decisions, fetched, price, tiers).value.db)
  {
    if fetched != [] {
      var front := fetched[..|fetched| - 1];
      ObserveBlank(db, decisions, front, price, tiers);
      ObserveOneBlank(db, Observe(db, decisions, front, price, tiers).value, fetched[|fetched| - 1], price, tiers);
    }
  }

  // Whatever the shadow pass does to the tables, only stored peaks move.
  lemma ShadowOnlyMovesPeaks(db: Tables, log: Log, bar: Bar, tiers: Tiers)
    ensures AlikeDb(db, ShadowExits(db, log, bar, tiers).0)
  {
    var fetched := OpenBuys(db.trades, bar.symbol, bar.scan);
    forall f | f in fetched ensures f.id in db.trades && f.row == db.trades[f.id] {
      OpenBuysAre(db.trades, bar.symbol, bar.scan, f);
    }
    if Observe(db, log.decisions, fetched, bar.price, tiers).Ok? {
      ObserveBlank(db, log.decisions, fetched, bar.price, tiers);
    }
  }

  // ---- erasure over any history ----

  // What the process handles, one at a time.
  datatype Input = BarIn(bar: Bar) | UpdateIn(order: nat, event: string, fill: Fill)

  ghost function OnUpdate(w: World, p: Params, order: nat, event: string, fill: Fill): (World, Result<()>) {
    match Mapper.StatusOf(event)
    case None => (w, Ok(()))
    case Some(status) => ApplyTradeUpdates(w, p, order, status, fill)
  }

  datatype Outcome = Outcome(world: World, log: Log, results: seq<Result<()>>)

  // The live coordinator alone.
  ghost function LiveHistory(w: World, p: Params, inputs: seq<Input>): Outcome {
    if inputs == [] then Outcome(w, Log([], [], []), []) else
    var o := LiveHistory(w, p, inputs[..|inputs| - 1]);
    match inputs[|inputs| - 1]
    case BarIn(bar) => var (w', r) := LiveBar(o.world, p, bar); Outcome(w', o.log, o.results + [r])
    case UpdateIn(order, event, fill) => var (w', r) := OnUpdate(o.world, p, order, event, fill); Outcome(w', o.log, o.results + [r])
  }

  // The full coordinator.
  ghost function FullHistory(w: World, log: Log, p: Params, tiers: Tiers, inputs: seq<Input>): Outcome {
    if inputs == [] then Outcome(w, log, []) else
    Step(FullHistory(w, log, p, tiers, inputs[..|inputs| - 1]), p, tiers, inputs[|inputs| - 1])
  }

  ghost function Step(o: Outcome, p: Params, tiers: Tiers, input: Input): Outcome {
    match input
    case BarIn(bar) => var (w', log', r) := FullBar(o.world, o.log, p, tiers, bar); Outcome(w', log', o.results + [r])
    case UpdateIn(order, event, fill) => var (w', r) := OnUpdate(o.world, p, order, event, fill); Outcome(w', o.log, o.results + [r])
  }

  lemma AlikeTrans(a: Tables, b: Tables, c: Tables)
    requires AlikeDb(a, b) && AlikeDb(c, b)
    ensures AlikeDb(a, c)
  {
    forall id | id in a.trades ensures Blank(a.trades[id]) == Blank(c.trades[id]) {
      assert Blank(a.trades[id]) == Blank(b.trades[id]) && Blank(c.trades[id]) == Blank(b.trades[id]);
    }
  }

  lemma FullBarErases(v: World, w: World, log: Log, p: Params, tiers: Tiers, bar: Bar)
    requires AlikeWorld(v, w)
    ensures var x, y := FullBar(v, log, p, tiers, bar), LiveBar(w, p, bar); AlikeWorld(x.0, y.0) && x.2 == y.1
  {
    ShadowOnlyMovesPeaks(v.db, log, bar, tiers);
    var db := ShadowExits(v.db, log, bar, tiers).0;
    AlikeTrans(w.db, v.db, db);
    LiveIgnoresPeaks(v.(db := db), w, p, bar);
  }

  // For any list of bars and broker updates, the full coordinator and the live coordinator alone
  // place the same orders and leave the same trades, signals, slots and results, up to stored peaks.
  lemma {:induction false} ShadowErasure(w: World, log: Log, p: Params, tiers: Tiers, inputs: seq<Input>)
    ensures var x, y := FullHistory(w, log, p, tiers, inputs), LiveHistory(w, p, inputs);
      AlikeWorld(x.world, y.world) && x.results == y.results
  {
    if inputs != [] {
      var front := inputs[..|inputs| - 1];
      ShadowErasure(w, log, p, tiers, front);
      var x, y := FullHistory(w, log, p, tiers, front), LiveHistory(w, p, front);
      match inputs[|inputs| - 1]
      case BarIn(bar) => FullBarErases(x.world, y.world, x.log, p, tiers, bar);
      case UpdateIn(order, event, fill) =>
        if Mapper.StatusOf(event).Some? { SameUpdate(x.world, y.world, p, order, Mapper.StatusOf(event).value, fill); }
    }
  }
}
