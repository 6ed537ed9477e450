/** The shadow path over whole histories of bars and broker updates: the peak each trade ends up with,
    and the meaning of every decision in the log. */
module ShadowHistories {
  import opened Model
  import opened Database
  import opened Adaptive
  import opened Calls
  import opened Ledger
  import opened LedgerCore
  import opened Signals
  import opened Shadow
  import opened Erasure
  import opened ExitPasses
  import opened PeakTracking
  import Mapper

  // ---- the live path writes only rows it inserts ----

  ghost predicate Extends(a: Trades, b: Trades) {
    forall id :: id in a ==> id in b && b[id] == a[id]
  }

  // Every row of `a` but row `own` is in `b`.
  ghost predicate KeepsBut(a: Trades, b: Trades, own: nat) {
    forall id :: id in a && id != own ==> id in b && b[id] == a[id]
  }

  // A transaction or statement that writes no row but `own`.
  ghost predicate TxKeeps(db: Tables, r: Result<Tables>, own: nat) {
    r.Ok? ==> KeepsBut(db.trades, r.value.trades, own)
  }

  lemma CommitKeeps(w: World, r: Result<Tables>, own: nat)
    requires TxKeeps(w.db, r, own)
    ensures KeepsBut(w.db.trades, Commit(w, r).0.db.trades, own)
  {}

  lemma WritesKeep(db: Tables, id: nat, row: Trade, sig: nat)
    ensures TxKeeps(db, UpdateTrade(db, id, row), id) && TxKeeps(db, DeleteTrade(db, id), id)
    ensures TxKeeps(db, DeleteSignal(db, sig), id) && TxKeeps(db, Ok(MarkExecuted(db, sig)), id)
  {
    hide Clashes, KeysOk;
  }

  lemma StatusKeeps(db: Tables, id: nat, row: Trade)
    ensures TxKeeps(db, WriteStatusTx(db, id, row), id)
  {
    hide Clashes, KeysOk;
  }

  lemma KeepsTrans(a: Trades, b: Trades, c: Trades, own: nat)
    requires KeepsBut(a, b, own) && KeepsBut(b, c, own)
    ensures KeepsBut(a, c, own)
  {}

  lemma StoredKeeps(w: World, id: nat, row: Trade, sig: nat)
    ensures KeepsBut(w.db.trades, Stored(w, id, row, sig).db.trades, id)
  {
    hide KeepsBut, Commit, UpdateTrade, MarkExecuted;
    var w1 := Commit(w, UpdateTrade(w.db, id, row)).0;
    WritesKeep(w.db, id, row, sig);
    WritesKeep(w1.db, id, row, sig);
    CommitKeeps(w, UpdateTrade(w.db, id, row), id);
    CommitKeeps(w1, Ok(MarkExecuted(w1.db, sig)), id);
    KeepsTrans(w.db.trades, w1.db.trades, Stored(w, id, row, sig).db.trades, id);
  }

  lemma RemovedKeeps(w: World, id: nat, row: Trade, sig: nat)
    ensures KeepsBut(w.db.trades, Removed(w, id, sig).db.trades, id)
  {
    hide KeepsBut, Commit, DeleteTrade, DeleteSignal;
    var w1 := Commit(w, DeleteTrade(w.db, id)).0;
    WritesKeep(w.db, id, row, sig);
    WritesKeep(w1.db, id, row, sig);
    CommitKeeps(w, DeleteTrade(w.db, id), id);
    CommitKeeps(w1, DeleteSignal(w1.db, sig), id);
    KeepsTrans(w.db.trades, w1.db.trades, Removed(w, id, sig).db.trades, id);
  }

  lemma SettleOneKeeps(w: World, f: Fetched)
    ensures KeepsBut(w.db.trades, SettleOne(w, f).db.trades, f.id)
  {
    hide KeepsBut, Commit, DeleteTrade, DeleteSignal, UpdateTrade, MarkExecuted;
    var (w1, answer) := Place(w, OrderFor(f.id, f.row));
    var sig := if f.row.signal.Some? then f.row.signal.value else 0;
    match answer
    case None => RemovedKeeps(w1, f.id, f.row, sig);
    case Some(order) => StoredKeeps(w1, f.id, f.row.(order := Some(order)), sig);
  }

  lemma {:induction false} SettleKeeps(base: Trades, w: World, pending: seq<Fetched>)
    requires Extends(base, w.db.trades) && forall k :: 0 <= k < |pending| ==> pending[k].id !in base
    ensures Extends(base, Settle(w, pending).db.trades)
  {
    hide SettleOne;
    if pending != [] {
      var front, last := pending[..|pending| - 1], pending[|pending| - 1];
      SettleKeeps(base, w, front);
      SettleOneKeeps(Settle(w, front), last);
    }
  }

  lemma {:induction false} StageKeeps(db: Tables, fetched: seq<Fetched>, price: real, next: nat)
    requires StageSells(db, fetched, price, next).Ok?
    ensures var st := StageSells(db, fetched, price, next).value;
      Extends(db.trades, st.db.trades) && forall k :: 0 <= k < |st.pending| ==> st.pending[k].id !in db.trades
  {
    hide Clashes, KeysOk, Triggered;
    if fetched != [] { StageKeeps(db, fetched[..|fetched| - 1], price, next); }
  }

  lemma ExitPassKeeps(w: World, symbol: string, price: real, scan: seq<nat>)
    ensures Extends(w.db.trades, ExitPass(w, symbol, price, scan).0.db.trades)
  {
    hide StageSells, OpenBuys, Settle;
    var r := StageSells(w.db, OpenBuys(w.db.trades, symbol, scan), price, w.next);
    if r.Ok? {
      StageKeeps(w.db, OpenBuys(w.db.trades, symbol, scan), price, w.next);
      if !Head(w.faults) { SettleKeeps(w.db.trades, Commit(w, Ok(r.value.db)).0.(next := r.value.next), r.value.pending); }
    }
  }

  lemma SettleBuyKeeps(w: World, id: nat, row: Trade, sig: nat)
    ensures KeepsBut(w.db.trades, SettleBuy(w, id, row, sig).0.db.trades, id)
  {
    hide KeepsBut, Commit, WriteStatusTx, UpdateTrade, MarkExecuted;
    var (w1, answer) := Place(w, OrderFor(id, row));
    match answer
    case None =>
      StatusKeeps(w1.db, id, row.(status := Cancelled));
      CommitKeeps(w1, WriteStatusTx(w1.db, id, row.(status := Cancelled)), id);
    case Some(order) => StoredKeeps(w1, id, row.(order := Some(order)), sig);
  }

  lemma BuyKeeps(w: World, p: Params, sig: nat, signal: Signal, budget: nat, account: Transfer)
    ensures Extends(w.db.trades, ExecuteBuyTrade(w, p, sig, signal, Some((budget, account))).0.db.trades)
  {
    hide BuyRow, HasOpenPosition, Clashes, KeysOk, SettleBuy;
    var sized := BuyRow(p, sig, signal, budget, account);
    if sized.Ok? && sized.value.Some? && CommitBuyTx(w.db, w.next, sized.value.value).Ok? {
      var row, w1 := sized.value.value, w.(next := w.next + 1);
      SettleBuyKeeps(Commit(w1, CommitBuyTx(w.db, w.next, row)).0, w.next, row, sig);
    }
  }

  lemma EvaluationKeeps(w: World, symbol: string, price: real, market: Market)
    ensures EvaluateBuySignal(w, symbol, price, market).0.db.trades == w.db.trades
  {
    hide HasOpenPosition, LiveGate;
  }

  // A live bar leaves every row that was there as it was.
  lemma LiveBarKeeps(w: World, p: Params, bar: Bar)
    ensures Extends(w.db.trades, LiveBar(w, p, bar).0.db.trades)
  {
    hide ExitPass, EvaluateBuySignal, ExecuteBuyTrade, AvailableBudget;
    ExitPassKeeps(w, bar.symbol, bar.price, bar.scan);
    var w1 := ExitPass(w, bar.symbol, bar.price, bar.scan).0;
    EvaluationKeeps(w1, bar.symbol, bar.price, bar.live);
    var (w2, entry) := EvaluateBuySignal(w1, bar.symbol, bar.price, bar.live);
    var w3 := Read(w2).0;
    var budget := AvailableBudget(w3.db.transfers, bar.transferScan);
    if entry.Ok? && entry.value.Some? && budget.Some? && budget.value in w3.db.transfers {
      BuyKeeps(w3, p, entry.value.value.0, entry.value.value.1, budget.value, w3.db.transfers[budget.value]);
    }
  }

  // ---- the shadow pass writes only peaks ----

  ghost predicate Copies(trades: Trades, fetched: seq<Fetched>) {
    forall k :: 0 <= k < |fetched| ==> fetched[k].id in trades && fetched[k].row == trades[fetched[k].id]
  }

  lemma {:induction false} QueryCopies(trades: Trades, symbol: string, scan: seq<nat>)
    ensures Copies(trades, OpenBuys(trades, symbol, scan))
  {
    var fetched := OpenBuys(trades, symbol, scan);
    forall k | 0 <= k < |fetched| ensures fetched[k].id in trades && fetched[k].row == trades[fetched[k].id] {
      OpenBuysAre(trades, symbol, scan, fetched[k]);
    }
  }

  lemma RaiseOneMore(trades: Trades, ids: set<nat>, id: nat, price: real)
    requires id in trades
    ensures RaisePeaks(trades, ids, price)[id := RaisePeak(trades[id], price)] == RaisePeaks(trades, ids + {id}, price)
  {}

  // A pass that does not fail raises exactly the peaks of the rows it read.
  lemma {:induction false} ObserveExactly(db: Tables, decisions: seq<Decision>, fetched: seq<Fetched>, price: real, tiers: Tiers)
    requires Copies(db.trades, fetched) && Observe(db, decisions, fetched, price, tiers).Ok?
    ensures Observe(db, decisions, fetched, price, tiers).value.db.trades == RaisePeaks(db.trades, Ids(fetched), price)
  {
    hide DecisionFor, RaisePeak, Clashes, KeysOk;
    if fetched == [] {
      assert RaisePeaks(db.trades, {}, price) == db.trades;
    } else {
      var front, f := fetched[..|fetched| - 1], fetched[|fetched| - 1];
      ObserveExactly(db, decisions, front, price, tiers);
      assert fetched == front + [f];
      assert Ids(fetched) == Ids(front) + {f.id};
      RaiseOneMore(db.trades, Ids(front), f.id, price);
    }
  }

  // The bar's shadow transaction commits and has read row `id`.
  ghost predicate Reads(v: World, log: Log, bar: Bar, tiers: Tiers, id: nat) {
    && id in bar.scan && OpenBuy(v.db.trades, id, bar.symbol) && !Head(log.faults)
    && Observe(v.db, log.decisions, OpenBuys(v.db.trades, bar.symbol, bar.scan), bar.price, tiers).Ok?
  }

  lemma {:induction false} ReadIds(trades: Trades, symbol: string, scan: seq<nat>, id: nat)
    ensures id in Ids(OpenBuys(trades, symbol, scan)) <==> id in scan && OpenBuy(trades, id, symbol)
  {
    var fetched := OpenBuys(trades, symbol, scan);
    if id in Ids(fetched) {
      var f :| f in fetched && f.id == id;
      OpenBuysAre(trades, symbol, scan, f);
    }
    if id in scan && OpenBuy(trades, id, symbol) {
      QueryComplete(trades, symbol, scan, id);
      assert Fetched(id, trades[id]) in fetched;
    }
  }

  lemma ShadowRow(v: World, log: Log, bar: Bar, tiers: Tiers, id: nat)
    requires id in v.db.trades
    ensures var trades := ShadowExits(v.db, log, bar, tiers).0.trades;
      id in trades && trades[id] == if Reads(v, log, bar, tiers, id) then RaisePeak(v.db.trades[id], bar.price) else v.db.trades[id]
  {
    hide OpenBuy, RaisePeak;
    var fetched := OpenBuys(v.db.trades, bar.symbol, bar.scan);
    QueryCopies(v.db.trades, bar.symbol, bar.scan);
    ReadIds(v.db.trades, bar.symbol, bar.scan, id);
    if Observe(v.db, log.decisions, fetched, bar.price, tiers).Ok? {
      ObserveExactly(v.db, log.decisions, fetched, bar.price, tiers);
    }
  }

  // ---- a broker update keeps the row's terms and its peak ----

  lemma StatusRow(db: Tables, id: nat, row: Trade, p: Params, status: Status, fill: Fill)
    requires id in db.trades && row == db.trades[id]
    ensures var r := WriteStatusTx(db, id, Reconciled(p, row, status, fill));
      r.Ok? ==> id in r.value.trades && SameIdentity(row, r.value.trades[id]) && r.value.trades[id].peak == row.peak
  {
    hide Clashes, KeysOk, Notional, Fee;
  }

  lemma UpdateKeeps(v: World, p: Params, order: nat, event: string, fill: Fill, id: nat)
    requires id in v.db.trades
    ensures var trades := OnUpdate(v, p, order, event, fill).0.db.trades;
      id in trades && SameIdentity(v.db.trades[id], trades[id]) && trades[id].peak == v.db.trades[id].peak
  {
    hide WriteStatusTx, Reconciled, SameIdentity;
    IdentityReflexive(v.db.trades[id]);
    var status, found := Mapper.StatusOf(event), ByOrder(v.db.trades, order);
    if status.Some? && found.Some? {
      var row := v.db.trades[found.value];
      StatusKeeps(v.db, found.value, Reconciled(p, row, status.value, fill));
      StatusRow(v.db, found.value, row, p, status.value, fill);
    }
  }

  lemma IdentityReflexive(row: Trade)
    ensures SameIdentity(row, row)
  {}

  // ---- peaks ----

  // The row after one more input, handled after the history `o`.
  lemma StepRow(o: Outcome, p: Params, tiers: Tiers, input: Input, id: nat)
    requires id in o.world.db.trades
    ensures var trades, row := Step(o, p, tiers, input).world.db.trades, o.world.db.trades[id];
      && id in trades && SameIdentity(row, trades[id])
      && trades[id].peak ==
           if input.BarIn? && Reads(o.world, o.log, input.bar, tiers, id) then RaisePeak(row, input.bar.price).peak else row.peak
  {
    hide ShadowExits, LiveBar, OnUpdate, Reads;
    match input
    case BarIn(bar) =>
      ShadowRow(o.world, o.log, bar, tiers, id);
      LiveBarKeeps(o.world.(db := ShadowExits(o.world.db, o.log, bar, tiers).0), p, bar);
    case UpdateIn(order, event, fill) =>
      UpdateKeeps(o.world, p, order, event, fill, id);
  }

  // The prices of the bars whose shadow pass read row `id` and committed.
  ghost function ReadPrices(v: World, log: Log, p: Params, tiers: Tiers, inputs: seq<Input>, id: nat): seq<real> {
    if inputs == [] then [] else
    var front, last := inputs[..|inputs| - 1], inputs[|inputs| - 1];
    var before, o := ReadPrices(v, log, p, tiers, front, id), FullHistory(v, log, p, tiers, front);
    if last.BarIn? && Reads(o.world, o.log, last.bar, tiers, id) then before + [last.bar.price] else before
  }

  // A row as the service inserts a buy with a non-zero ATR.
  predicate Followed(row: Trade) {
    row.peak.Some? && row.price.Some? && row.stopLoss.Some? && row.entryATR.Some? && row.entryATR.value != 0.0
  }

  // Over any history of bars and broker updates handled one at a time, a buy's stored peak is the
  // maximum of the peak it had and the prices of the bars that read it.
  lemma {:induction false} PeakIsMax(v: World, log: Log, p: Params, tiers: Tiers, inputs: seq<Input>, id: nat)
    requires id in v.db.trades && Followed(v.db.trades[id])
    ensures var trades := FullHistory(v, log, p, tiers, inputs).world.db.trades;
      && id in trades && SameIdentity(v.db.trades[id], trades[id])
      && trades[id].peak == Some(MaxOf(v.db.trades[id].peak.value, ReadPrices(v, log, p, tiers, inputs, id)))
  {
    hide Step, Reads;
    if inputs != [] {
      var front, last := inputs[..|inputs| - 1], inputs[|inputs| - 1];
      PeakIsMax(v, log, p, tiers, front, id);
      StepRow(FullHistory(v, log, p, tiers, front), p, tiers, last, id);
    }
  }

  // ---- decisions ----

  // What a logged decision says about its trade's static levels: on the adaptive path the relation of
  // price, static and adaptive stop; on the legacy path the level that was reached.
  predicate Explained(d: Decision, row: Trade) {
    if row.entryATR.Some? && row.entryATR.value != 0.0 then row.stopLoss.Some? && Justified(d, row.stopLoss.value)
    else
      || (d.kind.ExitStop? && row.stopLoss.Some? && d.price <= row.stopLoss.value)
      || (d.kind.ExitTakeProfit? && row.takeProfit.Some? && d.price >= row.takeProfit.value
          && (row.stopLoss.Some? ==> d.price > row.stopLoss.value))
  }

  ghost predicate AllExplained(ds: seq<Decision>, from: nat, trades: Trades) {
    forall k :: from <= k < |ds| ==> ds[k].trade in trades && Explained(ds[k], trades[ds[k].trade])
  }

  lemma DecisionExplained(id: nat, row: Trade, price: real, tiers: Tiers)
    requires DecisionFor(id, row, price, tiers).Some?
    ensures DecisionFor(id, row, price, tiers).value.trade == id && Explained(DecisionFor(id, row, price, tiers).value, row)
  {
    hide EffectiveStop;
    if row.entryATR.Some? && row.entryATR.value != 0.0 { AdaptiveJustified(id, row, price, tiers); }
  }

  lemma {:induction false} ObserveLogs(db: Tables, decisions: seq<Decision>, fetched: seq<Fetched>, price: real, tiers: Tiers)
    requires Copies(db.trades, fetched) && Observe(db, decisions, fetched, price, tiers).Ok?
    ensures var ds := Observe(db, decisions, fetched, price, tiers).value.decisions;
      decisions <= ds && AllExplained(ds, |decisions|, db.trades)
  {
    hide DecisionFor, Explained, UpdateTrade;
    if fetched != [] {
      var front, f := fetched[..|fetched| - 1], fetched[|fetched| - 1];
      ObserveLogs(db, decisions, front, price, tiers);
      if DecisionFor(f.id, f.row, price, tiers).Some? { DecisionExplained(f.id, f.row, price, tiers); }
    }
  }

  lemma BarLogs(v: World, log: Log, p: Params, tiers: Tiers, bar: Bar)
    ensures var ds := FullBar(v, log, p, tiers, bar).1.decisions;
      log.decisions <= ds && AllExplained(ds, |log.decisions|, v.db.trades)
  {
    hide LiveBar, PreviewBuySignal, Observe, OpenBuys, Explained;
    var fetched := OpenBuys(v.db.trades, bar.symbol, bar.scan);
    QueryCopies(v.db.trades, bar.symbol, bar.scan);
    if Observe(v.db, log.decisions, fetched, bar.price, tiers).Ok? {
      ObserveLogs(v.db, log.decisions, fetched, bar.price, tiers);
    }
  }

  // A decision stays explained as its trade's row moves on.
  lemma StepExplains(o: Outcome, p: Params, tiers: Tiers, input: Input, from: nat)
    requires from <= |o.log.decisions| && AllExplained(o.log.decisions, from, o.world.db.trades)
    ensures o.log.decisions <= Step(o, p, tiers, input).log.decisions
    ensures AllExplained(Step(o, p, tiers, input).log.decisions, from, Step(o, p, tiers, input).world.db.trades)
  {
    hide FullBar, OnUpdate, Justified;
    var o' := Step(o, p, tiers, input);
    if input.BarIn? { BarLogs(o.world, o.log, p, tiers, input.bar); }
    forall k | from <= k < |o'.log.decisions|
      ensures o'.log.decisions[k].trade in o'.world.db.trades
      ensures Explained(o'.log.decisions[k], o'.world.db.trades[o'.log.decisions[k].trade])
    {
      var d := o'.log.decisions[k];
      assert k < |o.log.decisions| ==> d == o.log.decisions[k];
      StepRow(o, p, tiers, input, d.trade);
    }
  }

  // Over any history, every decision appended to the log belongs to a trade that is still there and is
  // explained by that trade's static levels.
  lemma {:induction false} LoggedJustified(v: World, log: Log, p: Params, tiers: Tiers, inputs: seq<Input>)
    ensures var o := FullHistory(v, log, p, tiers, inputs);
      log.decisions <= o.log.decisions && AllExplained(o.log.decisions, |log.decisions|, o.world.db.trades)
  {
    hide Step, Explained;
    if inputs != [] {
      var front, last := inputs[..|inputs| - 1], inputs[|inputs| - 1];
      LoggedJustified(v, log, p, tiers, front);
      StepExplains(FullHistory(v, log, p, tiers, front), p, tiers, last, |log.decisions|);
    }
  }
}
