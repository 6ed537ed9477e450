/** What one action does to the tables: each of the machine's actions is one of a few
    kinds of change. The run properties are proved once per kind. */
module LedgerEffects {
  import opened Model
  import opened Database
  import opened Sizing
  import opened Adaptive
  import opened Ledger
  import opened LedgerCore
  import opened LedgerNext
  import opened LedgerSteps

  datatype Change =
    | Same
    | Funded(t: nat, transfer: Transfer)
    | Bought(id: nat, row: Trade)
    | Sold(rows: Trades)
    | Rewritten(id: nat, row: Trade)
    | Deleted(id: nat)
    | PeaksMoved

  ghost predicate Effect(s: State, s': State, c: Change) {
    var db, db' := s.db, s'.db;
    && s'.params == s.params
    && (!c.Funded? ==> s'.initial == s.initial)
    && (!c.Deleted? ==> s'.undone == s.undone)
    && match c
       case Same => db'.trades == db.trades && db'.transfers == db.transfers
       case Funded(t, transfer) =>
         && t !in db.transfers && db'.trades == db.trades
         && db'.transfers == db.transfers[t := transfer] && s'.initial == s.initial[t := transfer.remaining]
       case Bought(id, row) =>
         && id !in db.trades && db'.trades == db.trades[id := row]
         && !HasOpenPosition(db.trades, row.symbol) && Entry(row)
         && DecrementRemaining(db, row.transfer.value).Ok?
         && db'.transfers == DecrementRemaining(db, row.transfer.value).value.transfers
       case Sold(rows) =>
         && rows.Keys !! db.trades.Keys && db'.trades == db.trades + rows && db'.transfers == db.transfers
         && (forall id :: id in rows ==> SellsParent(db.trades, rows[id]))
       case Rewritten(id, row) =>
         && id in db.trades && !db.trades[id].status.Terminal() && SameIdentity(db.trades[id], row)
         && db'.trades == db.trades[id := row] && row.transfer.Some? && row.transfer.value in db.transfers
         && db'.transfers ==
              if row.status.Refunds() && row.side.Buy? then IncrementRemaining(db, row.transfer.value).value.transfers
              else db.transfers
       case Deleted(id) =>
         && id in db.trades && db.trades[id].side.Sell? && !db.trades[id].status.Terminal()
         && db'.trades == db.trades - {id} && db'.transfers == db.transfers
         && db.trades[id].parent.Some? && db.trades[id].parent.value in db.trades
         && s'.undone == s.undone + multiset{db.trades[db.trades[id].parent.value].symbol}
       case PeaksMoved =>
         && db'.trades.Keys == db.trades.Keys && db'.transfers == db.transfers
         && (forall id :: id in db.trades ==> db'.trades[id] == db.trades[id].(peak := db'.trades[id].peak))
  }

  // A sell of its parent's whole quantity, from the parent's transfer.
  ghost predicate SellsParent(trades: Trades, row: Trade) {
    && row.side.Sell? && row.parent.Some? && row.parent.value in trades
    && row.quantity == trades[row.parent.value].quantity && row.transfer == trades[row.parent.value].transfer
  }

  // A freshly committed buy row.
  ghost predicate Entry(row: Trade) {
    row.side.Buy? && row.status.Pending? && row.transfer.Some? && row.parent.None? && row.order.None?
  }

  // The kind of change an action makes from a state.
  ghost function ChangeOf(s: State, a: Action): Change {
    match a
    case AddTransfer(t, transfer) => if t in s.db.transfers then Same else Funded(t, transfer)
    case TrackPeaks(_, _, _) => PeaksMoved
    case WriteEvent(ok) => EventChange(s, ok)
    case CommitBuy(w, id) => if w < |s.pcs| then CommitBuyChange(s, w, id) else Same
    case PersistBuy(w, ok) =>
      if w < |s.pcs| && ok && s.pcs[w].BuyPersisting? then Rewritten(s.pcs[w].id, s.pcs[w].row) else Same
    case CancelBuy(w, ok) =>
      if w < |s.pcs| && ok && s.pcs[w].BuyCancelling? then Rewritten(s.pcs[w].id, s.pcs[w].row) else Same
    case CommitExits(w, symbol, price, scan, next) =>
      if w < |s.pcs| && s.pcs[w].Idle? then CommitExitsChange(s, symbol, price, scan, next) else Same
    case CommitSell(w, parent, sig, id) =>
      if w < |s.pcs| && s.pcs[w].Idle? then CommitSellChange(s, parent, sig, id) else Same
    case PersistSell(w, ok) =>
      if w < |s.pcs| && ok && s.pcs[w].SellPersisting? then Rewritten(s.pcs[w].id, s.pcs[w].row) else Same
    case UndoTrade(w, ok) =>
      if w < |s.pcs| && ok && s.pcs[w].SellUndoTrade? && DeleteTrade(s.db, s.pcs[w].id).Ok? then Deleted(s.pcs[w].id) else Same
    case _ => Same
  }

  ghost function EventChange(s: State, ok: bool): Change {
    if s.consumer.Writing? && ok then
      Rewritten(s.consumer.id, Reconciled(s.params, s.consumer.row, s.consumer.status, s.consumer.fill))
    else Same
  }

  ghost function CommitBuyChange(s: State, w: nat, id: nat): Change
    requires w < |s.pcs|
  {
    match s.pcs[w]
    case Budgeted(sig, signal, budget, account) =>
      var r := BuyRow(s.params, sig, signal, budget, account);
      if r.Ok? && r.value.Some? && CommitBuyTx(s.db, id, r.value.value).Ok? then Bought(id, r.value.value) else Same
    case _ => Same
  }

  ghost function CommitExitsChange(s: State, symbol: string, price: real, scan: seq<nat>, next: nat): Change {
    var r := StageSells(s.db, OpenBuys(s.db.trades, symbol, scan), price, next);
    if r.Ok? then Sold(RowsOf(r.value.pending)) else Same
  }

  ghost function CommitSellChange(s: State, parent: nat, sig: nat, id: nat): Change {
    if parent !in s.db.trades || sig !in s.db.signals then Same else
    var row := SellRow(parent, s.db.trades[parent], sig, s.db.signals[sig].symbol, s.db.signals[sig].price);
    if InsertTrade(s.db, id, row).Ok? then Sold(map[id := row]) else Same
  }

  lemma CommitBuyEffect(s: State, w: nat, id: nat)
    ensures Effect(s, Next(s, CommitBuy(w, id)), ChangeOf(s, CommitBuy(w, id)))
  {
    hide Next, BuyRow, InsertTrade;
    if w < |s.pcs| && s.pcs[w].Budgeted? {
      var pc := s.pcs[w];
      if CommitBuyChange(s, w, id).Bought? {
        var row := CommitBuyChange(s, w, id).row;
        CommitBuyStep(s, w, id, row);
        InsertOk(s.db, id, row);
        BoughtEntry(s.params, pc.sig, pc.signal, pc.budget, pc.account);
      } else {
        NoBuyStep(s, w, id);
      }
    } else {
      NotEnabled(s, CommitBuy(w, id));
    }
  }

  lemma BoughtEntry(p: Params, sig: nat, signal: Signal, budget: nat, account: Transfer)
    ensures var r := BuyRow(p, sig, signal, budget, account); r.Ok? && r.value.Some? ==> Entry(r.value.value)
  {}

  lemma PersistBuyEffect(s: State, w: nat, ok: bool)
    requires Core(s)
    ensures Effect(s, Next(s, PersistBuy(w, ok)), ChangeOf(s, PersistBuy(w, ok)))
  {
    hide Core, Next, UpdateTrade, SameIdentity;
    if w < |s.pcs| && s.pcs[w].BuyPersisting? {
      var BuyPersisting(id, row) := s.pcs[w];
      PersistBuyStep(s, w, id, row, ok);
      PcAt(s, w);
      StoredRow(s, id, row);
    } else {
      NotEnabled(s, PersistBuy(w, ok));
    }
  }

  // What a worker about to store an order ID does to the tables.
  lemma StoredRow(s: State, id: nat, row: Trade)
    requires Core(s) && Placed(s.db.trades, s.log, id, row)
    ensures UpdateTrade(s.db, id, row) == Ok(s.db.(trades := s.db.trades[id := row]))
    ensures !s.db.trades[id].status.Terminal() && !row.status.Refunds() && SameIdentity(s.db.trades[id], row)
    ensures row.transfer.Some? && row.transfer.value in s.db.transfers
  {
    hide OneSell, OrdersLogged, LogOk, PcsOk, OneOwner, ConsumerOk, Honest, UpdateTrade;
    PlacedFresh(s, id, row);
    assert RefsOk(s.db, s.db.trades[id]);
  }

  lemma CancelBuyEffect(s: State, w: nat, ok: bool)
    requires Core(s)
    ensures Effect(s, Next(s, CancelBuy(w, ok)), ChangeOf(s, CancelBuy(w, ok)))
  {
    hide Core, Next, WriteStatusTx, IncrementRemaining;
    if w < |s.pcs| && s.pcs[w].BuyCancelling? {
      var BuyCancelling(id, row) := s.pcs[w];
      CancelStep(s, w, id, row, ok);
      PcAt(s, w);
      WriteStatusOk(s, id, row);
      RowRefs(s, id);
    } else {
      NotEnabled(s, CancelBuy(w, ok));
    }
  }

  lemma RowRefs(s: State, id: nat)
    requires Core(s) && id in s.db.trades
    ensures RefsOk(s.db, s.db.trades[id])
  {
    hide RefsOk, OneSell, OrdersLogged, LogOk, PcsOk, OneOwner, ConsumerOk, Honest;
  }

  lemma {:induction false} StagedRows(db: Tables, fetched: seq<Fetched>, price: real, next: nat, id: nat)
    requires StageSells(db, fetched, price, next).Ok?
    requires forall f :: f in fetched ==> f.id in db.trades && f.row == db.trades[f.id]
    requires id in RowsOf(StageSells(db, fetched, price, next).value.pending)
    ensures SellsParent(db.trades, RowsOf(StageSells(db, fetched, price, next).value.pending)[id])
  {
    hide InsertTrade, InsertSignal;
    if fetched != [] {
      var front, f := fetched[..|fetched| - 1], fetched[|fetched| - 1];
      var st := StageSells(db, front, price, next).value;
      if Triggered(f.row, price) {
        RowsOfSnoc(st.pending, Fetched(st.next, SellRow(f.id, f.row, st.next, f.row.symbol, price)));
        if id != st.next { StagedRows(db, front, price, next, id); }
      } else {
        StagedRows(db, front, price, next, id);
      }
    }
  }

  lemma CommitExitsEffect(s: State, w: nat, symbol: string, price: real, scan: seq<nat>, next: nat)
    requires Core(s)
    ensures var a := CommitExits(w, symbol, price, scan, next); Effect(s, Next(s, a), ChangeOf(s, a))
  {
    hide Core, Next, OpenBuy, StageOne, SellsParent;
    if w < |s.pcs| && s.pcs[w].Idle? {
      CommitExitsStep(s, w, symbol, price, scan, next);
      var fetched := OpenBuys(s.db.trades, symbol, scan);
      if StageSells(s.db, fetched, price, next).Ok? {
        StageSellsKeeps(s, fetched, price, next);
        StagedSells(s.db, symbol, price, scan, next);
      }
    } else {
      NotEnabled(s, CommitExits(w, symbol, price, scan, next));
    }
  }

  lemma {:induction false} StagedSells(db: Tables, symbol: string, price: real, scan: seq<nat>, next: nat)
    requires StageSells(db, OpenBuys(db.trades, symbol, scan), price, next).Ok?
    ensures var rows := RowsOf(StageSells(db, OpenBuys(db.trades, symbol, scan), price, next).value.pending);
      forall id :: id in rows ==> SellsParent(db.trades, rows[id])
  {
    hide SellsParent, StageOne;
    var fetched := OpenBuys(db.trades, symbol, scan);
    forall f | f in fetched ensures f.id in db.trades && f.row == db.trades[f.id] {
      OpenBuysAre(db.trades, symbol, scan, f);
    }
    var rows := RowsOf(StageSells(db, fetched, price, next).value.pending);
    forall id | id in rows ensures SellsParent(db.trades, rows[id]) {
      StagedRows(db, fetched, price, next, id);
    }
  }

  lemma CommitSellEffect(s: State, w: nat, parent: nat, sig: nat, id: nat)
    requires Core(s)
    ensures var a := CommitSell(w, parent, sig, id); Effect(s, Next(s, a), ChangeOf(s, a))
  {
    hide Core, Next, InsertTrade;
    if w < |s.pcs| && s.pcs[w].Idle? && parent in s.db.trades && sig in s.db.signals {
      CommitSellStep(s, w, parent, sig, id);
      var row := SellRow(parent, s.db.trades[parent], sig, s.db.signals[sig].symbol, s.db.signals[sig].price);
      if InsertTrade(s.db, id, row).Ok? {
        InsertOk(s.db, id, row);
        assert s.db.trades[id := row] == s.db.trades + map[id := row];
      }
    } else {
      NotEnabled(s, CommitSell(w, parent, sig, id));
    }
  }

  lemma PersistSellEffect(s: State, w: nat, ok: bool)
    requires Core(s)
    ensures Effect(s, Next(s, PersistSell(w, ok)), ChangeOf(s, PersistSell(w, ok)))
  {
    hide Core, Next, UpdateTrade, SameIdentity;
    if w < |s.pcs| && s.pcs[w].SellPersisting? {
      var SellPersisting(id, row, rest, pass) := s.pcs[w];
      PersistSellStep(s, w, id, row, rest, pass, ok);
      PcAt(s, w);
      StoredRow(s, id, row);
    } else {
      NotEnabled(s, PersistSell(w, ok));
    }
  }

  lemma UndoTradeEffect(s: State, w: nat, ok: bool)
    requires Core(s)
    ensures Effect(s, Next(s, UndoTrade(w, ok)), ChangeOf(s, UndoTrade(w, ok)))
  {
    hide Core, Next;
    if w < |s.pcs| && s.pcs[w].SellUndoTrade? {
      var SellUndoTrade(id, row, rest, pass) := s.pcs[w];
      UndoTradeStep(s, w, id, row, rest, pass, ok);
      PcAt(s, w);
      RowRefs(s, id);
    } else {
      NotEnabled(s, UndoTrade(w, ok));
    }
  }

  lemma WriteEventEffect(s: State, ok: bool)
    requires Core(s)
    ensures Effect(s, Next(s, WriteEvent(ok)), ChangeOf(s, WriteEvent(ok)))
  {
    hide Core, Next, WriteStatusTx, IncrementRemaining, Reconciled, SameIdentity;
    if s.consumer.Writing? {
      var Writing(id, row, status, fill) := s.consumer;
      WriteEventStep(s, id, row, status, fill, ok);
      ReconciledIs(s, id, row, status, fill);
      WriteStatusOk(s, id, Reconciled(s.params, row, status, fill));
      RowRefs(s, id);
      IdentityRefs(s.db, s.db.trades[id], Reconciled(s.params, row, status, fill));
    } else {
      NotEnabled(s, WriteEvent(ok));
    }
  }

  lemma IdentityRefs(db: Tables, row: Trade, row': Trade)
    requires RefsOk(db, row) && SameIdentity(row, row')
    ensures row'.transfer.Some? && row'.transfer.value in db.transfers
  {}

  lemma QuietBuyEffect(s: State, a: Action)
    requires a.PassGate? || a.CreateBuySignal? || a.FindBudget? || a.PlaceBuy? || a.MarkBuy?
    ensures Effect(s, Next(s, a), ChangeOf(s, a))
  {
    hide HasOpenPosition, AvailableBudget, BuyRow, CommitBuyTx, WriteStatusTx, UpdateTrade;
  }

  lemma QuietSellEffect(s: State, a: Action)
    requires a.PlaceSell? || a.MarkSell? || a.UndoSignal?
    ensures Effect(s, Next(s, a), ChangeOf(s, a))
  {
    hide HasOpenPosition, StageSells, InsertTrade, UpdateTrade, DeleteTrade;
  }

  lemma OutsideEffect(s: State, a: Action)
    requires a.AddTransfer? || a.AddSignal? || a.TrackPeaks? || a.ReadEvent? || a.Abandon? || a.AbandonConsumer?
    ensures Effect(s, Next(s, a), ChangeOf(s, a))
  {
    hide HasOpenPosition, NextBuy, NextSell, WriteStatusTx, OpenBuys;
  }

  lemma NextEffect(s: State, a: Action)
    requires Core(s)
    ensures Effect(s, Next(s, a), ChangeOf(s, a))
  {
    hide Core, Effect, Next, ChangeOf;
    match a
    case CommitBuy(w, id) => CommitBuyEffect(s, w, id);
    case PersistBuy(w, ok) => PersistBuyEffect(s, w, ok);
    case CancelBuy(w, ok) => CancelBuyEffect(s, w, ok);
    case CommitExits(w, symbol, price, scan, next) => CommitExitsEffect(s, w, symbol, price, scan, next);
    case CommitSell(w, parent, sig, id) => CommitSellEffect(s, w, parent, sig, id);
    case PersistSell(w, ok) => PersistSellEffect(s, w, ok);
    case UndoTrade(w, ok) => UndoTradeEffect(s, w, ok);
    case WriteEvent(ok) => WriteEventEffect(s, ok);
    case _ =>
      if a.PlaceSell? || a.MarkSell? || a.UndoSignal? { QuietSellEffect(s, a); }
      else if a.AddTransfer? || a.AddSignal? || a.TrackPeaks? || a.ReadEvent? || a.Abandon? || a.AbandonConsumer? { OutsideEffect(s, a); }
      else { QuietBuyEffect(s, a); }
  }
}
