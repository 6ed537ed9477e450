/** Every action keeps the ownership invariant. */
module LedgerSteps {
  import opened Model
  import opened Database
  import opened Adaptive
  import opened Ledger
  import opened LedgerCore
  import opened LedgerNext
  import Mapper

  // ---- the kinds of change an action makes to the tables ----

  // One row is overwritten, keeping its identity and any order ID it had.
  lemma RewriteKeeps(s: State, id: nat, row: Trade)
    requires Core(s) && id in s.db.trades && SameIdentity(s.db.trades[id], row)
    requires OrderLogged(id, row, s.log)
    requires s.db.trades[id].order.Some? ==> row.order == s.db.trades[id].order
    requires row.order.None? ==> row.status.Pending? || Unlogged(s.log, id)
    ensures var db := s.db.(trades := s.db.trades[id := row]);
      Refs(db) && OneSell(db.trades) && OrdersLogged(db.trades, s.log) && LogOk(db.trades, s.log)
  {
    hide PcsOk, OneOwner, Honest, ConsumerOk;
    var trades := s.db.trades[id := row];
    assert RefsOk(s.db, s.db.trades[id]);
    forall i, j | i in trades && j in trades && Siblings(trades[i], trades[j]) ensures i == j {
      assert Siblings(s.db.trades[i], s.db.trades[j]);
    }
    forall k | k in trades ensures RefsOk(s.db.(trades := trades), trades[k]) && OrderLogged(k, trades[k], s.log) {
      assert RefsOk(s.db, s.db.trades[k]) && OrderLogged(k, s.db.trades[k], s.log);
    }
    forall o | 0 <= o < |s.log| ensures EntryOk(trades, o, s.log[o]) {
      assert EntryOk(s.db.trades, o, s.log[o]);
    }
  }

  lemma InsertedTables(s: State, id: nat, row: Trade)
    requires Core(s) && InsertTrade(s.db, id, row).Ok?
    requires row.signal.Some? && row.order.None? && row.status.Pending? && (row.side.Buy? <==> row.parent.None?)
    ensures InsertTrade(s.db, id, row).value == s.db.(trades := s.db.trades[id := row]) && id !in s.db.trades
    ensures var db := s.db.(trades := s.db.trades[id := row]);
      && Refs(db) && OneSell(db.trades) && OrdersLogged(db.trades, s.log) && LogOk(db.trades, s.log)
      && Unplaced(db.trades, s.log, id, row)
  {
    hide PcsOk, OneOwner, ConsumerOk, Honest;
    PutOk(s.db, id, row);
    var trades := s.db.trades[id := row];
    forall k | k in trades ensures RefsOk(s.db.(trades := trades), trades[k]) && OrderLogged(k, trades[k], s.log) {
      if k != id { assert RefsOk(s.db, s.db.trades[k]) && OrderLogged(k, s.db.trades[k], s.log); }
    }
    forall i, j | i in trades && j in trades && Siblings(trades[i], trades[j]) ensures i == j {
      if i != id && j != id { assert Siblings(s.db.trades[i], s.db.trades[j]); }
    }
    forall o | 0 <= o < |s.log| ensures EntryOk(trades, o, s.log[o]) && s.log[o].trade != id {
      assert EntryOk(s.db.trades, o, s.log[o]);
    }
  }

  // One fresh pending row passes the constraint checks.
  lemma InsertKeeps(s: State, id: nat, row: Trade)
    requires Core(s) && InsertTrade(s.db, id, row).Ok?
    requires row.signal.Some? && row.order.None? && row.status.Pending? && (row.side.Buy? <==> row.parent.None?)
    ensures InsertTrade(s.db, id, row).value == s.db.(trades := s.db.trades[id := row]) && id !in s.db.trades
    ensures var db := s.db.(trades := s.db.trades[id := row]);
      && Refs(db) && OneSell(db.trades) && OrdersLogged(db.trades, s.log) && LogOk(db.trades, s.log)
      && PcsOk(db.trades, s.log, s.pcs) && ConsumerOk(db.trades, s.consumer) && Unplaced(db.trades, s.log, id, row)
  {
    hide InsertTrade, PcOk, Owned, OneOwner, Honest, RefsOk, EntryOk, OrderLogged, Siblings;
    InsertedTables(s, id, row);
    var trades := s.db.trades[id := row];
    forall v | 0 <= v < |s.pcs| ensures PcOk(trades, s.log, s.pcs[v]) {
      forall k | k in Owned(s.pcs[v]) ensures k in s.db.trades && k in trades && trades[k] == s.db.trades[k] {
        OwnedRow(s.db.trades, s.log, s.pcs[v], k);
      }
      PcFrame(s.db.trades, s.log, trades, s.log, s.pcs[v]);
    }
  }

  // A worker forgets rows or moves on without touching the tables.
  lemma MoveKeeps(s: State, w: nat, pc: Pc)
    requires Core(s) && w < |s.pcs| && Owned(pc) <= Owned(s.pcs[w]) && PcOk(s.db.trades, s.log, pc)
    ensures Core(Goto(s, w, pc))
  {
    PcsFrame(s.db.trades, s.log, s.pcs, s.db.trades, s.log, w, pc);
  }

  // Signals and transfers may change as long as nothing referenced disappears.
  lemma SideTablesKeep(s: State, signals: map<nat, Signal>, transfers: map<nat, Transfer>)
    requires Core(s) && s.db.transfers.Keys <= transfers.Keys
    requires forall id :: id in s.db.trades && s.db.trades[id].signal.Some? && s.db.trades[id].signal.value in s.db.signals ==> s.db.trades[id].signal.value in signals
    requires forall sig :: sig in signals && signals[sig].executed ==> Backed(s.log, sig)
    ensures Core(s.(db := Tables(s.db.trades, signals, transfers)))
  {
    var db := Tables(s.db.trades, signals, transfers);
    forall id | id in db.trades ensures RefsOk(db, db.trades[id]) {
      assert RefsOk(s.db, s.db.trades[id]);
    }
  }

  lemma TransfersKeep(s: State, transfers: map<nat, Transfer>)
    requires Core(s) && s.db.transfers.Keys <= transfers.Keys
    ensures Core(s.(db := s.db.(transfers := transfers)))
  {
    hide RefsOk, EntryOk, OrderLogged, Siblings, PcOk;
    SideTablesKeep(s, s.db.signals, transfers);
  }

  // An action whose worker or consumer stands elsewhere does nothing.
  lemma NotEnabled(s: State, a: Action)
    requires match a
      case CommitBuy(w, _) => !(w < |s.pcs| && s.pcs[w].Budgeted?)
      case PlaceBuy(w, _) => !(w < |s.pcs| && s.pcs[w].BuyPlacing?)
      case PersistBuy(w, _) => !(w < |s.pcs| && s.pcs[w].BuyPersisting?)
      case MarkBuy(w, _) => !(w < |s.pcs| && s.pcs[w].BuyMarking?)
      case CancelBuy(w, _) => !(w < |s.pcs| && s.pcs[w].BuyCancelling?)
      case CommitExits(w, _, _, _, _) => !(w < |s.pcs| && s.pcs[w].Idle?)
      case CommitSell(w, parent, sig, _) => !(w < |s.pcs| && s.pcs[w].Idle? && parent in s.db.trades && sig in s.db.signals)
      case PlaceSell(w, id, _) => !(w < |s.pcs| && s.pcs[w].Exits? && id in s.pcs[w].rest)
      case PersistSell(w, _) => !(w < |s.pcs| && s.pcs[w].SellPersisting?)
      case MarkSell(w, _) => !(w < |s.pcs| && s.pcs[w].SellMarking?)
      case UndoTrade(w, _) => !(w < |s.pcs| && s.pcs[w].SellUndoTrade?)
      case UndoSignal(w, _) => !(w < |s.pcs| && s.pcs[w].SellUndoSignal?)
      case WriteEvent(_) => !s.consumer.Writing?
      case _ => false
    ensures Next(s, a) == s
  {
    hide CommitBuyTx, BuyRow, StageSells, OpenBuys, InsertTrade, UpdateTrade, DeleteTrade, DeleteSignal, MarkExecuted, WriteStatusTx;
  }

  lemma PcAt(s: State, w: nat)
    requires Core(s) && w < |s.pcs|
    ensures PcOk(s.db.trades, s.log, s.pcs[w])
  {}

  // ---- buys ----

  lemma CreateBuySignalKeeps(s: State, w: nat, sig: nat, price: real, indicators: Indicators)
    requires Core(s)
    ensures Core(Next(s, CreateBuySignal(w, sig, price, indicators)))
  {
    if w < |s.pcs| && s.pcs[w].Gated? {
      var signal := Signal(s.pcs[w].symbol, Buy, price, indicators, false);
      if InsertSignal(s.db, sig, signal).Ok? {
        SideTablesKeep(s, s.db.signals[sig := signal], s.db.transfers);
        MoveKeeps(s.(db := s.db.(signals := s.db.signals[sig := signal])), w, Signalled(sig, signal));
      } else {
        MoveKeeps(s, w, Idle);
      }
    }
  }

  // The worker takes ownership of the buy it has just inserted.
  lemma TakeBuyKeeps(s: State, w: nat, id: nat, row: Trade, transfers: map<nat, Transfer>)
    requires Core(s) && w < |s.pcs| && Owned(s.pcs[w]) == {} && InsertTrade(s.db, id, row).Ok?
    requires row.signal.Some? && row.order.None? && row.status.Pending? && row.side.Buy? && row.parent.None?
    requires s.db.transfers.Keys <= transfers.Keys
    ensures Core(Goto(s, w, BuyPlacing(id, row)).(db := Tables(s.db.trades[id := row], s.db.signals, transfers)))
  {
    hide InsertTrade, RefsOk, EntryOk, OrderLogged;
    InsertKeeps(s, id, row);
    var t := s.(db := s.db.(trades := s.db.trades[id := row]));
    assert Core(t);
    PcsFrame(s.db.trades, s.log, s.pcs, t.db.trades, s.log, w, BuyPlacing(id, row));
    SideTablesKeep(Goto(t, w, BuyPlacing(id, row)), t.db.signals, transfers);
  }

  lemma CommitBuyKeeps(s: State, w: nat, id: nat)
    requires Core(s)
    ensures Core(Next(s, CommitBuy(w, id)))
  {
    hide Core, Next, InsertTrade;
    if w < |s.pcs| && s.pcs[w].Budgeted? {
      var pc := s.pcs[w];
      var r := BuyRow(s.params, pc.sig, pc.signal, pc.budget, pc.account);
      if r.Ok? && r.value.Some? && CommitBuyTx(s.db, id, r.value.value).Ok? {
        CommitBuyStep(s, w, id, r.value.value);
        InsertOk(s.db, id, r.value.value);
        TakeBuyKeeps(s, w, id, r.value.value, CommitBuyTx(s.db, id, r.value.value).value.transfers);
      } else {
        NoBuyStep(s, w, id);
        MoveKeeps(s, w, Idle);
      }
    } else {
      NotEnabled(s, CommitBuy(w, id));
    }
  }

  lemma InsertOk(db: Tables, id: nat, row: Trade)
    requires InsertTrade(db, id, row).Ok?
    ensures InsertTrade(db, id, row).value == db.(trades := db.trades[id := row]) && id !in db.trades
  {
    PutOk(db, id, row);
  }

  // The broker accepts an order for a row its worker owns and has not placed.
  lemma AcceptKeeps(s: State, w: nat, id: nat, row: Trade, pc: Pc)
    requires Core(s) && w < |s.pcs| && id in Owned(s.pcs[w]) && Unplaced(s.db.trades, s.log, id, row)
    requires Owned(pc) <= Owned(s.pcs[w]) && PcOk(s.db.trades, s.log + [OrderFor(id, row)], pc)
    ensures Core(Goto(s, w, pc).(log := s.log + [OrderFor(id, row)]))
  {
    hide RefsOk, Siblings;
    var log := s.log + [OrderFor(id, row)];
    PcsFrame(s.db.trades, s.log, s.pcs, s.db.trades, log, w, pc);
    forall k | k in s.db.trades ensures OrderLogged(k, s.db.trades[k], log) {
      assert OrderLogged(k, s.db.trades[k], s.log);
    }
    forall o | 0 <= o < |log| ensures EntryOk(s.db.trades, o, log[o]) {
      if o < |s.log| { assert EntryOk(s.db.trades, o, s.log[o]); }
    }
    forall sig | sig in s.db.signals && s.db.signals[sig].executed ensures Backed(log, sig) {
      BackedGrows(s.log, log, sig);
    }
  }

  lemma PlaceBuyKeeps(s: State, w: nat, accepted: bool)
    requires Core(s)
    ensures Core(Next(s, PlaceBuy(w, accepted)))
  {
    hide Core, Next;
    if w < |s.pcs| && s.pcs[w].BuyPlacing? {
      var BuyPlacing(id, row) := s.pcs[w];
      PcAt(s, w);
      PlaceBuyStep(s, w, id, row, accepted);
      if accepted {
        AcceptKeeps(s, w, id, row, BuyPersisting(id, row.(order := Some(|s.log|))));
      } else {
        assert row == row.(status := Cancelled).(status := Pending);
        MoveKeeps(s, w, BuyCancelling(id, row.(status := Cancelled)));
      }
    } else {
      NotEnabled(s, PlaceBuy(w, accepted));
    }
  }

  // No stored row carries the order ID that a worker is about to store.
  lemma PlacedFresh(s: State, id: nat, row: Trade)
    requires Core(s) && Placed(s.db.trades, s.log, id, row)
    ensures SameIdentity(s.db.trades[id], row) && UpdateTrade(s.db, id, row) == Ok(s.db.(trades := s.db.trades[id := row]))
  {
    hide RefsOk, PcsOk, Honest, OneOwner, EntryOk, Put;
    forall k | k in s.db.trades ensures s.db.trades[k].order != row.order {
      assert OrderLogged(k, s.db.trades[k], s.log);
    }
    PutSameOk(s, id, row);
  }

  // A worker changes one row it owns and then lets go of it.
  lemma OwnerChanges(s: State, w: nat, id: nat, trades: Trades, pc: Pc)
    requires Core(s) && w < |s.pcs| && id in Owned(s.pcs[w])
    requires Owned(pc) <= Owned(s.pcs[w]) - {id} && PcOk(s.db.trades, s.log, pc)
    requires forall k :: k in s.db.trades && k != id ==> k in trades && trades[k] == s.db.trades[k]
    ensures PcsOk(trades, s.log, s.pcs[w := pc]) && OneOwner(s.pcs[w := pc])
  {
    hide PcOk, Owned, Refs, OneSell, OrdersLogged, LogOk, Honest, ConsumerOk;
    forall k | k in Owned(pc) ensures k in s.db.trades {
      OwnedRow(s.db.trades, s.log, pc, k);
    }
    PcFrame(s.db.trades, s.log, trades, s.log, pc);
    PcsFrame(s.db.trades, s.log, s.pcs, trades, s.log, w, pc);
  }

  // The worker stores the order ID by overwriting the whole row with its copy.
  lemma PersistKeeps(s: State, w: nat, id: nat, row: Trade, ok: bool, pc: Pc)
    requires Core(s) && w < |s.pcs| && id in Owned(s.pcs[w]) && Placed(s.db.trades, s.log, id, row)
    requires Owned(pc) <= Owned(s.pcs[w]) - {id} && PcOk(s.db.trades, s.log, pc)
    ensures Core(Goto(s, w, pc).(db := Try(s.db, ok, UpdateTrade(s.db, id, row))))
  {
    hide RefsOk, EntryOk, UpdateTrade, PcOk, Owned;
    PlacedFresh(s, id, row);
    if ok {
      RewriteKeeps(s, id, row);
      OwnerChanges(s, w, id, s.db.trades[id := row], pc);
    } else {
      MoveKeeps(s, w, pc);
    }
  }

  // The placed order's own log entry names the row's signal.
  lemma PlacedBacked(s: State, id: nat, row: Trade)
    requires Core(s) && Placed(s.db.trades, s.log, id, row)
    ensures row.signal.Some? && Backed(s.log, row.signal.value)
  {
    assert RefsOk(s.db, s.db.trades[id]);
    var o := row.order.value;
    assert EntryOk(s.db.trades, o, s.log[o]);
    assert s.log[o].signal == Some(row.signal.value);
  }

  lemma PersistBuyKeeps(s: State, w: nat, ok: bool)
    requires Core(s)
    ensures Core(Next(s, PersistBuy(w, ok)))
  {
    hide Core, Next, UpdateTrade;
    if w < |s.pcs| && s.pcs[w].BuyPersisting? {
      var BuyPersisting(id, row) := s.pcs[w];
      PcAt(s, w);
      PersistBuyStep(s, w, id, row, ok);
      PlacedBacked(s, id, row);
      PersistKeeps(s, w, id, row, ok, BuyMarking(row.signal.value));
    } else {
      NotEnabled(s, PersistBuy(w, ok));
    }
  }

  lemma MarkKeeps(s: State, w: nat, sig: nat, ok: bool, pc: Pc)
    requires Core(s) && w < |s.pcs| && Backed(s.log, sig)
    requires Owned(pc) <= Owned(s.pcs[w]) && PcOk(s.db.trades, s.log, pc)
    ensures Core(Goto(s, w, pc).(db := Try(s.db, ok, Ok(MarkExecuted(s.db, sig)))))
  {
    hide RefsOk, EntryOk, OrderLogged, Siblings;
    MoveKeeps(s, w, pc);
    if ok {
      SideTablesKeep(Goto(s, w, pc), MarkExecuted(s.db, sig).signals, s.db.transfers);
    }
  }

  lemma MarkBuyKeeps(s: State, w: nat, ok: bool)
    requires Core(s)
    ensures Core(Next(s, MarkBuy(w, ok)))
  {
    hide Core, Next, MarkExecuted;
    if w < |s.pcs| && s.pcs[w].BuyMarking? {
      PcAt(s, w);
      MarkBuyStep(s, w, s.pcs[w].sig, ok);
      MarkKeeps(s, w, s.pcs[w].sig, ok, Idle);
    } else {
      NotEnabled(s, MarkBuy(w, ok));
    }
  }

  // What the status transaction does to the tables when its row keeps its identity.
  lemma WriteStatusOk(s: State, id: nat, row: Trade)
    requires Core(s) && id in s.db.trades && SameIdentity(s.db.trades[id], row) && row.order == s.db.trades[id].order
    ensures WriteStatusTx(s.db, id, row).Ok?
    ensures WriteStatusTx(s.db, id, row).value.trades == s.db.trades[id := row]
    ensures WriteStatusTx(s.db, id, row).value.signals == s.db.signals
    ensures WriteStatusTx(s.db, id, row).value.transfers.Keys == s.db.transfers.Keys
    ensures WriteStatusTx(s.db, id, row).value.transfers ==
      if row.status.Refunds() && row.side.Buy? then IncrementRemaining(s.db, row.transfer.value).value.transfers else s.db.transfers
  {
    hide EntryOk, OrderLogged, Siblings, PcsOk, OneOwner, Honest, ConsumerOk;
    PutSameOk(s, id, row);
    assert RefsOk(s.db, s.db.trades[id]);
  }

  lemma CancelRowKeeps(s: State, w: nat, id: nat, row: Trade)
    requires Core(s) && w < |s.pcs| && s.pcs[w] == BuyCancelling(id, row)
    ensures Core(Goto(s, w, Idle).(db := s.db.(trades := s.db.trades[id := row])))
  {
    hide RefsOk, EntryOk;
    RewriteKeeps(s, id, row);
    OwnerChanges(s, w, id, s.db.trades[id := row], Idle);
  }

  lemma CancelBuyKeeps(s: State, w: nat, ok: bool)
    requires Core(s)
    ensures Core(Next(s, CancelBuy(w, ok)))
  {
    hide Core, Next, WriteStatusTx;
    if w < |s.pcs| && s.pcs[w].BuyCancelling? {
      var BuyCancelling(id, row) := s.pcs[w];
      PcAt(s, w);
      CancelStep(s, w, id, row, ok);
      if ok {
        WriteStatusOk(s, id, row);
        CancelRowKeeps(s, w, id, row);
        var t := Goto(s, w, Idle).(db := s.db.(trades := s.db.trades[id := row]));
        TransfersKeep(t, WriteStatusTx(s.db, id, row).value.transfers);
        assert WriteStatusTx(s.db, id, row).value == t.db.(transfers := WriteStatusTx(s.db, id, row).value.transfers);
      } else {
        MoveKeeps(s, w, Idle);
      }
    } else {
      NotEnabled(s, CancelBuy(w, ok));
    }
  }

  // ---- sells ----

  // What the first exit loop leaves behind, on any prefix of the fetched rows.
  ghost predicate StagedOk(s: State, st: Staged) {
    && Core(s.(db := st.db))
    && st.db.transfers == s.db.transfers
    && st.db.trades == s.db.trades + RowsOf(st.pending)
    && RowsOf(st.pending).Keys !! s.db.trades.Keys
    && RestOk(st.db.trades, s.log, RowsOf(st.pending))
  }

  // A sell signal and its pre-inserted sell row.
  lemma InsertPairKeeps(s: State, n: nat, signal: Signal, row: Trade)
    requires Core(s) && n !in s.db.signals && !signal.executed
    requires row.signal == Some(n) && row.order.None? && row.status.Pending? && row.side.Sell? && row.parent.Some?
    requires InsertTrade(s.db.(signals := s.db.signals[n := signal]), n, row).Ok?
    ensures var db := s.db.(signals := s.db.signals[n := signal], trades := s.db.trades[n := row]);
      && InsertTrade(s.db.(signals := s.db.signals[n := signal]), n, row).value == db
      && n !in s.db.trades && Core(s.(db := db)) && Unplaced(db.trades, s.log, n, row)
  {
    var db1 := s.db.(signals := s.db.signals[n := signal]);
    SideTablesKeep(s, db1.signals, db1.transfers);
    InsertKeeps(s.(db := db1), n, row);
  }

  lemma {:induction false} RowsOfSnoc(pending: seq<Fetched>, f: Fetched)
    ensures RowsOf(pending + [f]) == RowsOf(pending)[f.id := f.row]
  {
    assert (pending + [f])[..|pending|] == pending;
  }

  lemma {:induction false} StageInsertKeeps(before: Trades, trades: Trades, log: seq<Accepted>, pending: seq<Fetched>, id: nat, row: Trade)
    requires trades == before + RowsOf(pending) && RowsOf(pending).Keys !! before.Keys
    requires RestOk(trades, log, RowsOf(pending)) && id !in trades
    requires Unplaced(trades[id := row], log, id, row) && row.side.Sell?
    ensures var pending' := pending + [Fetched(id, row)];
      && trades[id := row] == before + RowsOf(pending') && RowsOf(pending').Keys !! before.Keys
      && RestOk(trades[id := row], log, RowsOf(pending'))
  {
    hide RowsOf;
    var rest, rest' := RowsOf(pending), RowsOf(pending + [Fetched(id, row)]);
    RowsOfSnoc(pending, Fetched(id, row));
    forall k | k in rest' ensures Unplaced(trades[id := row], log, k, rest'[k]) && rest'[k].side.Sell? {
      if k != id { assert Unplaced(trades, log, k, rest[k]) && rest[k].side.Sell?; }
    }
  }

  lemma StageOneKeeps(s: State, st: Staged, f: Fetched, price: real)
    requires Core(s) && StagedOk(s, st) && StageOne(st, f, price).Ok?
    ensures StagedOk(s, StageOne(st, f, price).value)
  {
    if Triggered(f.row, price) {
      var signal := SellSignal(f.row.symbol, price);
      var row := SellRow(f.id, f.row, st.next, f.row.symbol, price);
      InsertPairKeeps(s.(db := st.db), st.next, signal, row);
      StageInsertKeeps(s.db.trades, st.db.trades, s.log, st.pending, st.next, row);
    }
  }

  lemma {:induction false} StageSellsKeeps(s: State, fetched: seq<Fetched>, price: real, next: nat)
    requires Core(s) && StageSells(s.db, fetched, price, next).Ok?
    ensures StagedOk(s, StageSells(s.db, fetched, price, next).value)
  {
    if fetched == [] {
      assert s.db.trades == s.db.trades + RowsOf([]);
    } else {
      var front := fetched[..|fetched| - 1];
      StageSellsKeeps(s, front, price, next);
      StageOneKeeps(s, StageSells(s.db, front, price, next).value, fetched[|fetched| - 1], price);
    }
  }

  // An idle worker takes ownership of the rows it has just inserted.
  lemma TakeKeeps(s: State, w: nat, db: Tables, rest: Trades, pass: bool)
    requires Core(s) && w < |s.pcs| && s.pcs[w].Idle? && Core(s.(db := db))
    requires rest.Keys !! s.db.trades.Keys && RestOk(db.trades, s.log, rest)
    requires forall id :: id in s.db.trades ==> id in db.trades && db.trades[id] == s.db.trades[id]
    ensures Core(Goto(s, w, Exits(rest, pass)).(db := db))
  {
    PcsFrame(s.db.trades, s.log, s.pcs, db.trades, s.log, w, Exits(rest, pass));
  }

  lemma CommitExitsKeeps(s: State, w: nat, symbol: string, price: real, scan: seq<nat>, next: nat)
    requires Core(s)
    ensures Core(Next(s, CommitExits(w, symbol, price, scan, next)))
  {
    hide Core, Next, OpenBuy, StageOne;
    if w < |s.pcs| && s.pcs[w].Idle? {
      CommitExitsStep(s, w, symbol, price, scan, next);
      var fetched := OpenBuys(s.db.trades, symbol, scan);
      if StageSells(s.db, fetched, price, next).Ok? {
        StageSellsKeeps(s, fetched, price, next);
        var st := StageSells(s.db, fetched, price, next).value;
        TakeKeeps(s, w, st.db, RowsOf(st.pending), true);
      }
    } else {
      NotEnabled(s, CommitExits(w, symbol, price, scan, next));
    }
  }

  lemma CommitSellKeeps(s: State, w: nat, parent: nat, sig: nat, id: nat)
    requires Core(s)
    ensures Core(Next(s, CommitSell(w, parent, sig, id)))
  {
    hide Next, InsertTrade;
    if w < |s.pcs| && s.pcs[w].Idle? && parent in s.db.trades && sig in s.db.signals {
      CommitSellStep(s, w, parent, sig, id);
      var row := SellRow(parent, s.db.trades[parent], sig, s.db.signals[sig].symbol, s.db.signals[sig].price);
      if InsertTrade(s.db, id, row).Ok? { InsertSellKeeps(s, w, id, row); }
    } else {
      NotEnabled(s, CommitSell(w, parent, sig, id));
    }
  }

  lemma InsertSellKeeps(s: State, w: nat, id: nat, row: Trade)
    requires Core(s) && w < |s.pcs| && s.pcs[w].Idle? && InsertTrade(s.db, id, row).Ok?
    requires row.signal.Some? && row.order.None? && row.status.Pending? && row.side.Sell? && row.parent.Some?
    ensures Core(Goto(s, w, Exits(map[id := row], false)).(db := InsertTrade(s.db, id, row).value))
  {
    hide InsertTrade, RefsOk, EntryOk, OrderLogged, Siblings, OneOwner;
    InsertKeeps(s, id, row);
    TakeKeeps(s, w, s.db.(trades := s.db.trades[id := row]), map[id := row], false);
  }

  lemma AcceptSellKeeps(s: State, w: nat, id: nat, rest: Trades, pass: bool)
    requires Core(s) && w < |s.pcs| && s.pcs[w] == Exits(rest, pass) && id in rest
    ensures Core(Goto(s, w, SellPersisting(id, rest[id].(order := Some(|s.log|)), rest - {id}, pass))
                   .(log := s.log + [OrderFor(id, rest[id])]))
  {
    hide RefsOk, EntryOk, OrderLogged, Siblings, Honest, OneOwner;
    var row, left, log := rest[id], rest - {id}, s.log + [OrderFor(id, rest[id])];
    var row' := row.(order := Some(|s.log|));
    assert PcOk(s.db.trades, s.log, Exits(left, pass)) && Owned(Exits(left, pass)) == left.Keys;
    PcFrame(s.db.trades, s.log, s.db.trades, log, Exits(left, pass));
    assert row'.(order := None) == row;
    AcceptKeeps(s, w, id, row, SellPersisting(id, row', left, pass));
  }

  lemma RefuseSellKeeps(s: State, w: nat, id: nat, rest: Trades, pass: bool)
    requires Core(s) && w < |s.pcs| && s.pcs[w] == Exits(rest, pass) && id in rest
    ensures Core(Goto(s, w, SellUndoTrade(id, rest[id], rest - {id}, pass)))
  {
    hide RefsOk, EntryOk, OrderLogged, Siblings, Honest, Refs, OneSell, LogOk;
    MoveKeeps(s, w, SellUndoTrade(id, rest[id], rest - {id}, pass));
  }

  lemma PlaceSellKeeps(s: State, w: nat, id: nat, accepted: bool)
    requires Core(s)
    ensures Core(Next(s, PlaceSell(w, id, accepted)))
  {
    hide Core, Next;
    if w < |s.pcs| && s.pcs[w].Exits? && id in s.pcs[w].rest {
      PlaceSellStep(s, w, id, s.pcs[w].rest, s.pcs[w].pass, accepted);
      if accepted {
        AcceptSellKeeps(s, w, id, s.pcs[w].rest, s.pcs[w].pass);
      } else {
        RefuseSellKeeps(s, w, id, s.pcs[w].rest, s.pcs[w].pass);
      }
    } else {
      NotEnabled(s, PlaceSell(w, id, accepted));
    }
  }

  lemma PersistSellKeeps(s: State, w: nat, ok: bool)
    requires Core(s)
    ensures Core(Next(s, PersistSell(w, ok)))
  {
    hide Core, Next, UpdateTrade;
    if w < |s.pcs| && s.pcs[w].SellPersisting? {
      var SellPersisting(id, row, rest, pass) := s.pcs[w];
      PcAt(s, w);
      PersistSellStep(s, w, id, row, rest, pass, ok);
      PlacedBacked(s, id, row);
      PersistKeeps(s, w, id, row, ok, if pass then SellMarking(row.signal.value, rest) else Exits(rest, pass));
    } else {
      NotEnabled(s, PersistSell(w, ok));
    }
  }

  lemma MarkSellKeeps(s: State, w: nat, ok: bool)
    requires Core(s)
    ensures Core(Next(s, MarkSell(w, ok)))
  {
    hide Core, Next, MarkExecuted;
    if w < |s.pcs| && s.pcs[w].SellMarking? {
      PcAt(s, w);
      MarkSellStep(s, w, s.pcs[w].sig, s.pcs[w].rest, ok);
      MarkKeeps(s, w, s.pcs[w].sig, ok, Exits(s.pcs[w].rest, true));
    } else {
      NotEnabled(s, MarkSell(w, ok));
    }
  }

  // Deleting a sell the broker never accepted.
  lemma DeleteTables(s: State, id: nat, row: Trade)
    requires Core(s) && Unplaced(s.db.trades, s.log, id, row) && row.side.Sell? && DeleteTrade(s.db, id).Ok?
    ensures var db := DeleteTrade(s.db, id).value;
      Refs(db) && OneSell(db.trades) && OrdersLogged(db.trades, s.log) && LogOk(db.trades, s.log)
  {
    hide PcsOk, OneOwner, ConsumerOk, Honest;
    var db := DeleteTrade(s.db, id).value;
    forall k | k in db.trades ensures RefsOk(db, db.trades[k]) && OrderLogged(k, db.trades[k], s.log) {
      assert RefsOk(s.db, s.db.trades[k]) && OrderLogged(k, s.db.trades[k], s.log);
    }
    forall i, j | i in db.trades && j in db.trades && Siblings(db.trades[i], db.trades[j]) ensures i == j {
      assert Siblings(s.db.trades[i], s.db.trades[j]);
    }
    forall o | 0 <= o < |s.log| ensures EntryOk(db.trades, o, s.log[o]) {
      assert EntryOk(s.db.trades, o, s.log[o]);
    }
  }

  // The worker that owns the row deletes it.
  lemma DeleteKeeps(s: State, w: nat, id: nat, row: Trade, pc: Pc)
    requires Core(s) && w < |s.pcs| && id in Owned(s.pcs[w]) && Unplaced(s.db.trades, s.log, id, row)
    requires row.side.Sell? && DeleteTrade(s.db, id).Ok?
    requires Owned(pc) <= Owned(s.pcs[w]) - {id} && PcOk(s.db.trades, s.log, pc)
    ensures Core(Goto(s, w, pc).(db := DeleteTrade(s.db, id).value))
  {
    hide PcOk, Owned, Refs, OneSell, OrdersLogged, LogOk, OneOwner;
    DeleteTables(s, id, row);
    OwnerChanges(s, w, id, DeleteTrade(s.db, id).value.trades, pc);
  }

  lemma UndoTradeKeeps(s: State, w: nat, ok: bool)
    requires Core(s)
    ensures Core(Next(s, UndoTrade(w, ok)))
  {
    hide Core, Next, DeleteTrade, Reexposed;
    if w < |s.pcs| && s.pcs[w].SellUndoTrade? {
      var SellUndoTrade(id, row, rest, pass) := s.pcs[w];
      var pc := if pass && row.signal.Some? then SellUndoSignal(row.signal.value, rest) else Exits(rest, pass);
      PcAt(s, w);
      UndoTradeStep(s, w, id, row, rest, pass, ok);
      var s' := Next(s, UndoTrade(w, ok));
      if ok && DeleteTrade(s.db, id).Ok? {
        DeleteKeeps(s, w, id, row, pc);
        HistoryIrrelevant(Goto(s, w, pc).(db := DeleteTrade(s.db, id).value), s'.undone);
      } else {
        MoveKeeps(s, w, pc);
      }
    } else {
      NotEnabled(s, UndoTrade(w, ok));
    }
  }

  lemma HistoryIrrelevant(s: State, undone: multiset<string>)
    requires Core(s)
    ensures Core(s.(undone := undone))
  {}

  // A referenced signal is never deleted, so an executed one never is.
  lemma UndoSignalKeeps(s: State, w: nat, ok: bool)
    requires Core(s)
    ensures Core(Next(s, UndoSignal(w, ok)))
  {
    hide Next, EntryOk, OrderLogged, Siblings, RefsOk;
    if w < |s.pcs| && s.pcs[w].SellUndoSignal? {
      var SellUndoSignal(sig, rest) := s.pcs[w];
      PcAt(s, w);
      UndoSignalStep(s, w, sig, rest, ok);
      MoveKeeps(s, w, Exits(rest, true));
      if ok && DeleteSignal(s.db, sig).Ok? {
        SideTablesKeep(Goto(s, w, Exits(rest, true)), s.db.signals - {sig}, s.db.transfers);
      }
    } else {
      NotEnabled(s, UndoSignal(w, ok));
    }
  }

  // ---- the consumer and the peak tracker ----

  // The consumer overwrites its row; no worker owns it, as it carries an order ID.
  lemma ReconcileKeeps(s: State, id: nat, row: Trade)
    requires Core(s) && id in s.db.trades && SameIdentity(s.db.trades[id], row)
    requires s.db.trades[id].order.Some? && row.order == s.db.trades[id].order
    ensures Core(s.(consumer := Waiting, db := s.db.(trades := s.db.trades[id := row])))
  {
    hide RefsOk, EntryOk, PcOk, Owned;
    assert OrderLogged(id, s.db.trades[id], s.log);
    RewriteKeeps(s, id, row);
    var trades := s.db.trades[id := row];
    forall v | 0 <= v < |s.pcs| ensures PcOk(trades, s.log, s.pcs[v]) {
      forall k | k in Owned(s.pcs[v]) ensures k in trades && k != id {
        OwnedRow(s.db.trades, s.log, s.pcs[v], k);
      }
      PcFrame(s.db.trades, s.log, trades, s.log, s.pcs[v]);
    }
  }

  lemma WriteEventKeeps(s: State, ok: bool)
    requires Core(s)
    ensures Core(Next(s, WriteEvent(ok)))
  {
    hide Core, Next, WriteStatusTx, Reconciled;
    if s.consumer.Writing? {
      var Writing(id, row, status, fill) := s.consumer;
      var row' := Reconciled(s.params, row, status, fill);
      WriteEventStep(s, id, row, status, fill, ok);
      if ok {
        ReconciledIs(s, id, row, status, fill);
        WriteStatusOk(s, id, row');
        ReconcileKeeps(s, id, row');
        var t := s.(consumer := Waiting, db := s.db.(trades := s.db.trades[id := row']));
        TransfersKeep(t, WriteStatusTx(s.db, id, row').value.transfers);
        assert WriteStatusTx(s.db, id, row').value == t.db.(transfers := WriteStatusTx(s.db, id, row').value.transfers);
      } else {
        ConsumerRests(s);
      }
    } else {
      NotEnabled(s, WriteEvent(ok));
    }
  }

  lemma ConsumerRests(s: State)
    requires Core(s)
    ensures Core(s.(consumer := Waiting))
  {}

  // The consumer's reconciled copy keeps its row's identity and order ID.
  lemma ReconciledIs(s: State, id: nat, row: Trade, status: Status, fill: Fill)
    requires Core(s) && s.consumer == Writing(id, row, status, fill)
    ensures id in s.db.trades && s.db.trades[id].order.Some? && !s.db.trades[id].status.Terminal()
    ensures SameIdentity(s.db.trades[id], Reconciled(s.params, row, status, fill))
    ensures Reconciled(s.params, row, status, fill).order == s.db.trades[id].order
  {
    hide PcsOk, Refs, OneSell, OrdersLogged, LogOk, OneOwner, Honest, Notional, Fee;
  }

  lemma RaisedTables(s: State, ids: set<nat>, price: real)
    requires Core(s)
    ensures var db := s.db.(trades := RaisePeaks(s.db.trades, ids, price));
      Refs(db) && OneSell(db.trades) && OrdersLogged(db.trades, s.log) && LogOk(db.trades, s.log)
  {
    hide PcsOk, OneOwner, ConsumerOk, Honest;
    var trades := RaisePeaks(s.db.trades, ids, price);
    var db := s.db.(trades := trades);
    forall k | k in trades ensures RefsOk(db, trades[k]) && OrderLogged(k, trades[k], s.log) {
      assert RefsOk(s.db, s.db.trades[k]) && OrderLogged(k, s.db.trades[k], s.log);
    }
    forall i, j | i in trades && j in trades && Siblings(trades[i], trades[j]) ensures i == j {
      assert Siblings(s.db.trades[i], s.db.trades[j]);
    }
    forall o | 0 <= o < |s.log| ensures EntryOk(trades, o, s.log[o]) {
      assert EntryOk(s.db.trades, o, s.log[o]);
    }
  }

  lemma RaisePeaksKeeps(s: State, ids: set<nat>, price: real)
    requires Core(s) && forall id :: id in ids && id in s.db.trades ==> !s.db.trades[id].status.Pending?
    ensures Core(s.(db := s.db.(trades := RaisePeaks(s.db.trades, ids, price))))
  {
    hide PcOk, Owned, OneOwner, Refs, OneSell, OrdersLogged, LogOk;
    var trades := RaisePeaks(s.db.trades, ids, price);
    RaisedTables(s, ids, price);
    forall v | 0 <= v < |s.pcs| ensures PcOk(trades, s.log, s.pcs[v]) {
      forall id | id in Owned(s.pcs[v]) ensures id in s.db.trades && id in trades && trades[id] == s.db.trades[id] {
        OwnedRow(s.db.trades, s.log, s.pcs[v], id);
      }
      PcFrame(s.db.trades, s.log, trades, s.log, s.pcs[v]);
    }
  }

  lemma TrackPeaksKeeps(s: State, symbol: string, price: real, scan: seq<nat>)
    requires Core(s)
    ensures Core(Next(s, TrackPeaks(symbol, price, scan)))
  {
    var ids := set f | f in OpenBuys(s.db.trades, symbol, scan) :: f.id;
    forall id | id in ids && id in s.db.trades ensures !s.db.trades[id].status.Pending? {
      var f :| f in OpenBuys(s.db.trades, symbol, scan) && f.id == id;
      OpenBuysAre(s.db.trades, symbol, scan, f);
    }
    RaisePeaksKeeps(s, ids, price);
  }

  // ---- every action, every run ----

  lemma GateKeeps(s: State, w: nat, symbol: string)
    requires Core(s)
    ensures Core(Next(s, PassGate(w, symbol)))
  {
    hide Core;
    if w < |s.pcs| && s.pcs[w].Idle? { MoveKeeps(s, w, Gated(symbol)); }
  }

  lemma FindBudgetKeeps(s: State, w: nat, scan: seq<nat>)
    requires Core(s)
    ensures Core(Next(s, FindBudget(w, scan)))
  {
    hide Core;
    if w < |s.pcs| && s.pcs[w].Signalled? { MoveKeeps(s, w, Next(s, FindBudget(w, scan)).pcs[w]); }
  }

  lemma ReadEventKeeps(s: State, id: nat, event: string, fill: Fill)
    requires Core(s)
    ensures Core(Next(s, ReadEvent(id, event, fill)))
  {
    hide NextBuy, NextSell, RefsOk, EntryOk, Siblings, PcsOk, OneOwner, Honest, LogOk, OneSell;
  }

  lemma OutsideKeeps(s: State, a: Action)
    requires Core(s) && (a.AddTransfer? || a.AddSignal? || a.Abandon? || a.AbandonConsumer?)
    ensures Core(Next(s, a))
  {
    hide NextBuy, NextSell, RefsOk, EntryOk, OrderLogged, Siblings, PcOk;
    match a
    case AddTransfer(t, transfer) =>
      if t !in s.db.transfers { SideTablesKeep(s, s.db.signals, s.db.transfers[t := transfer]); }
    case AddSignal(sig, signal) =>
      if sig !in s.db.signals && !signal.executed { SideTablesKeep(s, s.db.signals[sig := signal], s.db.transfers); }
    case Abandon(w) => if w < |s.pcs| { MoveKeeps(s, w, Idle); }
    case AbandonConsumer =>
  }

  lemma NextKeepsCore(s: State, a: Action)
    requires Core(s)
    ensures Core(Next(s, a))
  {
    hide Core, Next;
    match a
    case PassGate(w, symbol) => GateKeeps(s, w, symbol);
    case CreateBuySignal(w, sig, price, indicators) => CreateBuySignalKeeps(s, w, sig, price, indicators);
    case FindBudget(w, scan) => FindBudgetKeeps(s, w, scan);
    case CommitBuy(w, id) => CommitBuyKeeps(s, w, id);
    case PlaceBuy(w, accepted) => PlaceBuyKeeps(s, w, accepted);
    case PersistBuy(w, ok) => PersistBuyKeeps(s, w, ok);
    case MarkBuy(w, ok) => MarkBuyKeeps(s, w, ok);
    case CancelBuy(w, ok) => CancelBuyKeeps(s, w, ok);
    case CommitExits(w, symbol, price, scan, next) => CommitExitsKeeps(s, w, symbol, price, scan, next);
    case CommitSell(w, parent, sig, id) => CommitSellKeeps(s, w, parent, sig, id);
    case PlaceSell(w, id, accepted) => PlaceSellKeeps(s, w, id, accepted);
    case PersistSell(w, ok) => PersistSellKeeps(s, w, ok);
    case MarkSell(w, ok) => MarkSellKeeps(s, w, ok);
    case UndoTrade(w, ok) => UndoTradeKeeps(s, w, ok);
    case UndoSignal(w, ok) => UndoSignalKeeps(s, w, ok);
    case TrackPeaks(symbol, price, scan) => TrackPeaksKeeps(s, symbol, price, scan);
    case ReadEvent(id, event, fill) => ReadEventKeeps(s, id, event, fill);
    case WriteEvent(ok) => WriteEventKeeps(s, ok);
    case _ => OutsideKeeps(s, a);
  }
}
