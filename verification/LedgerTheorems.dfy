/** What every run of the ledger keeps, whatever the interleaving and whichever calls fail. */
module LedgerTheorems {
  import opened Model
  import opened Database
  import opened Adaptive
  import opened Ledger
  import opened LedgerCore
  import opened LedgerNext
  import opened LedgerSteps
  import opened LedgerEffects
  import opened LedgerMoney
  import opened Reals
  import opened Sizing

  lemma {:induction false} Reachable(p: Params, workers: nat, actions: seq<Action>)
    ensures Inv(Run(Init(p, workers), actions))
  {
    InitInv(p, workers);
    RunKeepsInv(Init(p, workers), actions);
  }

  // ---- slots ----

  lemma {:induction false} SlotConservation(p: Params, workers: nat, actions: seq<Action>, t: nat)
    requires t in Run(Init(p, workers), actions).db.transfers
    ensures var s := Run(Init(p, workers), actions);
      && t in s.initial && s.initial[t].Some? == s.db.transfers[t].remaining.Some?
      && (s.initial[t].None? ==> LiveBuys(s.db.trades, t) == {})
      && (s.initial[t].Some? ==>
            && s.db.transfers[t].remaining.value + |LiveBuys(s.db.trades, t)| == s.initial[t].value
            && (s.initial[t].value >= 0 ==> s.db.transfers[t].remaining.value >= 0))
  {
    Reachable(p, workers, actions);
  }

  // ---- orders ----

  // Two sells of the same buy.
  predicate SameBuy(a: Accepted, b: Accepted) {
    a.side.Sell? && b.side.Sell? && a.parent == b.parent
  }

  // The broker accepts at most one sell for each buy, for exactly the buy's quantity.
  lemma {:induction false} NoDoubleSell(p: Params, workers: nat, actions: seq<Action>)
    ensures var s := Run(Init(p, workers), actions);
      && (forall o, q :: 0 <= o < |s.log| && 0 <= q < |s.log| && SameBuy(s.log[o], s.log[q]) ==> o == q)
      && (forall o :: 0 <= o < |s.log| && s.log[o].side.Sell? ==>
            && s.log[o].parent.Some? && s.log[o].parent.value in s.db.trades
            && s.log[o].quantity == s.db.trades[s.log[o].parent.value].quantity)
  {
    Reachable(p, workers, actions);
    var s := Run(Init(p, workers), actions);
    forall o, q | 0 <= o < |s.log| && 0 <= q < |s.log| && SameBuy(s.log[o], s.log[q]) ensures o == q {
      assert EntryOk(s.db.trades, o, s.log[o]) && EntryOk(s.db.trades, q, s.log[q]);
      assert Siblings(s.db.trades[s.log[o].trade], s.db.trades[s.log[q].trade]);
    }
    forall o | 0 <= o < |s.log| && s.log[o].side.Sell?
      ensures s.log[o].parent.Some? && s.log[o].parent.value in s.db.trades
      ensures s.log[o].quantity == s.db.trades[s.log[o].parent.value].quantity
    {
      assert EntryOk(s.db.trades, o, s.log[o]);
      assert SellsParent(s.db.trades, s.db.trades[s.log[o].trade]);
    }
  }

  lemma NextKeepsSettled(s: State, a: Action, id: nat)
    requires Core(s) && id in s.db.trades && s.db.trades[id].status.Terminal()
    ensures id in Next(s, a).db.trades && Next(s, a).db.trades[id].status == s.db.trades[id].status
  {
    hide Core, Next, ChangeOf, HasOpenPosition, SellsParent;
    NextEffect(s, a);
  }

  // A filled, cancelled or rejected row keeps its status and is never deleted.
  lemma {:induction false} TerminalAbsorbs(p: Params, workers: nat, before: seq<Action>, after: seq<Action>, id: nat)
    requires id in Run(Init(p, workers), before).db.trades && Run(Init(p, workers), before).db.trades[id].status.Terminal()
    ensures var s, s' := Run(Init(p, workers), before), Run(Run(Init(p, workers), before), after);
      id in s'.db.trades && s'.db.trades[id].status == s.db.trades[id].status
  {
    if after != [] {
      var front := after[..|after| - 1];
      TerminalAbsorbs(p, workers, before, front, id);
      Reachable(p, workers, before);
      RunKeepsInv(Run(Init(p, workers), before), front);
      NextKeepsSettled(Run(Run(Init(p, workers), before), front), after[|after| - 1], id);
    }
  }

  lemma NextKeepsBuy(s: State, a: Action, id: nat)
    requires Core(s) && id in s.db.trades && s.db.trades[id].side.Buy?
    ensures id in Next(s, a).db.trades && SameIdentity(s.db.trades[id], Next(s, a).db.trades[id])
  {
    hide Core, Next, ChangeOf, HasOpenPosition, SellsParent;
    NextEffect(s, a);
  }

  // A buy is never deleted, and its quantity, prices, transfer and signal never change, so a copy of it
  // read at any time stays a true copy of these.
  lemma {:induction false} BuyForever(p: Params, workers: nat, before: seq<Action>, after: seq<Action>, id: nat)
    requires id in Run(Init(p, workers), before).db.trades && Run(Init(p, workers), before).db.trades[id].side.Buy?
    ensures var s, s' := Run(Init(p, workers), before), Run(Run(Init(p, workers), before), after);
      id in s'.db.trades && SameIdentity(s.db.trades[id], s'.db.trades[id])
  {
    hide Next, Inv;
    if after != [] {
      var s, front := Run(Init(p, workers), before), after[..|after| - 1];
      BuyForever(p, workers, before, front, id);
      Reachable(p, workers, before);
      RunKeepsInv(s, front);
      InvIsCore(Run(s, front));
      NextKeepsBuy(Run(s, front), after[|after| - 1], id);
    }
  }

  lemma InvIsCore(s: State)
    requires Inv(s)
    ensures Core(s)
  {}

  // ---- exit monitoring ----

  // The consumer is about to write a status under which exits are not evaluated.
  ghost predicate Unmonitors(s: State, a: Action, id: nat) {
    a == WriteEvent(true) && s.consumer.Writing? && s.consumer.id == id
    && (s.consumer.status.Pending? || s.consumer.status.Refunds())
  }

  // A buy whose exits are evaluated leaves monitoring without a sell exactly when the consumer writes
  // it back as pending, cancelled or rejected, however much of it is filled.
  lemma LeavesMonitoringExactly(s: State, a: Action, id: nat, symbol: string)
    requires Core(s) && OpenBuy(s.db.trades, id, symbol)
    ensures !OpenBuy(Next(s, a).db.trades, id, symbol) && !HasSellChild(Next(s, a).db.trades, id) <==> Unmonitors(s, a, id)
  {
    hide Core, Next, ChangeOf, Effect, OpenBuy, HasSellChild;
    NextEffect(s, a);
    var c := ChangeOf(s, a);
    if c.Rewritten? && c.id == id {
      MonitoredRewrite(s, a, id, symbol);
    } else {
      StaysMonitored(s, Next(s, a), c, id, symbol);
      NotItsWrite(s, a, id);
    }
  }

  lemma StaysMonitored(s: State, s': State, c: Change, id: nat, symbol: string)
    requires Effect(s, s', c) && OpenBuy(s.db.trades, id, symbol) && !(c.Rewritten? && c.id == id)
    ensures OpenBuy(s'.db.trades, id, symbol) || HasSellChild(s'.db.trades, id)
  {
    hide HasOpenPosition, SellsParent, HasSellChild, DecrementRemaining, IncrementRemaining;
    assert id in s'.db.trades && s'.db.trades[id] == s.db.trades[id].(peak := s'.db.trades[id].peak);
  }

  lemma NotItsWrite(s: State, a: Action, id: nat)
    requires Core(s) && !(ChangeOf(s, a).Rewritten? && ChangeOf(s, a).id == id)
    ensures !(a == WriteEvent(true) && s.consumer.Writing? && s.consumer.id == id)
  {
    hide Core, CommitBuyChange, CommitExitsChange, CommitSellChange;
  }

  // Workers overwrite only pending rows; a monitored row is overwritten by the consumer alone.
  lemma MonitoredRewrite(s: State, a: Action, id: nat, symbol: string)
    requires Core(s) && OpenBuy(s.db.trades, id, symbol) && ChangeOf(s, a).Rewritten? && ChangeOf(s, a).id == id
    ensures !OpenBuy(Next(s, a).db.trades, id, symbol) && !HasSellChild(Next(s, a).db.trades, id) <==> Unmonitors(s, a, id)
  {
    hide Core, Next, ChangeOf, CommitBuyChange, HasOpenPosition, SellsParent, IncrementRemaining;
    NextEffect(s, a);
    OnlyConsumer(s, a);
    forall k | k in Next(s, a).db.trades ensures !SellOf(Next(s, a).db.trades[k], id) {
      if k != id { assert !SellOf(s.db.trades[k], id); }
    }
  }

  lemma OnlyConsumer(s: State, a: Action)
    requires Core(s) && ChangeOf(s, a).Rewritten? && ChangeOf(s, a).id in s.db.trades
    requires !s.db.trades[ChangeOf(s, a).id].status.Pending?
    ensures a == WriteEvent(true) && s.consumer.Writing? && s.consumer.id == ChangeOf(s, a).id
    ensures ChangeOf(s, a).row.status == s.consumer.status
  {
    hide Core, CommitBuyTx, BuyRow, StageSells, OpenBuys, InsertTrade, DeleteTrade, Reconciled;
    if a.WriteEvent? {
      ReconciledStatus(s.params, s.consumer.row, s.consumer.status, s.consumer.fill);
    } else {
      WorkerRowPending(s, a);
    }
  }

  lemma ReconciledStatus(p: Params, row: Trade, status: Status, fill: Fill)
    ensures Reconciled(p, row, status, fill).status == status
  {}

  lemma WorkerRowPending(s: State, a: Action)
    requires Core(s) && ChangeOf(s, a).Rewritten? && !a.WriteEvent?
    ensures ChangeOf(s, a).id in s.db.trades && s.db.trades[ChangeOf(s, a).id].status.Pending?
  {
    hide Core, CommitBuyTx, BuyRow, StageSells, OpenBuys, InsertTrade, DeleteTrade, Reconciled, Unlogged, RestOk;
    PcAt(s, a.w);
  }

  // A refunded buy is never monitored again: no exit pass will ever sell what was filled of it.
  lemma {:induction false} RefundedNeverMonitored(p: Params, workers: nat, before: seq<Action>, after: seq<Action>, id: nat, symbol: string)
    requires id in Run(Init(p, workers), before).db.trades && Run(Init(p, workers), before).db.trades[id].status.Refunds()
    ensures !OpenBuy(Run(Run(Init(p, workers), before), after).db.trades, id, symbol)
  {
    hide Run;
    TerminalAbsorbs(p, workers, before, after, id);
  }

  // ---- references and executed signals ----

  lemma {:induction false} ReferenceIntegrity(p: Params, workers: nat, actions: seq<Action>, id: nat)
    requires id in Run(Init(p, workers), actions).db.trades
    ensures var db := Run(Init(p, workers), actions).db; var row := db.trades[id];
      && row.signal.Some? && row.signal.value in db.signals
      && row.transfer.Some? && row.transfer.value in db.transfers
      && (row.side.Sell? ==> row.parent.Some? && row.parent.value in db.trades)
  {
    Reachable(p, workers, actions);
    assert RefsOk(Run(Init(p, workers), actions).db, Run(Init(p, workers), actions).db.trades[id]);
  }

  // A signal marked executed belongs to a trade whose order the broker accepted.
  lemma ExecutedIsAccepted(p: Params, workers: nat, actions: seq<Action>, sig: nat) returns (o: nat)
    requires sig in Run(Init(p, workers), actions).db.signals && Run(Init(p, workers), actions).db.signals[sig].executed
    ensures var s := Run(Init(p, workers), actions);
      o < |s.log| && s.log[o].trade in s.db.trades && s.db.trades[s.log[o].trade].signal == Some(sig)
  {
    Reachable(p, workers, actions);
    var s := Run(Init(p, workers), actions);
    assert Backed(s.log, sig);
    o :| o < |s.log| && s.log[o].signal == Some(sig);
    assert EntryOk(s.db.trades, o, s.log[o]);
  }

  lemma BackedNotDeletable(s: State, sig: nat)
    requires Core(s) && Backed(s.log, sig)
    ensures DeleteSignal(s.db, sig).Err?
  {
    var o :| 0 <= o < |s.log| && s.log[o].signal == Some(sig);
    assert EntryOk(s.db.trades, o, s.log[o]);
    assert s.db.trades[s.log[o].trade].signal == Some(sig);
  }

  lemma NextKeepsExecuted(s: State, a: Action, sig: nat)
    requires Core(s) && sig in s.db.signals && s.db.signals[sig].executed
    ensures sig in Next(s, a).db.signals && Next(s, a).db.signals[sig].executed
  {
    BackedNotDeletable(s, sig);
    SignalsMoves(s, a, sig);
  }

  // The only way a signal row disappears is its guarded delete.
  lemma SignalsMoves(s: State, a: Action, sig: nat)
    requires sig in s.db.signals && DeleteSignal(s.db, sig).Err?
    ensures sig in Next(s, a).db.signals && (s.db.signals[sig].executed ==> Next(s, a).db.signals[sig].executed)
  {
    hide Next, DeleteSignal;
    match a
    case CommitExits(_, _, _, _, _) => SellSignals(s, a, sig);
    case CommitSell(_, _, _, _) => SellSignals(s, a, sig);
    case PlaceSell(_, _, _) => SellSignals(s, a, sig);
    case PersistSell(_, _) => SellSignals(s, a, sig);
    case MarkSell(_, _) => SettledSignals(s, a, sig);
    case UndoTrade(_, _) => SellSignals(s, a, sig);
    case UndoSignal(_, _) => SettledSignals(s, a, sig);
    case WriteEvent(_) => OutsideSignals(s, a, sig);
    case AddTransfer(_, _) => OutsideSignals(s, a, sig);
    case AddSignal(_, _) => OutsideSignals(s, a, sig);
    case ReadEvent(_, _, _) => OutsideSignals(s, a, sig);
    case TrackPeaks(_, _, _) => OutsideSignals(s, a, sig);
    case Abandon(_) => OutsideSignals(s, a, sig);
    case AbandonConsumer => OutsideSignals(s, a, sig);
    case _ => BuySignals(s, a, sig);
  }

  lemma OutsideSignals(s: State, a: Action, sig: nat)
    requires sig in s.db.signals
    requires a.WriteEvent? || a.AddTransfer? || a.AddSignal? || a.ReadEvent? || a.TrackPeaks? || a.Abandon? || a.AbandonConsumer?
    ensures sig in Next(s, a).db.signals && Next(s, a).db.signals[sig] == s.db.signals[sig]
  {
    hide NextBuy, NextSell, Clashes, OpenBuys, RaisePeaks, Reconciled, KeysOk, HasOpenPosition, OpenPosition;
  }

  lemma {:induction false} StageSignals(db: Tables, fetched: seq<Fetched>, price: real, next: nat, sig: nat)
    requires sig in db.signals
    ensures var r := StageSells(db, fetched, price, next);
      r.Ok? ==> sig in r.value.db.signals && r.value.db.signals[sig] == db.signals[sig]
  {
    if fetched != [] { StageSignals(db, fetched[..|fetched| - 1], price, next, sig); }
  }

  lemma SellSignals(s: State, a: Action, sig: nat)
    requires sig in s.db.signals
    requires a.CommitExits? || a.CommitSell? || a.PlaceSell? || a.PersistSell? || a.UndoTrade?
    ensures sig in Next(s, a).db.signals && Next(s, a).db.signals[sig] == s.db.signals[sig]
  {
    hide OpenBuys, StageSells, Clashes, DeleteSignal, MarkExecuted;
    if a.CommitExits? {
      StageSignals(s.db, OpenBuys(s.db.trades, a.symbol, a.scan), a.price, a.next, sig);
    }
  }

  lemma SettledSignals(s: State, a: Action, sig: nat)
    requires sig in s.db.signals && DeleteSignal(s.db, sig).Err?
    requires a.MarkSell? || a.UndoSignal?
    ensures sig in Next(s, a).db.signals && (s.db.signals[sig].executed ==> Next(s, a).db.signals[sig].executed)
  {
    hide StageSells, InsertTrade, UpdateTrade, DeleteTrade, OpenBuys, Reexposed, NextBuy, NextEvent;
  }

  lemma BuySignals(s: State, a: Action, sig: nat)
    requires sig in s.db.signals
    requires a.PassGate? || a.CreateBuySignal? || a.FindBudget? || a.CommitBuy? || a.PlaceBuy? || a.PersistBuy? || a.MarkBuy? || a.CancelBuy?
    ensures sig in Next(s, a).db.signals && (s.db.signals[sig].executed ==> Next(s, a).db.signals[sig].executed)
  {
    hide Next, BuyRow, CommitBuyTx, UpdateTrade, WriteStatusTx;
    match a
    case CommitBuy(w, id) => CommitBuySignals(s, w, id);
    case PersistBuy(w, ok) =>
      if w < |s.pcs| && s.pcs[w].BuyPersisting? {
        PersistBuyStep(s, w, s.pcs[w].id, s.pcs[w].row, ok);
        TradeTxSignals(s.db, s.pcs[w].id, s.pcs[w].row);
      } else {
        NotEnabled(s, a);
      }
    case CancelBuy(w, ok) =>
      if w < |s.pcs| && s.pcs[w].BuyCancelling? {
        CancelStep(s, w, s.pcs[w].id, s.pcs[w].row, ok);
        TradeTxSignals(s.db, s.pcs[w].id, s.pcs[w].row);
      } else {
        NotEnabled(s, a);
      }
    case MarkBuy(w, ok) =>
      if w < |s.pcs| && s.pcs[w].BuyMarking? { MarkBuyStep(s, w, s.pcs[w].sig, ok); } else { NotEnabled(s, a); }
    case _ => EntrySignals(s, a, sig);
  }

  lemma CommitBuySignals(s: State, w: nat, id: nat)
    ensures Next(s, CommitBuy(w, id)).db.signals == s.db.signals
  {
    hide Next, BuyRow, CommitBuyTx;
    if w < |s.pcs| && s.pcs[w].Budgeted? {
      var pc := s.pcs[w];
      BoughtEntry(s.params, pc.sig, pc.signal, pc.budget, pc.account);
      var r := BuyRow(s.params, pc.sig, pc.signal, pc.budget, pc.account);
      if r.Ok? && r.value.Some? && CommitBuyTx(s.db, id, r.value.value).Ok? {
        CommitBuyStep(s, w, id, r.value.value);
        TradeTxSignals(s.db, id, r.value.value);
      } else {
        NoBuyStep(s, w, id);
      }
    } else {
      NotEnabled(s, CommitBuy(w, id));
    }
  }

  lemma EntrySignals(s: State, a: Action, sig: nat)
    requires sig in s.db.signals && (a.PassGate? || a.CreateBuySignal? || a.FindBudget? || a.PlaceBuy?)
    ensures sig in Next(s, a).db.signals && Next(s, a).db.signals[sig] == s.db.signals[sig]
  {
    hide HasOpenPosition, AvailableBudget, BuyRow, CommitBuyTx, UpdateTrade, WriteStatusTx, MarkExecuted;
  }

  // The transactions on trades leave the signals alone.
  lemma TradeTxSignals(db: Tables, id: nat, row: Trade)
    ensures UpdateTrade(db, id, row).Ok? ==> UpdateTrade(db, id, row).value.signals == db.signals
    ensures WriteStatusTx(db, id, row).Ok? ==> WriteStatusTx(db, id, row).value.signals == db.signals
    ensures row.transfer.Some? && CommitBuyTx(db, id, row).Ok? ==> CommitBuyTx(db, id, row).value.signals == db.signals
  {
    hide HasOpenPosition, Clashes, KeysOk;
  }

  lemma {:induction false} ExecutedForever(p: Params, workers: nat, before: seq<Action>, after: seq<Action>, sig: nat)
    requires sig in Run(Init(p, workers), before).db.signals && Run(Init(p, workers), before).db.signals[sig].executed
    ensures var s' := Run(Run(Init(p, workers), before), after); sig in s'.db.signals && s'.db.signals[sig].executed
  {
    if after != [] {
      var front := after[..|after| - 1];
      ExecutedForever(p, workers, before, front, sig);
      Reachable(p, workers, before);
      RunKeepsInv(Run(Init(p, workers), before), front);
      NextKeepsExecuted(Run(Run(Init(p, workers), before), front), after[|after| - 1], sig);
    }
  }

  // ---- positions ----

  lemma {:induction false} PositionBound(p: Params, workers: nat, actions: seq<Action>, symbol: string)
    ensures var s := Run(Init(p, workers), actions); |OpenPositions(s.db.trades, symbol)| <= 1 + s.undone[symbol]
  {
    Reachable(p, workers, actions);
  }

  predicate IsCleanupDelete(a: Action) { a.UndoTrade? && a.ok }

  lemma {:induction false} NothingUndone(p: Params, workers: nat, actions: seq<Action>)
    requires forall i :: 0 <= i < |actions| ==> !IsCleanupDelete(actions[i])
    ensures Run(Init(p, workers), actions).undone == multiset{}
  {
    if actions != [] {
      var front, last := actions[..|actions| - 1], actions[|actions| - 1];
      NothingUndone(p, workers, front);
      Reachable(p, workers, front);
      assert !IsCleanupDelete(last);
      UndoneStays(Run(Init(p, workers), front), last);
    }
  }

  lemma UndoneStays(s: State, a: Action)
    requires Core(s) && !IsCleanupDelete(a)
    ensures Next(s, a).undone == s.undone && Next(s, a).params == s.params
  {
    hide Next, Core;
    NextEffect(s, a);
    assert !ChangeOf(s, a).Deleted?;
  }

  // Without a successful cleanup delete there is never a second position in a symbol.
  lemma {:induction false} OnePosition(p: Params, workers: nat, actions: seq<Action>, symbol: string)
    requires forall i :: 0 <= i < |actions| ==> !IsCleanupDelete(actions[i])
    ensures |OpenPositions(Run(Init(p, workers), actions).db.trades, symbol)| <= 1
  {
    NothingUndone(p, workers, actions);
    PositionBound(p, workers, actions, symbol);
  }

  // The buy a worker's cleanup delete would re-expose is live and in `symbol`.
  ghost predicate Reexposes(s: State, a: Action, symbol: string) {
    && a.UndoTrade? && a.ok && a.w < |s.pcs| && s.pcs[a.w].SellUndoTrade?
    && DeleteTrade(s.db, s.pcs[a.w].id).Ok?
    && var parent := s.pcs[a.w].row.parent;
       parent.Some? && parent.value in s.db.trades
       && s.db.trades[parent.value].side.Buy? && s.db.trades[parent.value].status.Live() && s.db.trades[parent.value].symbol == symbol
  }

  // From a state with at most one position, an action opens a second one exactly when it is a
  // cleanup delete that re-exposes a live buy while another position of the symbol is open.
  lemma SecondPositionExactly(s: State, a: Action, symbol: string)
    requires Inv(s) && |OpenPositions(s.db.trades, symbol)| <= 1
    ensures |OpenPositions(Next(s, a).db.trades, symbol)| > 1
       <==> Reexposes(s, a, symbol) && OpenPositions(s.db.trades, symbol) != {}
  {
    hide Next, Core, OpenPositions, Effect, ChangeOf;
    if ChangeOf(s, a).Deleted? {
      SecondAfterDelete(s, a, symbol);
    } else {
      NextEffect(s, a);
      NoSecondWithoutDelete(s, Next(s, a), ChangeOf(s, a), symbol);
      ReexposingDeletes(s, a, symbol);
    }
  }

  lemma ReexposingDeletes(s: State, a: Action, symbol: string)
    ensures Reexposes(s, a, symbol) ==> ChangeOf(s, a).Deleted?
  {
    hide DeleteTrade;
  }

  lemma NoSecondWithoutDelete(s: State, s': State, c: Change, symbol: string)
    requires Effect(s, s', c) && !c.Deleted? && |OpenPositions(s.db.trades, symbol)| <= 1
    ensures |OpenPositions(s'.db.trades, symbol)| <= 1
  {
    var old_, new_ := OpenPositions(s.db.trades, symbol), OpenPositions(s'.db.trades, symbol);
    if c.Bought? {
      PositionsAfterBuy(s.db.trades, c.id, c.row, symbol);
      SubsetSize(new_, old_ + (if c.row.symbol == symbol then {c.id} else {}));
      if c.row.symbol == symbol { assert old_ == {}; }
    } else {
      PositionsShrink(s, s', c, symbol);
      SubsetSize(new_, old_);
    }
  }

  // Deleting a sell re-opens its buy, if that is still live, and nothing else.
  lemma DeleteReopens(trades: Trades, id: nat, parent: nat, symbol: string)
    requires OneSell(trades) && id in trades && parent in trades && SellOf(trades[id], parent)
    ensures parent !in OpenPositions(trades, symbol)
    ensures OpenPositions(trades - {id}, symbol) == OpenPositions(trades, symbol)
      + (if trades[parent].side.Buy? && trades[parent].status.Live() && trades[parent].symbol == symbol then {parent} else {})
  {
    var left := trades - {id};
    PositionsAfterDelete(trades, id, parent, symbol);
    forall k | OpenPosition(trades, k, symbol) ensures OpenPosition(left, k, symbol) {
      assert trades[k].side.Buy? && k != id;
      forall c | c in left ensures !SellOf(left[c], k) { assert !SellOf(trades[c], k); }
    }
    forall c | c in left ensures !SellOf(left[c], parent) { NoTwin(trades, id, parent, c); }
    assert !HasSellChild(left, parent);
    if trades[parent].side.Buy? { assert parent != id && parent in left; }
  }

  lemma NoTwin(trades: Trades, id: nat, parent: nat, c: nat)
    requires OneSell(trades) && id in trades && SellOf(trades[id], parent) && c in trades && c != id
    ensures !SellOf(trades[c], parent)
  {
    assert !Siblings(trades[c], trades[id]);
  }

  lemma SecondAfterDelete(s: State, a: Action, symbol: string)
    requires Core(s) && |OpenPositions(s.db.trades, symbol)| <= 1 && ChangeOf(s, a).Deleted?
    ensures |OpenPositions(Next(s, a).db.trades, symbol)| > 1
       <==> Reexposes(s, a, symbol) && OpenPositions(s.db.trades, symbol) != {}
  {
    hide ChangeOf, Next, OpenPosition, Owned, EntryOk, OrderLogged, PcOk;
    var id := ChangeOf(s, a).id;
    DeletedRow(s, a);
    DeleteReopens(s.db.trades, id, s.pcs[a.w].row.parent.value, symbol);
  }

  // A delete removes the worker's own sell.
  lemma DeletedRow(s: State, a: Action)
    requires Core(s) && ChangeOf(s, a).Deleted?
    ensures a.UndoTrade? && a.ok && a.w < |s.pcs| && s.pcs[a.w].SellUndoTrade? && DeleteTrade(s.db, s.pcs[a.w].id).Ok?
    ensures var id := s.pcs[a.w].id;
      && ChangeOf(s, a).id == id && id in s.db.trades && s.db.trades[id] == s.pcs[a.w].row
      && s.pcs[a.w].row.side.Sell? && s.pcs[a.w].row.parent.Some? && s.pcs[a.w].row.parent.value in s.db.trades
      && Next(s, a).db.trades == s.db.trades - {id}
  {
    hide StageSells, OpenBuys, CommitBuyTx, BuyRow, InsertTrade, UpdateTrade, EntryOk, OrderLogged, Owned;
    assert PcOk(s.db.trades, s.log, s.pcs[a.w]);
    assert RefsOk(s.db, s.db.trades[s.pcs[a.w].id]);
  }

  // ---- capital and risk ----

  ghost function Pick(ids: set<nat>): nat
    requires ids != {}
  {
    var id :| id in ids; id
  }

  ghost function Total(ids: set<nat>, f: nat -> real): real {
    if ids == {} then 0.0 else f(Pick(ids)) + Total(ids - {Pick(ids)}, f)
  }

  lemma {:induction false} TotalBound(ids: set<nat>, f: nat -> real, bound: real)
    requires forall id :: id in ids ==> f(id) <= bound
    ensures Total(ids, f) <= Times(|ids|, bound)
  {
    hide Times;
    if ids == {} {
      TimesZero(bound);
    } else {
      TotalBound(ids - {Pick(ids)}, f, bound);
      assert |ids| == |ids - {Pick(ids)}| + 1;
      TimesNext(|ids|, bound);
    }
  }

  function Cost(trades: Trades, id: nat): real {
    if id in trades && trades[id].price.Some? then trades[id].quantity * trades[id].price.value else 0.0
  }

  function Risk(trades: Trades, id: nat): real {
    if id in trades && trades[id].price.Some? && trades[id].stopLoss.Some? then
      trades[id].quantity * (trades[id].price.value - trades[id].stopLoss.value)
    else 0.0
  }

  function CostIn(trades: Trades): nat -> real { (id: nat) => Cost(trades, id) }

  function RiskIn(trades: Trades): nat -> real { (id: nat) => Risk(trades, id) }

  ghost function Exposure(trades: Trades, t: nat): real {
    Total(LiveBuys(trades, t), CostIn(trades))
  }

  ghost function RiskHeld(trades: Trades, t: nat): real {
    Total(LiveBuys(trades, t), RiskIn(trades))
  }

  lemma LiveSized(s: State, t: nat, id: nat)
    requires Sized(s) && t in s.db.transfers && id in LiveBuys(s.db.trades, t)
    ensures SizedOk(s.params, s.db.transfers[t], s.db.trades[id])
  {
    assert RowSized(s.params, s.db, s.db.trades[id]);
  }

  // Live buys of a transfer cost at most their slots' share of its amount.
  lemma CapitalPerSlot(s: State, t: nat)
    requires Sized(s) && t in s.db.transfers
    ensures var account := s.db.transfers[t]; var live := |LiveBuys(s.db.trades, t)|;
      live > 0 ==>
        account.targetTrades != 0
        && Exposure(s.db.trades, t) <= Times(live, Share(account))
  {
    hide Sized, LiveBuys, SizedOk;
    var account, live := s.db.transfers[t], LiveBuys(s.db.trades, t);
    if live != {} {
      CostFits(s, t, Pick(live));
      forall id | id in live ensures CostIn(s.db.trades)(id) <= Share(account) {
        CostFits(s, t, id);
      }
      TotalBound(live, CostIn(s.db.trades), Share(account));
    }
  }

  // One slot's share of a transfer's amount.
  function Share(account: Transfer): real
    requires account.targetTrades != 0
  {
    account.amountUSD / account.targetTrades as real
  }

  lemma CostFits(s: State, t: nat, id: nat)
    requires Sized(s) && t in s.db.transfers && id in LiveBuys(s.db.trades, t)
    ensures s.db.transfers[t].targetTrades != 0 && Cost(s.db.trades, id) <= Share(s.db.transfers[t])
  {
    hide Sized;
    LiveSized(s, t, id);
  }

  lemma ShareBound(live: nat, target: int, amount: real)
    requires live <= target && target > 0 && amount >= 0.0
    ensures Times(live, amount / target as real) <= amount
  {
    var share := amount / target as real;
    assert share * target as real == amount;
    assert share >= 0.0;
    assert live as real * share <= target as real * share;
  }

  // The transfer was funded with at most as many slots as its target.
  predicate FundedWithin(s: State, t: nat) {
    && t in s.db.transfers && t in s.initial && s.db.transfers[t].amountUSD >= 0.0
    && (s.initial[t].Some? ==> 0 <= s.initial[t].value <= s.db.transfers[t].targetTrades)
  }

  lemma CapitalInv(s: State, t: nat)
    requires Inv(s) && FundedWithin(s, t)
    ensures Exposure(s.db.trades, t) <= s.db.transfers[t].amountUSD
  {
    hide Core, Positions, Sized, Matched;
    var account, live := s.db.transfers[t], LiveBuys(s.db.trades, t);
    assert SlotOk(s.initial[t], account.remaining, |live|);
    CapitalPerSlot(s, t);
    if live != {} { ShareBound(|live|, account.targetTrades, account.amountUSD); }
  }

  // When the initial slots do not exceed the target, live buys cost at most the whole amount.
  lemma {:induction false} CapitalBound(p: Params, workers: nat, actions: seq<Action>, t: nat)
    requires FundedWithin(Run(Init(p, workers), actions), t)
    ensures Exposure(Run(Init(p, workers), actions).db.trades, t) <= Run(Init(p, workers), actions).db.transfers[t].amountUSD
  {
    Reachable(p, workers, actions);
    CapitalInv(Run(Init(p, workers), actions), t);
  }

  // Funded with a non-negative amount, every live buy signalled at a positive price.
  predicate PositivePrices(s: State, t: nat) {
    && t in s.db.transfers && s.db.transfers[t].amountUSD >= 0.0 && s.params.riskPct >= 0.0
    && forall id | id in LiveBuys(s.db.trades, t) :: s.db.trades[id].price.Some? ==> s.db.trades[id].price.value > 0.0
  }

  lemma RiskEach(s: State, t: nat, id: nat)
    requires Sized(s) && PositivePrices(s, t) && id in LiveBuys(s.db.trades, t)
    ensures Risk(s.db.trades, id) <= AtRisk(s.params, s.db.transfers[t].amountUSD)
  {
    hide Sized, AtRisk;
    LiveSized(s, t, id);
  }

  lemma RiskInv(s: State, t: nat)
    requires Sized(s) && PositivePrices(s, t)
    ensures RiskHeld(s.db.trades, t) <= Times(|LiveBuys(s.db.trades, t)|, AtRisk(s.params, s.db.transfers[t].amountUSD))
  {
    forall id | id in LiveBuys(s.db.trades, t) ensures RiskIn(s.db.trades)(id) <= AtRisk(s.params, s.db.transfers[t].amountUSD) {
      RiskEach(s, t, id);
    }
    TotalBound(LiveBuys(s.db.trades, t), RiskIn(s.db.trades), AtRisk(s.params, s.db.transfers[t].amountUSD));
  }

  // Live buys of a transfer risk at most the configured fraction of its amount each.
  lemma {:induction false} RiskTotal(p: Params, workers: nat, actions: seq<Action>, t: nat)
    requires PositivePrices(Run(Init(p, workers), actions), t)
    ensures var s := Run(Init(p, workers), actions);
      RiskHeld(s.db.trades, t) <= Times(|LiveBuys(s.db.trades, t)|, AtRisk(p, s.db.transfers[t].amountUSD))
  {
    Reachable(p, workers, actions);
    RunParams(Init(p, workers), actions);
    RiskInv(Run(Init(p, workers), actions), t);
  }

  // ---- the settings ----

  lemma ParamsStay(s: State, a: Action)
    ensures Next(s, a).params == s.params
  {
    hide StageSells, OpenBuys, HasOpenPosition, BuyRow, CommitBuyTx, InsertTrade, UpdateTrade, DeleteTrade, WriteStatusTx, RaisePeaks;
  }

  lemma {:induction false} RunParams(s: State, actions: seq<Action>)
    ensures Run(s, actions).params == s.params
  {
    hide Next;
    if actions != [] {
      RunParams(s, actions[..|actions| - 1]);
      ParamsStay(Run(s, actions[..|actions| - 1]), actions[|actions| - 1]);
    }
  }

  // ---- the stored peak ----

  predicate Lowered(before: Option<real>, after: Option<real>) {
    before.Some? && (after.None? || after.value < before.value)
  }

  // A stored peak falls exactly when the consumer writes back a copy with a lower peak than the row.
  lemma PeakFallsExactly(s: State, a: Action, id: nat)
    requires Core(s) && id in s.db.trades
    ensures id in Next(s, a).db.trades ==>
      (Lowered(s.db.trades[id].peak, Next(s, a).db.trades[id].peak)
       <==> a == WriteEvent(true) && s.consumer.Writing? && s.consumer.id == id && Lowered(s.db.trades[id].peak, s.consumer.row.peak))
  {
    hide Core, Next, ChangeOf, Effect;
    NextEffect(s, a);
    if id in Next(s, a).db.trades { PeakAfter(s, a, Next(s, a), ChangeOf(s, a), id); }
  }

  lemma PeakAfter(s: State, a: Action, s': State, c: Change, id: nat)
    requires Core(s) && s' == Next(s, a) && c == ChangeOf(s, a) && Effect(s, s', c)
    requires id in s.db.trades && id in s'.db.trades
    ensures Lowered(s.db.trades[id].peak, s'.db.trades[id].peak)
       <==> a == WriteEvent(true) && s.consumer.Writing? && s.consumer.id == id && Lowered(s.db.trades[id].peak, s.consumer.row.peak)
  {
    hide Core, Next, ChangeOf, HasOpenPosition, SellsParent;
    if c.Rewritten? {
      RewrittenPeak(s, a);
    } else {
      NotWriting(s, a);
      if c.PeaksMoved? {
        TrackedPeak(s, a, id);
      } else {
        UntouchedRow(s, s', c, id);
      }
    }
  }

  lemma NotWriting(s: State, a: Action)
    requires !ChangeOf(s, a).Rewritten?
    ensures !(a == WriteEvent(true) && s.consumer.Writing?)
  {}

  lemma UntouchedRow(s: State, s': State, c: Change, id: nat)
    requires Effect(s, s', c) && !c.Rewritten? && !c.PeaksMoved? && id in s.db.trades && id in s'.db.trades
    ensures s'.db.trades[id] == s.db.trades[id]
  {}

  lemma TrackedPeak(s: State, a: Action, id: nat)
    requires ChangeOf(s, a).PeaksMoved? && id in s.db.trades
    ensures id in Next(s, a).db.trades && !Lowered(s.db.trades[id].peak, Next(s, a).db.trades[id].peak)
  {
    assert a.TrackPeaks?;
  }

  // Only the consumer's whole-row overwrite can store a different peak.
  lemma RewrittenPeak(s: State, a: Action)
    requires Core(s) && ChangeOf(s, a).Rewritten? && ChangeOf(s, a).id in s.db.trades
    ensures a.WriteEvent? ==> a == WriteEvent(true) && s.consumer.Writing? && s.consumer.id == ChangeOf(s, a).id
    ensures ChangeOf(s, a).row.peak == if a.WriteEvent? then s.consumer.row.peak else s.db.trades[ChangeOf(s, a).id].peak
  {
    hide StageSells, InsertTrade, DeleteTrade, CommitBuyTx, BuyRow, EntryOk, OrderLogged, RefsOk, Owned, Unlogged;
    if !a.WriteEvent? {
      assert PcOk(s.db.trades, s.log, s.pcs[a.w]);
    }
  }
}
