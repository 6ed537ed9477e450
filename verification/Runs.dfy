/** The service's calls are runs of the ledger machine, so what every run keeps holds of them. */
module Runs {
  import opened Model
  import opened Database
  import opened Ledger
  import opened LedgerNext
  import opened LedgerCore
  import opened Calls
  import Mapper

  lemma {:induction false} RunSnoc(s: State, actions: seq<Action>, a: Action)
    ensures Run(s, actions + [a]) == Next(Run(s, actions), a)
  {
    hide Next;
    assert (actions + [a])[..|actions|] == actions;
  }

  lemma {:induction false} RunConcat(s: State, xs: seq<Action>, ys: seq<Action>)
    ensures Run(s, xs + ys) == Run(Run(s, xs), ys)
  {
    hide Next;
    if ys == [] {
      assert xs + ys == xs;
    } else {
      var front, last := ys[..|ys| - 1], ys[|ys| - 1];
      RunConcat(s, xs, front);
      assert xs + ys == (xs + front) + [last];
      RunSnoc(s, xs + front, last);
    }
  }

  // The machine and the world agree on the tables and on the accepted orders.
  ghost predicate Agree(s: State, v: World) { s.db == v.db && s.log == v.log }

  lemma {:induction false} Run1(s: State, a: Action)
    ensures Run(s, [a]) == Next(s, a)
  {
    hide Next;
    RunSnoc(s, [], a);
    assert [] + [a] == [a];
  }

  lemma {:induction false} Run2(s: State, a: Action, b: Action)
    ensures Run(s, [a, b]) == Next(Next(s, a), b)
  {
    hide Next;
    Run1(s, a);
    assert [a, b] == [a] + [b];
    RunSnoc(s, [a], b);
  }

  lemma {:induction false} Run3(s: State, a: Action, b: Action, c: Action)
    ensures Run(s, [a, b, c]) == Next(Next(Next(s, a), b), c)
  {
    hide Next, Run;
    Run2(s, a, b);
    assert [a, b, c] == [a, b] + [c];
    RunSnoc(s, [a, b], c);
  }

  // ---- buys ----

  // The program point from which ExecuteBuyTrade starts.
  ghost predicate AboutToBuy(s: State, w: nat, sig: nat, signal: Signal, budget: nat, account: Transfer) {
    w < |s.pcs| && s.pcs[w] == Budgeted(sig, signal, budget, account)
  }

  lemma BuyCallIsRun(s: State, v: World, w: nat, sig: nat, signal: Signal, budget: nat, account: Transfer) returns (actions: seq<Action>)
    requires Agree(s, v) && AboutToBuy(s, w, sig, signal, budget, account)
    ensures Agree(Run(s, actions), ExecuteBuyTrade(v, s.params, sig, signal, Some((budget, account))).0)
    ensures |Run(s, actions).pcs| == |s.pcs| && Run(s, actions).pcs[w].Idle?
  {
    hide Next, CommitBuyTx, BuyRow, SettleBuy;
    var sized := BuyRow(s.params, sig, signal, budget, account);
    if sized.Err? || sized.value.None? || Head(v.faults) || CommitBuyTx(v.db, v.next, sized.value.value).Err? {
      actions := [Abandon(w)];
      Run1(s, Abandon(w));
      LeaveStep(s, w);
    } else {
      BuyRowSignal(s.params, sig, signal, budget, account);
      actions := CommittedBuyIsRun(s, v.(next := v.next + 1), w, v.next, sized.value.value, sig);
    }
  }

  lemma BuyRowSignal(p: Params, sig: nat, signal: Signal, budget: nat, account: Transfer)
    ensures var r := BuyRow(p, sig, signal, budget, account); r.Ok? && r.value.Some? ==> r.value.value.signal == Some(sig)
  {}

  // One transaction or statement of the world is one action of the machine.
  lemma CommitAgrees(s: State, v: World, r: Result<Tables>, s': State)
    requires Agree(s, v) && s'.log == s.log && s'.db == Try(s.db, !Head(v.faults), r)
    ensures Agree(s', Commit(v, r).0)
  {}

  // The order is placed: accepted or refused, then everything that follows.
  lemma PlacedBuyIsRun(s: State, v: World, w: nat, id: nat, row: Trade, sig: nat) returns (actions: seq<Action>)
    requires Agree(s, v) && w < |s.pcs| && s.pcs[w] == BuyPlacing(id, row) && row.signal == Some(sig)
    ensures Agree(Run(s, actions), SettleBuy(v, id, row, sig).0)
    ensures |Run(s, actions).pcs| == |s.pcs| && Run(s, actions).pcs[w].Idle?
  {
    if Head(v.refusals) {
      actions := RefusedBuyIsRun(s, v, w, id, row, sig);
    } else {
      actions := AcceptedBuyIsRun(s, v, w, id, row, sig);
    }
  }

  lemma RefusedBuyIsRun(s: State, v: World, w: nat, id: nat, row: Trade, sig: nat) returns (actions: seq<Action>)
    requires Agree(s, v) && w < |s.pcs| && s.pcs[w] == BuyPlacing(id, row) && Head(v.refusals)
    ensures Agree(Run(s, actions), SettleBuy(v, id, row, sig).0)
    ensures |Run(s, actions).pcs| == |s.pcs| && Run(s, actions).pcs[w].Idle?
  {
    hide Next, WriteStatusTx;
    var v1 := Place(v, OrderFor(id, row)).0;
    var ok, row' := !Head(v1.faults), row.(status := Cancelled);
    actions := [PlaceBuy(w, false)] + [CancelBuy(w, ok)];
    Run1(s, PlaceBuy(w, false));
    RunSnoc(s, [PlaceBuy(w, false)], CancelBuy(w, ok));
    var s1 := Next(s, PlaceBuy(w, false));
    PlaceBuyStep(s, w, id, row, false);
    CancelStep(s1, w, id, row', ok);
    CommitAgrees(s1, v1, WriteStatusTx(s1.db, id, row'), Next(s1, CancelBuy(w, ok)));
  }

  lemma AcceptedBuyIsRun(s: State, v: World, w: nat, id: nat, row: Trade, sig: nat) returns (actions: seq<Action>)
    requires Agree(s, v) && w < |s.pcs| && s.pcs[w] == BuyPlacing(id, row) && row.signal == Some(sig) && !Head(v.refusals)
    ensures Agree(Run(s, actions), SettleBuy(v, id, row, sig).0)
    ensures |Run(s, actions).pcs| == |s.pcs| && Run(s, actions).pcs[w].Idle?
  {
    hide Next, UpdateTrade, MarkExecuted;
    var v1 := Place(v, OrderFor(id, row)).0;
    var ok1, ok2 := !Head(v1.faults), !Head(Tail(v1.faults));
    actions := [PlaceBuy(w, true), PersistBuy(w, ok1), MarkBuy(w, ok2)];
    Run3(s, PlaceBuy(w, true), PersistBuy(w, ok1), MarkBuy(w, ok2));
    var s1 := Next(s, PlaceBuy(w, true));
    var row' := row.(order := Some(|s.log|));
    PlaceBuyStep(s, w, id, row, true);
    PersistBuyStep(s1, w, id, row', ok1);
    var s2, v2 := Next(s1, PersistBuy(w, ok1)), Commit(v1, UpdateTrade(v1.db, id, row')).0;
    CommitAgrees(s1, v1, UpdateTrade(s1.db, id, row'), s2);
    MarkBuyStep(s2, w, sig, ok2);
    CommitAgrees(s2, v2, Ok(MarkExecuted(s2.db, sig)), Next(s2, MarkBuy(w, ok2)));
  }

  lemma CommittedBuyIsRun(s: State, v: World, w: nat, id: nat, row: Trade, sig: nat) returns (actions: seq<Action>)
    requires Agree(s, v) && w < |s.pcs| && s.pcs[w].Budgeted? && row.signal == Some(sig)
    requires BuyRow(s.params, s.pcs[w].sig, s.pcs[w].signal, s.pcs[w].budget, s.pcs[w].account) == Ok(Some(row))
    requires !Head(v.faults) && CommitBuyTx(v.db, id, row).Ok?
    ensures Agree(Run(s, actions), PlaceBuyOrder(v, id, row, sig).0)
    ensures |Run(s, actions).pcs| == |s.pcs| && Run(s, actions).pcs[w].Idle?
  {
    hide CommitBuyTx, BuyRow, SettleBuy;
    var commit := CommitBuy(w, id);
    var v1 := Commit(v, CommitBuyTx(v.db, id, row)).0;
    Run1(s, commit);
    assert Next(s, commit) == Goto(s, w, BuyPlacing(id, row)).(db := v1.db);
    var rest := PlacedBuyIsRun(Next(s, commit), v1, w, id, row, sig);
    actions := [commit] + rest;
    RunConcat(s, [commit], rest);
    assert PlaceBuyOrder(v, id, row, sig).0 == SettleBuy(v1, id, row, sig).0;
  }

  // ---- exits ----

  lemma SettleOneIsRun(s: State, v: World, w: nat, f: Fetched, rest: Trades) returns (actions: seq<Action>)
    requires Agree(s, v) && w < |s.pcs| && s.pcs[w] == Exits(rest, true)
    requires f.id in rest && rest[f.id] == f.row && f.row.signal.Some?
    ensures Agree(Run(s, actions), SettleOne(v, f))
    ensures |Run(s, actions).pcs| == |s.pcs| && Run(s, actions).pcs[w] == Exits(rest - {f.id}, true)
  {
    if Head(v.refusals) {
      actions := RefusedIsRun(s, v, w, f, rest);
    } else {
      actions := AcceptedIsRun(s, v, w, f, rest);
    }
  }

  lemma RefusedIsRun(s: State, v: World, w: nat, f: Fetched, rest: Trades) returns (actions: seq<Action>)
    requires Agree(s, v) && w < |s.pcs| && s.pcs[w] == Exits(rest, true) && Head(v.refusals)
    requires f.id in rest && rest[f.id] == f.row && f.row.signal.Some?
    ensures Agree(Run(s, actions), SettleOne(v, f))
    ensures |Run(s, actions).pcs| == |s.pcs| && Run(s, actions).pcs[w] == Exits(rest - {f.id}, true)
  {
    hide Next, DeleteTrade, DeleteSignal;
    var left, sig := rest - {f.id}, f.row.signal.value;
    var v1 := Place(v, OrderFor(f.id, f.row)).0;
    var ok1, ok2 := !Head(v1.faults), !Head(Tail(v1.faults));
    actions := [PlaceSell(w, f.id, false), UndoTrade(w, ok1), UndoSignal(w, ok2)];
    Run3(s, PlaceSell(w, f.id, false), UndoTrade(w, ok1), UndoSignal(w, ok2));
    var s1 := Next(s, PlaceSell(w, f.id, false));
    PlaceSellStep(s, w, f.id, rest, true, false);
    var s2, v2 := Next(s1, UndoTrade(w, ok1)), Commit(v1, DeleteTrade(v1.db, f.id)).0;
    UndoTradeStep(s1, w, f.id, f.row, left, true, ok1);
    CommitAgrees(s1, v1, DeleteTrade(s1.db, f.id), s2);
    UndoSignalStep(s2, w, sig, left, ok2);
    CommitAgrees(s2, v2, DeleteSignal(s2.db, sig), Next(s2, UndoSignal(w, ok2)));
  }

  lemma AcceptedIsRun(s: State, v: World, w: nat, f: Fetched, rest: Trades) returns (actions: seq<Action>)
    requires Agree(s, v) && w < |s.pcs| && s.pcs[w] == Exits(rest, true) && !Head(v.refusals)
    requires f.id in rest && rest[f.id] == f.row && f.row.signal.Some?
    ensures Agree(Run(s, actions), SettleOne(v, f))
    ensures |Run(s, actions).pcs| == |s.pcs| && Run(s, actions).pcs[w] == Exits(rest - {f.id}, true)
  {
    hide Next, UpdateTrade, MarkExecuted;
    var left, sig := rest - {f.id}, f.row.signal.value;
    var row' := f.row.(order := Some(|s.log|));
    var v1 := Place(v, OrderFor(f.id, f.row)).0;
    var ok1, ok2 := !Head(v1.faults), !Head(Tail(v1.faults));
    actions := [PlaceSell(w, f.id, true), PersistSell(w, ok1), MarkSell(w, ok2)];
    Run3(s, PlaceSell(w, f.id, true), PersistSell(w, ok1), MarkSell(w, ok2));
    var s1 := Next(s, PlaceSell(w, f.id, true));
    PlaceSellStep(s, w, f.id, rest, true, true);
    PersistSellStep(s1, w, f.id, row', left, true, ok1);
    var s2, v2 := Next(s1, PersistSell(w, ok1)), Commit(v1, UpdateTrade(v1.db, f.id, row')).0;
    CommitAgrees(s1, v1, UpdateTrade(s1.db, f.id, row'), s2);
    MarkSellStep(s2, w, sig, left, ok2);
    CommitAgrees(s2, v2, Ok(MarkExecuted(s2.db, sig)), Next(s2, MarkSell(w, ok2)));
  }

  ghost predicate DistinctIds(pending: seq<Fetched>) {
    && (forall i, j :: 0 <= i < j < |pending| ==> pending[i].id != pending[j].id)
    && (forall i :: 0 <= i < |pending| ==> pending[i].row.signal.Some?)
  }

  lemma {:induction false} RowsOfAt(pending: seq<Fetched>, i: nat)
    requires DistinctIds(pending) && i < |pending|
    ensures pending[i].id in RowsOf(pending) && RowsOf(pending)[pending[i].id] == pending[i].row
  {
    if i < |pending| - 1 {
      RowsOfAt(pending[..|pending| - 1], i);
    }
  }

  function FirstIds(pending: seq<Fetched>, k: nat): set<nat>
    requires k <= |pending|
  {
    if k == 0 then {} else FirstIds(pending, k - 1) + {pending[k - 1].id}
  }

  lemma {:induction false} NotYet(pending: seq<Fetched>, k: nat, i: nat)
    requires DistinctIds(pending) && k <= i < |pending|
    ensures pending[i].id !in FirstIds(pending, k)
  {
    if k > 0 { NotYet(pending, k - 1, i); }
  }

  // The sells left after k placements: the next one is among them, and it alone goes.
  lemma {:induction false} LeftAt(pending: seq<Fetched>, k: nat)
    requires DistinctIds(pending) && k < |pending|
    ensures var rest, f := RowsOf(pending) - FirstIds(pending, k), pending[k];
      f.id in rest && rest[f.id] == f.row && f.row.signal.Some? && rest - {f.id} == RowsOf(pending) - FirstIds(pending, k + 1)
  {
    hide RowsOf;
    RowsOfAt(pending, k);
    NotYet(pending, k, k);
  }

  lemma {:induction false} SettleSnoc(v: World, pending: seq<Fetched>, k: nat)
    requires k < |pending|
    ensures Settle(v, pending[..k + 1]) == SettleOne(Settle(v, pending[..k]), pending[k])
  {
    hide SettleOne;
    assert pending[..k + 1][..k] == pending[..k];
  }

  // Settling the first k pending sells, in slice order, is a run.
  lemma {:induction false} SettleIsRun(s: State, v: World, w: nat, pending: seq<Fetched>, k: nat) returns (actions: seq<Action>)
    requires Agree(s, v) && w < |s.pcs| && s.pcs[w] == Exits(RowsOf(pending), true)
    requires DistinctIds(pending) && k <= |pending|
    ensures Agree(Run(s, actions), Settle(v, pending[..k]))
    ensures |Run(s, actions).pcs| == |s.pcs|
    ensures Run(s, actions).pcs[w] == Exits(RowsOf(pending) - FirstIds(pending, k), true)
  {
    hide Next, SettleOne, RowsOf;
    if k == 0 {
      actions := [];
      assert RowsOf(pending) - {} == RowsOf(pending);
    } else {
      hide Run, Settle, FirstIds, DistinctIds, Agree;
      var before := SettleIsRun(s, v, w, pending, k - 1);
      LeftAt(pending, k - 1);
      SettleSnoc(v, pending, k - 1);
      var rest, f := RowsOf(pending) - FirstIds(pending, k - 1), pending[k - 1];
      var more := SettleOneIsRun(Run(s, before), Settle(v, pending[..k - 1]), w, f, rest);
      actions := before + more;
      RunConcat(s, before, more);
    }
  }

  lemma {:induction false} StagedDistinct(db: Tables, fetched: seq<Fetched>, price: real, next: nat)
    requires StageSells(db, fetched, price, next).Ok?
    ensures var st := StageSells(db, fetched, price, next).value;
      DistinctIds(st.pending) && forall i :: 0 <= i < |st.pending| ==> st.pending[i].id < st.next
  {
    if fetched != [] {
      StagedDistinct(db, fetched[..|fetched| - 1], price, next);
    }
  }

  lemma ExitCallIsRun(s: State, v: World, w: nat, symbol: string, price: real, scan: seq<nat>) returns (actions: seq<Action>)
    requires Agree(s, v) && w < |s.pcs| && s.pcs[w].Idle?
    ensures Agree(Run(s, actions), ExitPass(v, symbol, price, scan).0)
    ensures |Run(s, actions).pcs| == |s.pcs|
  {
    hide OpenBuys, RowsOf, Settle;
    var fetched := OpenBuys(v.db.trades, symbol, scan);
    var r := StageSells(v.db, fetched, price, v.next);
    if r.Err? || Head(v.faults) {
      actions := [];
    } else {
      var commit := CommitExits(w, symbol, price, scan, v.next);
      Run1(s, commit);
      StagedDistinct(v.db, fetched, price, v.next);
      var v1 := Commit(v, Ok(r.value.db)).0.(next := r.value.next);
      var more := SettleIsRun(Next(s, commit), v1, w, r.value.pending, |r.value.pending|);
      assert r.value.pending[..|r.value.pending|] == r.value.pending;
      actions := [commit] + more;
      RunConcat(s, [commit], more);
    }
  }

  // ---- manual sells ----

  // ExecuteSellTrade is a run, too. Its copies of the parent and of the signal may be old, and either row
  // may be gone; the columns it uses are those that never change.
  lemma SellCallIsRun(s: State, v: World, w: nat, sig: nat, signal: Signal, parent: Fetched) returns (actions: seq<Action>)
    requires Agree(s, v) && w < |s.pcs| && s.pcs[w].Idle?
    requires parent.id in v.db.trades ==> SameIdentity(v.db.trades[parent.id], parent.row)
    requires sig in v.db.signals ==> signal.symbol == v.db.signals[sig].symbol && signal.price == v.db.signals[sig].price
    ensures Agree(Run(s, actions), ExecuteSellTrade(v, sig, signal, parent).0)
  {
    hide Next, InsertTrade;
    var id, row := v.next, SellRow(parent.id, parent.row, sig, signal.symbol, signal.price);
    if parent.row.transfer.None? || Head(v.faults) || InsertTrade(v.db, id, row).Err? {
      actions := [];
    } else {
      var commit := CommitSell(w, parent.id, sig, id);
      Run1(s, commit);
      CopiesCommit(s, w, parent, sig, signal, id);
      var v1 := Commit(v.(next := v.next + 1), InsertTrade(v.db, id, row)).0;
      var more := PlacedSellIsRun(Next(s, commit), v1, w, Fetched(id, row));
      actions := [commit] + more;
      RunConcat(s, [commit], more);
    }
  }

  lemma CopiesCommit(s: State, w: nat, parent: Fetched, sig: nat, signal: Signal, id: nat)
    requires w < |s.pcs| && s.pcs[w].Idle?
    requires parent.id in s.db.trades ==> SameIdentity(s.db.trades[parent.id], parent.row)
    requires sig in s.db.signals ==> signal.symbol == s.db.signals[sig].symbol && signal.price == s.db.signals[sig].price
    requires InsertTrade(s.db, id, SellRow(parent.id, parent.row, sig, signal.symbol, signal.price)).Ok?
    ensures var row := SellRow(parent.id, parent.row, sig, signal.symbol, signal.price);
      Next(s, CommitSell(w, parent.id, sig, id)) == Goto(s, w, Exits(map[id := row], false)).(db := InsertTrade(s.db, id, row).value)
  {
    hide InsertTrade, Next;
    InsertedKeys(s.db, id, SellRow(parent.id, parent.row, sig, signal.symbol, signal.price));
    CommitSellStep(s, w, parent.id, sig, id);
  }

  lemma InsertedKeys(db: Tables, id: nat, row: Trade)
    requires InsertTrade(db, id, row).Ok?
    ensures KeysOk(db, row)
  {}

  // The manual sell's order, and what follows the broker's answer.
  function PlacedSell(v: World, f: Fetched): World {
    var (v1, answer) := Place(v, OrderFor(f.id, f.row));
    match answer
    case None => Commit(v1, DeleteTrade(v1.db, f.id)).0
    case Some(order) => Commit(v1, UpdateTrade(v1.db, f.id, f.row.(order := Some(order)))).0
  }

  lemma PlacedSellIsRun(s: State, v: World, w: nat, f: Fetched) returns (actions: seq<Action>)
    requires Agree(s, v) && w < |s.pcs| && s.pcs[w] == Exits(map[f.id := f.row], false)
    ensures Agree(Run(s, actions), PlacedSell(v, f))
  {
    hide Next, UpdateTrade, DeleteTrade;
    var placed, ok := !Head(v.refusals), !Head(v.faults);
    var place, last := PlaceSell(w, f.id, placed), if placed then PersistSell(w, ok) else UndoTrade(w, ok);
    actions := [place] + [last];
    Run1(s, place);
    RunSnoc(s, [place], last);
    PlaceSellStep(s, w, f.id, map[f.id := f.row], false, placed);
    var left := map[f.id := f.row] - {f.id};
    var s1, v1 := Next(s, place), Place(v, OrderFor(f.id, f.row)).0;
    if placed {
      var row := f.row.(order := Some(|s.log|));
      PersistSellStep(s1, w, f.id, row, left, false, ok);
      CommitAgrees(s1, v1, UpdateTrade(s1.db, f.id, row), Next(s1, last));
    } else {
      UndoTradeStep(s1, w, f.id, f.row, left, false, ok);
      CommitAgrees(s1, v1, DeleteTrade(s1.db, f.id), Next(s1, last));
    }
  }

  // ---- broker events ----

  lemma UpdateCallIsRun(s: State, v: World, order: nat, event: string, status: Status, fill: Fill) returns (actions: seq<Action>)
    requires Agree(s, v) && s.consumer.Waiting? && Mapper.StatusOf(event) == Some(status)
    ensures Agree(Run(s, actions), ApplyTradeUpdates(v, s.params, order, status, fill).0)
    ensures Run(s, actions).consumer.Waiting? && Run(s, actions).pcs == s.pcs
  {
    hide Next, WriteStatusTx, Reconciled;
    var found := ByOrder(v.db.trades, order);
    if Head(v.faults) || found.None? || v.db.trades[found.value].status.Terminal() {
      actions := [];
    } else {
      var id, ok := found.value, !Head(Tail(v.faults));
      actions := [ReadEvent(id, event, fill), WriteEvent(ok)];
      assert actions == [ReadEvent(id, event, fill)] + [WriteEvent(ok)];
      Run1(s, ReadEvent(id, event, fill));
      RunSnoc(s, [ReadEvent(id, event, fill)], WriteEvent(ok));
      var s1, v1 := s.(consumer := Writing(id, s.db.trades[id], status, fill)), v.(faults := Tail(v.faults));
      ReadEventStep(s, id, event, status, fill);
      WriteEventStep(s1, id, s.db.trades[id], status, fill, ok);
      CommitAgrees(s1, v1, WriteStatusTx(s1.db, id, Reconciled(s.params, s.db.trades[id], status, fill)), Next(s1, WriteEvent(ok)));
    }
  }
}
