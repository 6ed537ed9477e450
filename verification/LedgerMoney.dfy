/** Slots, positions and sizes over every run. */
module LedgerMoney {
  import opened Model
  import opened Database
  import opened Reals
  import opened Sizing
  import opened Ledger
  import opened LedgerCore
  import opened LedgerSteps
  import opened LedgerEffects

  // ---- slots ----

  predicate LiveBuy(row: Trade, t: nat) {
    row.side.Buy? && row.transfer == Some(t) && row.status.Live()
  }

  function LiveBuys(trades: Trades, t: nat): set<nat> {
    set id | id in trades && LiveBuy(trades[id], t)
  }

  // Slots left plus live buys is the initial count; a transfer without a counter buys nothing.
  predicate SlotOk(initial: Option<int>, remaining: Option<int>, live: nat) {
    match (initial, remaining)
    case (Some(n), Some(left)) => left + live == n && (n >= 0 ==> left >= 0)
    case (None, None) => live == 0
    case _ => false
  }

  ghost predicate Slots(s: State) {
    && s.initial.Keys == s.db.transfers.Keys
    && forall t :: t in s.db.transfers ==> SlotOk(s.initial[t], s.db.transfers[t].remaining, |LiveBuys(s.db.trades, t)|)
  }

  lemma LivePut(trades: Trades, id: nat, row: Trade, t: nat)
    ensures LiveBuys(trades[id := row], t)
         == LiveBuys(trades, t) - {id} + (if LiveBuy(row, t) then {id} else {})
  {}

  lemma SlotsStep(s: State, s': State, c: Change)
    requires Core(s) && Slots(s) && Effect(s, s', c)
    ensures Slots(s')
  {
    hide Core, Effect, LiveBuys, SlotOk;
    SlotKeys(s, s', c);
    forall t | t in s'.db.transfers ensures SlotOk(s'.initial[t], s'.db.transfers[t].remaining, |LiveBuys(s'.db.trades, t)|) {
      match c
      case Bought(id, row) => SlotTaken(s, s', id, row, t);
      case Rewritten(id, row) => SlotKept(s, s', id, row, t);
      case _ => SlotUntouched(s, s', c, t);
    }
  }

  lemma SlotKeys(s: State, s': State, c: Change)
    requires Effect(s, s', c) && s.initial.Keys == s.db.transfers.Keys
    ensures s'.initial.Keys == s'.db.transfers.Keys
  {
    hide HasOpenPosition, SellsParent;
  }

  lemma SlotUntouched(s: State, s': State, c: Change, t: nat)
    requires Core(s) && Slots(s) && Effect(s, s', c) && !c.Bought? && !c.Rewritten? && t in s'.db.transfers
    ensures SlotOk(s'.initial[t], s'.db.transfers[t].remaining, |LiveBuys(s'.db.trades, t)|)
  {
    hide Core, Effect, LiveBuys;
    SameLive(s, s', c, t);
    SlotsFrom(s, s', c, t);
    if c.Funded? && t == c.t { NoneLive(s, t); }
  }

  lemma SameLive(s: State, s': State, c: Change, t: nat)
    requires Effect(s, s', c) && !c.Bought? && !c.Rewritten?
    ensures LiveBuys(s'.db.trades, t) == LiveBuys(s.db.trades, t)
  {
    forall id ensures id in LiveBuys(s'.db.trades, t) <==> id in LiveBuys(s.db.trades, t) {}
  }

  lemma SlotsFrom(s: State, s': State, c: Change, t: nat)
    requires Effect(s, s', c) && !c.Bought? && !c.Rewritten? && s.initial.Keys == s.db.transfers.Keys && t in s'.db.transfers
    ensures t in s'.initial
    ensures if c.Funded? && t == c.t then t !in s.db.transfers && s'.initial[t] == s'.db.transfers[t].remaining
      else t in s.db.transfers && s'.initial[t] == s.initial[t] && s'.db.transfers[t] == s.db.transfers[t]
  {
    hide SellsParent;
  }

  // A transfer that does not exist yet has no buys.
  lemma NoneLive(s: State, t: nat)
    requires Core(s) && t !in s.db.transfers
    ensures LiveBuys(s.db.trades, t) == {}
  {
    hide OneSell, OrdersLogged, LogOk, PcsOk, OneOwner, ConsumerOk, Honest;
    forall id | id in s.db.trades ensures !LiveBuy(s.db.trades[id], t) { assert RefsOk(s.db, s.db.trades[id]); }
  }

  lemma SlotTaken(s: State, s': State, id: nat, row: Trade, t: nat)
    requires Slots(s) && Effect(s, s', Bought(id, row)) && t in s'.db.transfers
    ensures SlotOk(s'.initial[t], s'.db.transfers[t].remaining, |LiveBuys(s'.db.trades, t)|)
  {
    LivePut(s.db.trades, id, row, t);
    assert id !in LiveBuys(s.db.trades, t);
    assert SlotOk(s.initial[t], s.db.transfers[t].remaining, |LiveBuys(s.db.trades, t)|);
  }

  // Overwriting a non-terminal row frees a slot exactly when it refunds a buy.
  lemma LiveRewrite(trades: Trades, id: nat, row: Trade, t: nat)
    requires id in trades && !trades[id].status.Terminal()
    requires row.side == trades[id].side && row.transfer == trades[id].transfer
    ensures |LiveBuys(trades[id := row], t)|
         == |LiveBuys(trades, t)| - (if row.side.Buy? && row.transfer == Some(t) && row.status.Refunds() then 1 else 0)
  {
    var live := LiveBuys(trades, t);
    LivePut(trades, id, row, t);
    assert id in live <==> LiveBuy(trades[id], t);
    if LiveBuy(trades[id], t) && !LiveBuy(row, t) {
      assert LiveBuys(trades[id := row], t) == live - {id};
    } else {
      assert LiveBuys(trades[id := row], t) == live;
    }
  }

  lemma SlotKept(s: State, s': State, id: nat, row: Trade, t: nat)
    requires Slots(s) && Effect(s, s', Rewritten(id, row)) && t in s'.db.transfers
    ensures SlotOk(s'.initial[t], s'.db.transfers[t].remaining, |LiveBuys(s'.db.trades, t)|)
  {
    LiveRewrite(s.db.trades, id, row, t);
    assert SlotOk(s.initial[t], s.db.transfers[t].remaining, |LiveBuys(s.db.trades, t)|);
    RefundedTransfer(s.db, row, t);
  }

  lemma RefundedTransfer(db: Tables, row: Trade, t: nat)
    requires row.transfer.Some? && row.transfer.value in db.transfers && t in db.transfers
    ensures var r := IncrementRemaining(db, row.transfer.value);
      r.Ok? && r.value.transfers.Keys == db.transfers.Keys
      && r.value.transfers[t].remaining ==
           (if row.transfer == Some(t) && db.transfers[t].remaining.Some? then Some(db.transfers[t].remaining.value + 1)
            else db.transfers[t].remaining)
  {}

  // ---- positions ----

  function OpenPositions(trades: Trades, symbol: string): set<nat> {
    set id | id in trades && OpenPosition(trades, id, symbol)
  }

  // At most one open position, plus one per cleanup delete that re-exposed a buy of the symbol.
  ghost predicate Positions(s: State) {
    forall symbol :: |OpenPositions(s.db.trades, symbol)| <= 1 + s.undone[symbol]
  }

  lemma SubsetSize(a: set<nat>, b: set<nat>)
    requires a <= b
    ensures |a| <= |b|
  {
    if a != b {
      assert |b| == |a| + |b - a| by { assert b == a + (b - a); }
    }
  }

  // Every change but a buy and a delete can only close positions.
  lemma PositionsShrink(s: State, s': State, c: Change, symbol: string)
    requires Effect(s, s', c) && !c.Bought? && !c.Deleted?
    ensures OpenPositions(s'.db.trades, symbol) <= OpenPositions(s.db.trades, symbol)
  {
    forall id | OpenPosition(s'.db.trades, id, symbol) ensures OpenPosition(s.db.trades, id, symbol) {
      if HasSellChild(s.db.trades, id) { ChildrenKept(s, s', c, id); }
    }
  }

  lemma ChildrenKept(s: State, s': State, c: Change, id: nat)
    requires Effect(s, s', c) && !c.Deleted? && HasSellChild(s.db.trades, id)
    ensures HasSellChild(s'.db.trades, id)
  {
    var k :| k in s.db.trades && SellOf(s.db.trades[k], id);
    assert k in s'.db.trades && SellOf(s'.db.trades[k], id);
  }

  lemma PositionsAfterDelete(trades: Trades, id: nat, parent: nat, symbol: string)
    requires id in trades && trades[id].parent == Some(parent) && parent in trades
    ensures OpenPositions(trades - {id}, symbol)
         <= OpenPositions(trades, symbol) + (if trades[parent].symbol == symbol then {parent} else {})
  {
    forall k | k != parent && HasSellChild(trades, k) ensures HasSellChild(trades - {id}, k) {
      var sell :| sell in trades && SellOf(trades[sell], k);
      assert sell in trades - {id} && SellOf((trades - {id})[sell], k);
    }
  }

  lemma PositionsAfterBuy(trades: Trades, id: nat, row: Trade, symbol: string)
    requires id !in trades && row.side.Buy?
    ensures OpenPositions(trades[id := row], symbol)
         <= OpenPositions(trades, symbol) + (if row.symbol == symbol then {id} else {})
  {
    forall k | HasSellChild(trades, k) ensures HasSellChild(trades[id := row], k) {
      var sell :| sell in trades && SellOf(trades[sell], k);
      assert SellOf(trades[id := row][sell], k);
    }
  }

  lemma PositionsStep(s: State, s': State, c: Change)
    requires Core(s) && Positions(s) && Effect(s, s', c)
    ensures Positions(s')
  {
    hide Core, SellsParent, DecrementRemaining, IncrementRemaining;
    forall symbol ensures |OpenPositions(s'.db.trades, symbol)| <= 1 + s'.undone[symbol] {
      var old_, new_ := OpenPositions(s.db.trades, symbol), OpenPositions(s'.db.trades, symbol);
      match c
      case Bought(id, row) =>
        PositionsAfterBuy(s.db.trades, id, row, symbol);
        SubsetSize(new_, old_ + (if row.symbol == symbol then {id} else {}));
        if row.symbol == symbol { assert old_ == {}; }
      case Deleted(id) =>
        var parent := s.db.trades[id].parent.value;
        PositionsAfterDelete(s.db.trades, id, parent, symbol);
        SubsetSize(new_, old_ + (if s.db.trades[parent].symbol == symbol then {parent} else {}));
      case _ =>
        PositionsShrink(s, s', c, symbol);
        SubsetSize(new_, old_);
    }
  }

  // ---- sizes ----

  // A buy's cost fits its slot, and its risk fits the configured fraction of the budget.
  ghost predicate SizedOk(p: Params, account: Transfer, row: Trade) {
    && row.price.Some? && row.stopLoss.Some? && row.quantity > 0.0 && account.targetTrades != 0
    && row.quantity * row.price.value <= account.amountUSD / account.targetTrades as real
    && (account.amountUSD >= 0.0 && p.riskPct >= 0.0 && row.price.value > 0.0 ==>
          row.quantity * (row.price.value - row.stopLoss.value) <= AtRisk(p, account.amountUSD))
  }

  // A transfer's amount and target never change.
  ghost predicate SameTerms(a: Transfer, b: Transfer) {
    a.amountUSD == b.amountUSD && a.targetTrades == b.targetTrades
  }

  ghost predicate BudgetOk(db: Tables, pc: Pc) {
    pc.Budgeted? ==> pc.budget in db.transfers && SameTerms(pc.account, db.transfers[pc.budget])
  }

  ghost predicate Sized(s: State) {
    && (forall w :: 0 <= w < |s.pcs| ==> BudgetOk(s.db, s.pcs[w]))
    && forall id :: id in s.db.trades && s.db.trades[id].side.Buy? ==> RowSized(s.params, s.db, s.db.trades[id])
  }

  ghost predicate RowSized(p: Params, db: Tables, row: Trade) {
    row.transfer.Some? && row.transfer.value in db.transfers && SizedOk(p, db.transfers[row.transfer.value], row)
  }

  lemma BuyRowSized(p: Params, sig: nat, signal: Signal, budget: nat, account: Transfer)
    requires BuyRow(p, sig, signal, budget, account).Ok? && BuyRow(p, sig, signal, budget, account).value.Some?
    ensures SizedOk(p, account, BuyRow(p, sig, signal, budget, account).value.value)
  {
    SlotBound(p, account.amountUSD, account.targetTrades, signal.price, signal.indicators.atr);
    if account.amountUSD >= 0.0 && p.riskPct >= 0.0 && signal.price > 0.0 {
      RiskBound(p, account.amountUSD, account.targetTrades, signal.price, signal.indicators.atr);
    }
  }

  // With a positive ATR and positive multipliers the exits bracket the entry price, so a fresh buy is
  // not triggered at its own price, and reward stands to risk as the two multipliers do.
  lemma BracketsEntry(p: Params, sig: nat, signal: Signal, budget: nat, account: Transfer)
    requires BuyRow(p, sig, signal, budget, account).Ok? && BuyRow(p, sig, signal, budget, account).value.Some?
    requires signal.indicators.atr > 0.0 && p.atrRiskMult > 0.0 && p.takeProfitMult > 0.0
    ensures var row := BuyRow(p, sig, signal, budget, account).value.value;
      && row.stopLoss.value < signal.price < row.takeProfit.value && !Triggered(row, signal.price)
      && (row.takeProfit.value - signal.price) * p.atrRiskMult == (signal.price - row.stopLoss.value) * p.takeProfitMult
  {
    hide Quantity;
    var atr, price := signal.indicators.atr, signal.price;
    var down, up := atr * p.atrRiskMult, atr * p.takeProfitMult;
    MulStrict(0.0, p.atrRiskMult, atr);
    MulStrict(0.0, p.takeProfitMult, atr);
    assert down > 0.0 && up > 0.0;
    assert up * p.atrRiskMult == down * p.takeProfitMult by {
      assert up * p.atrRiskMult == atr * (p.takeProfitMult * p.atrRiskMult);
      assert down * p.takeProfitMult == atr * (p.atrRiskMult * p.takeProfitMult);
    }
    var row := BuyRow(p, sig, signal, budget, account).value.value;
    assert row.takeProfit.value - price == up && price - row.stopLoss.value == down;
  }

  // Equal terms and equal sizing columns carry the bounds over.
  lemma SizedFrame(p: Params, account: Transfer, row: Trade, account': Transfer, row': Trade)
    requires SizedOk(p, account, row) && SameTerms(account, account')
    requires row.quantity == row'.quantity && row.price == row'.price && row.stopLoss == row'.stopLoss
    ensures SizedOk(p, account', row')
  {}

  lemma TermsKept(s: State, s': State, c: Change)
    requires Core(s) && Effect(s, s', c)
    ensures forall t :: t in s.db.transfers ==> t in s'.db.transfers && SameTerms(s.db.transfers[t], s'.db.transfers[t])
  {}

  lemma SizedStep(s: State, a: Action)
    requires Core(s) && Sized(s) && Effect(s, Next(s, a), ChangeOf(s, a))
    ensures Sized(Next(s, a))
  {
    var s' := Next(s, a);
    TermsKept(s, s', ChangeOf(s, a));
    BudgetedBy(s, a);
    forall w | 0 <= w < |s'.pcs| ensures BudgetOk(s'.db, s'.pcs[w]) { BudgetStep(s, a, w); }
    forall id | id in s'.db.trades && s'.db.trades[id].side.Buy? ensures RowSized(s'.params, s'.db, s'.db.trades[id]) {
      if id in s.db.trades {
        OldRowSized(s, s', ChangeOf(s, a), id);
      } else {
        NewRowSized(s, a, id);
      }
    }
  }

  // Workers neither come nor go, and a worker's budget is the one it had or a row of the table.
  ghost predicate BudgetsFrom(s: State, pcs: seq<Pc>) {
    && |pcs| == |s.pcs|
    && forall w :: 0 <= w < |pcs| && pcs[w].Budgeted? ==>
         pcs[w] == s.pcs[w] || (pcs[w].budget in s.db.transfers && pcs[w].account == s.db.transfers[pcs[w].budget])
  }

  lemma BuyBudgets(s: State, w: nat, a: Action)
    requires w < |s.pcs|
    ensures BudgetsFrom(s, NextBuy(s, w, a).pcs)
  {
    hide HasOpenPosition, InsertSignal, AvailableBudget, BuyRow, CommitBuyTx, UpdateTrade, MarkExecuted, WriteStatusTx;
  }

  lemma SellBudgets(s: State, w: nat, a: Action)
    requires w < |s.pcs|
    ensures BudgetsFrom(s, NextSell(s, w, a).pcs)
  {
    hide StageSells, OpenBuys, InsertTrade, UpdateTrade, MarkExecuted, DeleteTrade, DeleteSignal, Reexposed;
  }

  lemma BudgetedBy(s: State, a: Action)
    ensures BudgetsFrom(s, Next(s, a).pcs)
  {
    hide NextBuy, NextSell, InsertSignal, OpenBuys, WriteStatusTx, Reconciled;
    if a.CommitExits? || a.CommitSell? || a.PlaceSell? || a.PersistSell? || a.MarkSell? || a.UndoTrade? || a.UndoSignal? {
      if a.w < |s.pcs| { SellBudgets(s, a.w, a); }
    } else if a.PassGate? || a.CreateBuySignal? || a.FindBudget? || a.CommitBuy? || a.PlaceBuy? || a.PersistBuy? || a.MarkBuy? || a.CancelBuy? {
      if a.w < |s.pcs| { BuyBudgets(s, a.w, a); }
    }
  }

  lemma BudgetStep(s: State, a: Action, w: nat)
    requires w < |s.pcs| && BudgetsFrom(s, Next(s, a).pcs) && BudgetOk(s.db, s.pcs[w])
    requires forall t :: t in s.db.transfers ==> t in Next(s, a).db.transfers && SameTerms(s.db.transfers[t], Next(s, a).db.transfers[t])
    ensures BudgetOk(Next(s, a).db, Next(s, a).pcs[w])
  {
    hide Next;
  }

  lemma OldRowSized(s: State, s': State, c: Change, id: nat)
    requires Sized(s) && Effect(s, s', c) && id in s.db.trades && id in s'.db.trades && s'.db.trades[id].side.Buy?
    requires forall t :: t in s.db.transfers ==> t in s'.db.transfers && SameTerms(s.db.transfers[t], s'.db.transfers[t])
    ensures RowSized(s'.params, s'.db, s'.db.trades[id])
  {
    var row, row' := s.db.trades[id], s'.db.trades[id];
    assert row.side.Buy? && row.transfer == row'.transfer;
    assert row.quantity == row'.quantity && row.price == row'.price && row.stopLoss == row'.stopLoss;
    assert RowSized(s.params, s.db, row);
    SizedFrame(s.params, s.db.transfers[row.transfer.value], row, s'.db.transfers[row.transfer.value], row');
  }

  lemma NewRowSized(s: State, a: Action, id: nat)
    requires Sized(s) && Effect(s, Next(s, a), ChangeOf(s, a))
    requires id in Next(s, a).db.trades && id !in s.db.trades && Next(s, a).db.trades[id].side.Buy?
    ensures RowSized(s.params, Next(s, a).db, Next(s, a).db.trades[id])
  {
    hide Next, ChangeOf, HasOpenPosition, SizedOk;
    assert ChangeOf(s, a).Bought?;
    BoughtBy(s, a);
    var pc, row := s.pcs[a.w], ChangeOf(s, a).row;
    assert BudgetOk(s.db, pc);
    BuyRowSized(s.params, pc.sig, pc.signal, pc.budget, pc.account);
    SizedFrame(s.params, pc.account, row, Next(s, a).db.transfers[pc.budget], row);
  }

  // A bought row is the one sized from its worker's signal and budget.
  lemma BoughtBy(s: State, a: Action)
    requires ChangeOf(s, a).Bought?
    ensures a.CommitBuy? && a.w < |s.pcs| && s.pcs[a.w].Budgeted?
    ensures var pc := s.pcs[a.w];
      BuyRow(s.params, pc.sig, pc.signal, pc.budget, pc.account) == Ok(Some(ChangeOf(s, a).row))
      && ChangeOf(s, a).row.transfer == Some(pc.budget)
  {
    hide StageSells, OpenBuys, InsertTrade, DeleteTrade, CommitBuyTx, Quantity;
  }

  // ---- shares ----

  // Every sell orders exactly its buy's quantity from its buy's transfer.
  ghost predicate Matched(trades: Trades) {
    forall id :: id in trades && trades[id].side.Sell? ==> SellsParent(trades, trades[id])
  }

  lemma MatchedStep(s: State, s': State, c: Change)
    requires Core(s) && Core(s') && Matched(s.db.trades) && Effect(s, s', c)
    ensures Matched(s'.db.trades)
  {
    hide PcsOk, LogOk, OrdersLogged, Honest, ConsumerOk, OneOwner, OneSell, HasOpenPosition, DecrementRemaining, IncrementRemaining;
    forall id | id in s'.db.trades && s'.db.trades[id].side.Sell? ensures SellsParent(s'.db.trades, s'.db.trades[id]) {
      assert RefsOk(s'.db, s'.db.trades[id]);
      var parent := s'.db.trades[id].parent.value;
      assert parent in s'.db.trades;
      if id in s.db.trades {
        assert SellsParent(s.db.trades, s.db.trades[id]);
      }
    }
  }

  // ---- every run ----

  ghost predicate Inv(s: State) {
    Core(s) && Slots(s) && Positions(s) && Sized(s) && Matched(s.db.trades)
  }

  lemma NextKeepsInv(s: State, a: Action)
    requires Inv(s)
    ensures Inv(Next(s, a))
  {
    hide Core, Next, Effect, ChangeOf, Slots, Positions, Sized, Matched;
    NextKeepsCore(s, a);
    NextEffect(s, a);
    SlotsStep(s, Next(s, a), ChangeOf(s, a));
    PositionsStep(s, Next(s, a), ChangeOf(s, a));
    SizedStep(s, a);
    MatchedStep(s, Next(s, a), ChangeOf(s, a));
  }

  lemma {:induction false} RunKeepsInv(s: State, actions: seq<Action>)
    requires Inv(s)
    ensures Inv(Run(s, actions))
  {
    if actions != [] {
      RunKeepsInv(s, actions[..|actions| - 1]);
      NextKeepsInv(Run(s, actions[..|actions| - 1]), actions[|actions| - 1]);
    }
  }

  lemma InitInv(params: Params, workers: nat)
    ensures Inv(Init(params, workers))
  {
    forall symbol ensures |OpenPositions(Init(params, workers).db.trades, symbol)| == 0 {
      assert OpenPositions(map[], symbol) == {};
    }
  }
}
