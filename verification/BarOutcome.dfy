/** What a whole live bar leaves behind, whichever calls fail and whichever orders are refused: who is sold,
    whether a signal is stored, and whether and how much is bought, from the columns before the bar. */
module BarOutcomes {
  import opened Model
  import opened Database
  import opened Ledger
  import opened Calls
  import opened Signals
  import opened Shadow
  import opened ExitPasses
  import opened ExitOutcomes
  import opened BuyOutcomes
  import opened Sizing
  import opened Adaptive
  import opened LedgerCore
  import opened LedgerMoney
  import opened LedgerTheorems
  import opened Runs
  import opened Erasure
  import opened Histories
  import opened ShadowDecisions

  // ---- after the exits ----

  // The buy has a sell after the pass: it is one of `ids`, and its order was not refused, or the refused
  // sell could not be deleted.
  ghost predicate Sold(w: World, ids: seq<nat>, id: nat) {
    exists i :: 0 <= i < |ids| && ids[i] == id && (!Fails(w.refusals, i) || Fails(w.faults, 2 * i + 1))
  }

  // Every buy that blocked an entry is sold.
  ghost predicate Freed(w: World, ids: seq<nat>, symbol: string) {
    forall id :: Blocking(w.db.trades, id, symbol) ==> Sold(w, ids, id)
  }

  lemma SaleOf(w: World, w': World, ids: seq<nat>, symbol: string, price: real, i: nat)
    requires PassSold(w, w', ids, symbol, price) && i < |ids|
    ensures ids[i] in w.db.trades
    ensures w.next + i in w'.db.trades <==> !Fails(w.refusals, i) || Fails(w.faults, 2 * i + 1)
    ensures w.next + i in w'.db.trades ==>
      && w'.db.trades[w.next + i].side == Sell && w'.db.trades[w.next + i].parent == Some(ids[i])
      && (w'.db.trades[w.next + i].order.Some? ==> w'.db.trades[w.next + i].order.value < |w'.log|)
  {
    hide MustExit, Fails, KeptAll, NothingElse, AcceptedOf;
    assert ids[i] in w.db.trades && SellEnds(w, w', ids[i], i, symbol, price);
  }

  lemma NewRowIsSale(w: World, w': World, ids: seq<nat>, symbol: string, price: real, k: nat)
    requires PassSold(w, w', ids, symbol, price) && k in w'.db.trades && k !in w.db.trades
    ensures w.next <= k < w.next + |ids| && ids[k - w.next] in w.db.trades && Sold(w, ids, ids[k - w.next])
    ensures w'.db.trades[k].side == Sell && w'.db.trades[k].parent == Some(ids[k - w.next])
    ensures w'.db.trades[k].order.Some? ==> w'.db.trades[k].order.value < |w'.log|
  {
    hide MustExit, Fails, KeptAll, EachSold;
    SaleOf(w, w', ids, symbol, price, k - w.next);
  }

  lemma Kept(w: World, w': World, ids: seq<nat>, symbol: string, price: real, id: nat)
    requires PassSold(w, w', ids, symbol, price) && id in w.db.trades
    ensures id in w'.db.trades && w'.db.trades[id] == w.db.trades[id]
  {}

  lemma UnsoldAfter(w: World, w': World, ids: seq<nat>, symbol: string, price: real, id: nat)
    requires PassSold(w, w', ids, symbol, price) && id in w.db.trades
    ensures Unsold(w'.db.trades, id) <==> Unsold(w.db.trades, id) && !Sold(w, ids, id)
  {
    hide PassSold, Fails;
    if Sold(w, ids, id) {
      var i :| 0 <= i < |ids| && ids[i] == id && (!Fails(w.refusals, i) || Fails(w.faults, 2 * i + 1));
      SaleOf(w, w', ids, symbol, price, i);
    } else if Unsold(w.db.trades, id) {
      hide Sold;
      forall k | k in w'.db.trades && w'.db.trades[k].side == Sell ensures w'.db.trades[k].parent != Some(id) {
        if k in w.db.trades { Kept(w, w', ids, symbol, price, k); } else { NewRowIsSale(w, w', ids, symbol, price, k); }
      }
    }
    if Unsold(w'.db.trades, id) {
      forall k | k in w.db.trades && w.db.trades[k].side == Sell ensures w.db.trades[k].parent != Some(id) {
        Kept(w, w', ids, symbol, price, k);
      }
    }
  }

  lemma BlockingAfter(w: World, w': World, ids: seq<nat>, symbol: string, price: real, id: nat)
    requires PassSold(w, w', ids, symbol, price)
    ensures Blocking(w'.db.trades, id, symbol) <==> Blocking(w.db.trades, id, symbol) && !Sold(w, ids, id)
  {
    hide Sold, Unsold, PassSold;
    if id in w.db.trades {
      UnsoldAfter(w, w', ids, symbol, price, id);
      Kept(w, w', ids, symbol, price, id);
    } else if id in w'.db.trades {
      NewRowIsSale(w, w', ids, symbol, price, id);
    }
  }

  // After the pass the symbol is free if and only if every blocking buy was sold.
  lemma FreedExactly(w: World, w': World, ids: seq<nat>, symbol: string, price: real)
    requires PassSold(w, w', ids, symbol, price)
    ensures (exists id :: Blocking(w'.db.trades, id, symbol)) <==> !Freed(w, ids, symbol)
  {
    hide Blocking, PassSold, Sold;
    forall id: nat ensures Blocking(w'.db.trades, id, symbol) <==> Blocking(w.db.trades, id, symbol) && !Sold(w, ids, id) {
      BlockingAfter(w, w', ids, symbol, price, id);
    }
  }

  lemma StillClean(w: World, w': World, ids: seq<nat>, symbol: string, price: real)
    requires PassSold(w, w', ids, symbol, price) && Fresh(w.db, w.next) && OrdersKnown(w)
    ensures Fresh(w'.db, w'.next) && OrdersKnown(w') && w'.db.transfers == w.db.transfers
  {
    hide EachSold, MustExit;
    forall id | id in w'.db.trades && w'.db.trades[id].order.Some? ensures w'.db.trades[id].order.value < |w'.log| {
      if id !in w.db.trades { NewRowIsSale(w, w', ids, symbol, price, id); }
    }
  }

  // ---- the rest of the bar ----

  predicate SlotLeft(t: Transfer) { t.remaining.Some? && t.remaining.value > 0 }

  // A transfer with a slot left, as old as any that has one.
  ghost predicate Oldest(transfers: map<nat, Transfer>, t: nat) {
    && t in transfers && SlotLeft(transfers[t])
    && forall u :: u in transfers && SlotLeft(transfers[u]) ==> transfers[t].createdAt <= transfers[u].createdAt
  }

  ghost predicate NoneLeft(transfers: map<nat, Transfer>) {
    forall t :: t in transfers ==> !SlotLeft(transfers[t])
  }

  // The buy of the stored signal `sig` out of the transfer t, in a symbol that is free.
  ghost predicate BuyEnds(w: World, w': World, r: Result<()>, p: Params, sig: nat, signal: Signal, t: nat)
    requires sig in w.db.signals && t in w.db.transfers && SlotLeft(w.db.transfers[t])
  {
    var account := w.db.transfers[t];
    if account.targetTrades == 0 || signal.price == 0.0 then w' == w && r == Err(DivisionByZero)
    else exists q :: Fits(p, account.amountUSD, account.targetTrades, signal.price, signal.indicators.atr, q)
                  && QuantityEnds(w, w', r, p, sig, signal, t, q)
  }

  ghost predicate QuantityEnds(w: World, w': World, r: Result<()>, p: Params, sig: nat, signal: Signal, t: nat, q: real)
    requires sig in w.db.signals && t in w.db.transfers && SlotLeft(w.db.transfers[t])
  {
    if q <= 0.0 then w' == w && r == Ok(())
    else if Fails(w.faults, 0) then w' == w.(next := w.next + 1, faults := Later(w.faults, 1)) && r == Err(Infrastructure)
    else if Fails(w.refusals, 0) then r == Err(Infrastructure) && BuyCancelled(w, w', p, sig, signal, t, w.db.transfers[t], q)
    else r == Ok(()) && BuyPlaced(w, w', p, sig, signal, t, w.db.transfers[t], q)
  }

  lemma BuyEndsAs(w: World, p: Params, sig: nat, signal: Signal, t: nat)
    requires t in w.db.transfers && ReadyToBuy(w, sig, t, w.db.transfers[t]) && SlotLeft(w.db.transfers[t])
    requires !(exists id :: Blocking(w.db.trades, id, signal.symbol))
    ensures var (w', r) := ExecuteBuyTrade(w, p, sig, signal, Some((t, w.db.transfers[t])));
      BuyEnds(w, w', if r.Ok? then Ok(()) else Err(r.error), p, sig, signal, t)
  {
    hide ExecuteBuyTrade, Blocking, Fits, BuyCancelled, BuyPlaced, Fails, Later, OrdersKnown;
    var account := w.db.transfers[t];
    var sized := Quantity(p, account.amountUSD, account.targetTrades, signal.price, signal.indicators.atr);
    var q := if sized.Ok? then sized.value else 0.0;
    if account.targetTrades != 0 && signal.price != 0.0 {
      FittingQuantity(p, account.amountUSD, account.targetTrades, signal.price, signal.indicators.atr);
    }
    BuyOutcome(w, p, sig, signal, t, account, q);
  }

  lemma FittingQuantity(p: Params, amount: real, target: int, price: real, atr: real)
    requires target != 0 && price != 0.0
    ensures Quantity(p, amount, target, price, atr).Ok?
    ensures Fits(p, amount, target, price, atr, Quantity(p, amount, target, price, atr).value)
  {
    hide Fits, Quantity;
    QuantityExactly(p, amount, target, price, atr, 0.0);
    QuantityIs(p, amount, target, price, atr, Quantity(p, amount, target, price, atr).value);
  }

  // What follows the exits, which led from w to w1: nothing unless the symbol is free, the price above the
  // average and the index below 35; an error without a sentiment verdict; with a good one a stored signal,
  // and a buy out of the oldest transfer with a slot left, if there is one. A failed call is an error and
  // ends the bar there.
  ghost predicate EntryEnds(w: World, w1: World, ids: seq<nat>, w': World, r: Result<()>, p: Params, bar: Bar) {
    var m, read := bar.live, w1.(faults := Later(w1.faults, 1));
    if Fails(w1.faults, 0) then w' == read && r == Err(Infrastructure)
    else if !(Freed(w, ids, bar.symbol) && m.state.Some? && bar.price > m.state.value.ema && m.state.value.rsi < 35.0)
            || m.verdict == Some(false) then
      w' == read && r == Ok(())
    else if m.verdict.None? then w' == read && r == Err(Infrastructure)
    else if Fails(w1.faults, 1) then w' == w1.(next := w1.next + 1, faults := Later(w1.faults, 2)) && r == Err(Infrastructure)
    else
      var signal := EntryAt(bar.symbol, bar.price, m.state.value);
      var w2 := w1.(next := w1.next + 1, faults := Later(w1.faults, 3), db := w1.db.(signals := w1.db.signals[w1.next := signal]));
      SignalEnds(w2, Fails(w1.faults, 2), w', r, p, w1.next, signal)
  }

  // What follows the stored signal: the budget query, then the buy.
  ghost predicate SignalEnds(w: World, failed: bool, w': World, r: Result<()>, p: Params, sig: nat, signal: Signal)
    requires sig in w.db.signals
  {
    && (failed ==> w' == w && r == Err(Infrastructure))
    && (!failed && NoneLeft(w.db.transfers) ==> w' == w && r == Ok(()))
    && (!failed && !NoneLeft(w.db.transfers) ==> exists t :: Oldest(w.db.transfers, t) && BuyEnds(w, w', r, p, sig, signal, t))
  }

  // The live bar after its exits.
  function AfterExits(w: World, p: Params, bar: Bar): (World, Result<()>) {
    var (w2, entry) := EvaluateBuySignal(w, bar.symbol, bar.price, bar.live);
    if entry.Err? then (w2, Err(entry.error)) else
    if entry.value.None? then (w2, Ok(())) else
    AfterSignal(w2, p, bar, entry.value.value.0, entry.value.value.1)
  }

  function AfterSignal(w: World, p: Params, bar: Bar, sig: nat, signal: Signal): (World, Result<()>) {
    var (w3, failed) := Read(w);
    if failed then (w3, Err(Infrastructure)) else
    var budget := AvailableBudget(w3.db.transfers, bar.transferScan);
    if budget.None? || budget.value !in w3.db.transfers then (w3, Ok(())) else
    var (w4, bought) := ExecuteBuyTrade(w3, p, sig, signal, Some((budget.value, w3.db.transfers[budget.value])));
    (w4, if bought.Ok? then Ok(()) else Err(bought.error))
  }

  lemma LiveBarIs(w: World, p: Params, bar: Bar)
    requires ExitPass(w, bar.symbol, bar.price, bar.scan).1.Ok?
    ensures LiveBar(w, p, bar) == AfterExits(ExitPass(w, bar.symbol, bar.price, bar.scan).0, p, bar)
  {
    hide ExitPass, EvaluateBuySignal, AvailableBudget, ExecuteBuyTrade;
  }

  // The query reads every transfer.
  ghost predicate ReadsAll(scan: seq<nat>, transfers: map<nat, Transfer>) {
    forall t :: t in transfers ==> t in scan
  }

  lemma {:induction false} BudgetFound(transfers: map<nat, Transfer>, scan: seq<nat>)
    requires ReadsAll(scan, transfers)
    ensures match AvailableBudget(transfers, scan)
      case Some(t) => Oldest(transfers, t) && !NoneLeft(transfers)
      case None => NoneLeft(transfers)
  {
    hide AvailableBudget;
    BudgetIsOldest(transfers, scan);
  }

  lemma SignalBought(w: World, p: Params, bar: Bar, sig: nat, signal: Signal)
    requires OrdersKnown(w) && w.next !in w.db.trades && sig in w.db.signals
    requires ReadsAll(bar.transferScan, w.db.transfers) && !(exists id :: Blocking(w.db.trades, id, signal.symbol))
    ensures var (w', r) := AfterSignal(w, p, bar, sig, signal);
      SignalEnds(w.(faults := Later(w.faults, 1)), Fails(w.faults, 0), w', r, p, sig, signal)
  {
    hide ExecuteBuyTrade, AvailableBudget, Blocking, BuyEnds, Later, Fails, NoneLeft, ReadsAll;
    LaterZero(w.faults);
    LaterNext(w.faults, 0);
    BudgetFound(w.db.transfers, bar.transferScan);
    var w1, budget := w.(faults := Later(w.faults, 1)), AvailableBudget(w.db.transfers, bar.transferScan);
    if !Fails(w.faults, 0) && budget.Some? {
      KnownStays(w, w1);
      hide OrdersKnown;
      BuyEndsAs(w1, p, sig, signal, budget.value);
      assert Oldest(w.db.transfers, budget.value);
    }
  }

  lemma LaterSum(bits: seq<bool>, k: nat)
    ensures Later(Later(bits, k), 1) == Later(bits, k + 1) && (Fails(Later(bits, k), 0) <==> Fails(bits, k))
  {}

  lemma EntryOutcome(w: World, w1: World, ids: seq<nat>, p: Params, bar: Bar)
    requires PassSold(w, w1, ids, bar.symbol, bar.price) && Fresh(w.db, w.next) && OrdersKnown(w)
    requires ReadsAll(bar.transferScan, w.db.transfers)
    ensures var (w', r) := AfterExits(w1, p, bar); EntryEnds(w, w1, ids, w', r, p, bar)
  {
    hide PassSold, EvaluateBuySignal, AfterSignal, SignalEnds, Freed, Blocking, OrdersKnown, Fails, Later;
    StillClean(w, w1, ids, bar.symbol, bar.price);
    FreedExactly(w, w1, ids, bar.symbol, bar.price);
    SignalOutcome(w1, bar.symbol, bar.price, bar.live);
    Verdicts(bar.live.verdict);
    var entry := EvaluateBuySignal(w1, bar.symbol, bar.price, bar.live);
    if entry.1.Ok? && entry.1.value.Some? {
      KnownStays(w1, entry.0);
      LaterSum(w1.faults, 2);
      SignalBought(entry.0, p, bar, w1.next, entry.1.value.value.1);
    }
  }

  // A verdict is missing, bad or good.
  lemma Verdicts(verdict: Option<bool>)
    ensures verdict == None || verdict == Some(false) || verdict == Some(true)
  {
    if verdict.Some? {
      if verdict.value { assert verdict == Some(true); } else { assert verdict == Some(false); }
    }
  }

  lemma KnownStays(w: World, w': World)
    requires OrdersKnown(w) && w'.db.trades == w.db.trades && w'.log == w.log
    ensures OrdersKnown(w')
  {}

  // How a live bar ends: unchanged if its exit transaction fails; otherwise exactly the buys that must exit
  // have been sold, and the entry that follows ends as EntryEnds says.
  ghost predicate BarEnds(w: World, w': World, r: Result<()>, p: Params, bar: Bar) {
    if Fails(w.faults, 0) then w' == w.(faults := Later(w.faults, 1)) && r == Err(Infrastructure)
    else exists w1, ids :: PassSold(w, w1, ids, bar.symbol, bar.price) && EntryEnds(w, w1, ids, w', r, p, bar)
  }

  // A live bar, whichever calls fail and whichever orders are refused: it sells exactly the buys that must
  // exit; then, exactly when the symbol is free and every gate passes, it stores a signal and buys the
  // fitting quantity out of the oldest transfer with a slot left.
  lemma {:induction false} LiveBarOutcome(w: World, p: Params, bar: Bar)
    requires Clean(w) && IsScan(bar.scan, w.db.trades) && ReadsAll(bar.transferScan, w.db.transfers)
    ensures BarEnds(w, LiveBar(w, p, bar).0, LiveBar(w, p, bar).1, p, bar)
  {
    hide PassSold, ExitPass, AfterExits, EntryEnds, ForeignKeys, Fresh, OrdersKnown, EvaluateBuySignal, ExecuteBuyTrade, AvailableBudget;
    PassOutcome(w, bar.symbol, bar.price, bar.scan);
    if !Fails(w.faults, 0) {
      LiveBarIs(w, p, bar);
      hide LiveBar;
      var w1 := ExitPass(w, bar.symbol, bar.price, bar.scan).0;
      var ids :| PassSold(w, w1, ids, bar.symbol, bar.price);
      EntryOutcome(w, w1, ids, p, bar);
    }
  }

  // ---- after any history ----

  lemma {:induction false} ReachedOrders(p: Params, workers: nat, setup: seq<Action>, v: World, log: Log, tiers: Tiers, w: nat, inputs: seq<Input>)
    requires Ready(Run(Init(p, workers), setup), v, p, w)
    requires forall i :: 0 <= i < |inputs| && inputs[i].BarIn? ==> ReadsOnce(inputs[i].bar)
    ensures OrdersKnown(FullHistory(v, log, p, tiers, inputs).world)
  {
    hide Run, Next, Core, FullHistory, OrdersKnown;
    var s := Run(Init(p, workers), setup);
    Reachable(p, workers, setup);
    var actions := HistoryIsRun(s, v, log, p, tiers, w, inputs);
    RunKeepsInv(s, actions);
    InvCore(Run(s, actions));
    CoreKnowsOrders(Run(s, actions), FullHistory(v, log, p, tiers, inputs).world);
  }

  lemma CoreKnowsOrders(s: State, v: World)
    requires Core(s) && Agree(s, v)
    ensures OrdersKnown(v)
  {
    hide PcsOk, OneOwner, Honest, ConsumerOk, LogOk, Refs, OneSell;
  }

  // From empty tables and any set-up, over any history of bars and broker updates and any failures in it:
  // the next live bar, if its identifiers are unused, ends as BarEnds says.
  lemma {:induction false} NextBarOutcome(p: Params, workers: nat, setup: seq<Action>, v: World, log: Log, tiers: Tiers, w: nat, inputs: seq<Input>, bar: Bar)
    requires Ready(Run(Init(p, workers), setup), v, p, w)
    requires forall i :: 0 <= i < |inputs| && inputs[i].BarIn? ==> ReadsOnce(inputs[i].bar)
    requires var o := FullHistory(v, log, p, tiers, inputs).world;
      Fresh(o.db, o.next) && IsScan(bar.scan, o.db.trades) && ReadsAll(bar.transferScan, o.db.transfers)
    ensures var o := FullHistory(v, log, p, tiers, inputs).world; BarEnds(o, LiveBar(o, p, bar).0, LiveBar(o, p, bar).1, p, bar)
  {
    hide Run, FullHistory, LiveBar, BarEnds, OrdersKnown, ForeignKeys, Fresh, IsScan;
    ReachedSchema(p, workers, setup, v, log, tiers, w, inputs);
    ReachedOrders(p, workers, setup, v, log, tiers, w, inputs);
    LiveBarOutcome(FullHistory(v, log, p, tiers, inputs).world, p, bar);
  }
}
