/** Whole histories of the process: any list of bars through the full coordinator and of broker
    updates, whatever fails in between, is a run of the ledger machine. */
module Histories {
  import opened Model
  import opened Database
  import opened Adaptive
  import opened Ledger
  import opened LedgerNext
  import opened LedgerCore
  import opened LedgerEffects
  import opened LedgerMoney
  import opened LedgerTheorems
  import opened Calls
  import opened Signals
  import opened Shadow
  import opened Runs
  import opened Erasure
  import opened ExitPasses
  import opened PeakTracking
  import Mapper

  // The machine agrees with the world, worker w is idle, and the settings are those of the service.
  ghost predicate Ready(s: State, v: World, p: Params, w: nat) {
    Agree(s, v) && s.params == p && w < |s.pcs| && s.pcs[w].Idle?
  }

  // ---- the live bar ----

  lemma {:induction false} ReturnToIdle(s: State, actions: seq<Action>, v: World, p: Params, w: nat)
    requires Agree(Run(s, actions), v) && s.params == p && w < |Run(s, actions).pcs|
    ensures Ready(Run(s, actions + [Abandon(w)]), v, p, w)
  {
    hide Run;
    RunSnoc(s, actions, Abandon(w));
    RunParams(s, actions);
  }

  lemma ExitsAreRun(s: State, v: World, p: Params, w: nat, bar: Bar) returns (actions: seq<Action>)
    requires Ready(s, v, p, w)
    ensures Ready(Run(s, actions), ExitPass(v, bar.symbol, bar.price, bar.scan).0, p, w)
  {
    hide Run, ExitPass;
    var before := ExitCallIsRun(s, v, w, bar.symbol, bar.price, bar.scan);
    ReturnToIdle(s, before, ExitPass(v, bar.symbol, bar.price, bar.scan).0, p, w);
    actions := before + [Abandon(w)];
  }

  // Where the signal step leaves the worker: holding the signal it stored, or idle.
  ghost predicate Evaluated(s: State, v: World, p: Params, w: nat, r: Result<Option<(nat, Signal)>>) {
    && Agree(s, v) && s.params == p && w < |s.pcs|
    && s.pcs[w] == if r.Ok? && r.value.Some? then Signalled(r.value.value.0, r.value.value.1) else Idle
  }

  lemma EvaluationIsRun(s: State, v: World, p: Params, w: nat, symbol: string, price: real, market: Market) returns (actions: seq<Action>)
    requires Ready(s, v, p, w)
    ensures var x := EvaluateBuySignal(v, symbol, price, market); Evaluated(Run(s, actions), x.0, p, w, x.1)
  {
    hide HasOpenPosition, Next, LiveGate;
    var r := EvaluateBuySignal(v, symbol, price, market).1;
    if r.Ok? && r.value.Some? {
      var (sig, signal) := r.value.value;
      var gate, create := PassGate(w, symbol), CreateBuySignal(w, sig, price, signal.indicators);
      actions := [gate] + [create];
      Run1(s, gate);
      RunSnoc(s, [gate], create);
      GateStep(s, w, symbol);
      CreateStep(Next(s, gate), w, sig, symbol, price, signal.indicators);
    } else {
      actions := [];
    }
  }

  // After the signal: the budget query and the buy.
  function Bought(v: World, p: Params, bar: Bar, sig: nat, signal: Signal): World {
    var (v1, failed) := Read(v);
    if failed then v1 else
    var budget := AvailableBudget(v1.db.transfers, bar.transferScan);
    if budget.None? || budget.value !in v1.db.transfers then v1
    else ExecuteBuyTrade(v1, p, sig, signal, Some((budget.value, v1.db.transfers[budget.value]))).0
  }

  lemma BuyIsRun(s: State, v: World, p: Params, w: nat, bar: Bar, sig: nat, signal: Signal) returns (actions: seq<Action>)
    requires Agree(s, v) && s.params == p && w < |s.pcs| && s.pcs[w] == Signalled(sig, signal)
    ensures Ready(Run(s, actions), Bought(v, p, bar, sig, signal), p, w)
  {
    hide Next, AvailableBudget, ExecuteBuyTrade;
    var (v1, failed) := Read(v);
    var budget := AvailableBudget(v1.db.transfers, bar.transferScan);
    if failed || budget.None? || budget.value !in v1.db.transfers {
      ReturnToIdle(s, [], v1, p, w);
      actions := [] + [Abandon(w)];
    } else {
      var find, account := FindBudget(w, bar.transferScan), v1.db.transfers[budget.value];
      Run1(s, find);
      FindBudgetStep(s, w, sig, signal, bar.transferScan, budget.value);
      var more := BuyCallIsRun(Next(s, find), v1, w, sig, signal, budget.value, account);
      actions := [find] + more;
      RunConcat(s, [find], more);
      RunParams(s, actions);
    }
  }

  lemma LiveBarParts(v: World, p: Params, bar: Bar)
    ensures var (v1, exits) := ExitPass(v, bar.symbol, bar.price, bar.scan);
      var (v2, entry) := EvaluateBuySignal(v1, bar.symbol, bar.price, bar.live);
      LiveBar(v, p, bar).0 ==
        if exits.Err? then v1
        else if entry.Err? || entry.value.None? then v2
        else Bought(v2, p, bar, entry.value.value.0, entry.value.value.1)
  {
    hide ExitPass, EvaluateBuySignal, AvailableBudget, ExecuteBuyTrade;
  }

  lemma LiveBarIsRun(s: State, v: World, p: Params, w: nat, bar: Bar) returns (actions: seq<Action>)
    requires Ready(s, v, p, w)
    ensures Ready(Run(s, actions), LiveBar(v, p, bar).0, p, w)
  {
    hide Run, ExitPass, EvaluateBuySignal, Bought, LiveBar;
    LiveBarParts(v, p, bar);
    var (v1, exits) := ExitPass(v, bar.symbol, bar.price, bar.scan);
    actions := ExitsAreRun(s, v, p, w, bar);
    if exits.Ok? {
      var (v2, entry) := EvaluateBuySignal(v1, bar.symbol, bar.price, bar.live);
      var evaluation := EvaluationIsRun(Run(s, actions), v1, p, w, bar.symbol, bar.price, bar.live);
      RunConcat(s, actions, evaluation);
      actions := actions + evaluation;
      if entry.Ok? && entry.value.Some? {
        var buy := BuyIsRun(Run(s, actions), v2, p, w, bar, entry.value.value.0, entry.value.value.1);
        RunConcat(s, actions, buy);
        actions := actions + buy;
      }
    }
  }

  // ---- the shadow pass ----

  // The bar's table read meets no row twice.
  ghost predicate ReadsOnce(bar: Bar) {
    forall i, j :: 0 <= i < j < |bar.scan| ==> bar.scan[i] != bar.scan[j]
  }

  lemma CoreIsSchema(s: State)
    requires Core(s)
    ensures SchemaHolds(s.db)
  {
    hide PcsOk, OneOwner, Honest, ConsumerOk, LogOk;
    forall i, j | i in s.db.trades && j in s.db.trades && i != j ensures !ClashesWith(s.db.trades[i], s.db.trades[j]) {
      assert OrderLogged(i, s.db.trades[i], s.log) && OrderLogged(j, s.db.trades[j], s.log);
      assert !Siblings(s.db.trades[i], s.db.trades[j]);
    }
    forall id | id in s.db.trades ensures RefsOk(s.db, s.db.trades[id]) {}
  }

  // The shadow transaction either fails and changes nothing or is the machine's peak step.
  lemma ShadowIsRun(s: State, v: World, p: Params, w: nat, log: Log, bar: Bar, tiers: Tiers) returns (actions: seq<Action>)
    requires Ready(s, v, p, w) && Core(s) && ReadsOnce(bar)
    ensures Ready(Run(s, actions), v.(db := ShadowExits(v.db, log, bar, tiers).0), p, w)
  {
    hide Next, Core, ObserveOne, RaisePeaks, SchemaHolds, OpenBuy;
    var fetched := OpenBuys(v.db.trades, bar.symbol, bar.scan);
    CoreIsSchema(s);
    ShadowCommits(v.db, log.decisions, bar, tiers);
    if Head(log.faults) {
      actions := [];
    } else {
      actions := [TrackPeaks(bar.symbol, bar.price, bar.scan)];
      Run1(s, TrackPeaks(bar.symbol, bar.price, bar.scan));
      TrackStep(s, bar);
    }
  }

  lemma {:induction false} ShadowCommits(db: Tables, decisions: seq<Decision>, bar: Bar, tiers: Tiers)
    requires SchemaHolds(db) && ReadsOnce(bar)
    ensures var fetched := OpenBuys(db.trades, bar.symbol, bar.scan); var r := Observe(db, decisions, fetched, bar.price, tiers);
      r.Ok? && r.value.db == db.(trades := RaisePeaks(db.trades, Ids(fetched), bar.price))
  {
    QueryExact(db.trades, bar.symbol, bar.scan);
    ObserveRaisesPeaks(db, decisions, OpenBuys(db.trades, bar.symbol, bar.scan), bar.price, tiers);
  }

  lemma TrackStep(s: State, bar: Bar)
    ensures Next(s, TrackPeaks(bar.symbol, bar.price, bar.scan))
         == s.(db := s.db.(trades := RaisePeaks(s.db.trades, Ids(OpenBuys(s.db.trades, bar.symbol, bar.scan)), bar.price)))
  {
    hide OpenBuys, RaisePeaks;
  }

  lemma FullBarIsRun(s: State, v: World, p: Params, w: nat, log: Log, bar: Bar, tiers: Tiers) returns (actions: seq<Action>)
    requires Ready(s, v, p, w) && Core(s) && ReadsOnce(bar)
    ensures Ready(Run(s, actions), FullBar(v, log, p, tiers, bar).0, p, w)
  {
    hide Run, ShadowExits, LiveBar, Core;
    actions := ShadowIsRun(s, v, p, w, log, bar, tiers);
    var live := LiveBarIsRun(Run(s, actions), v.(db := ShadowExits(v.db, log, bar, tiers).0), p, w, bar);
    RunConcat(s, actions, live);
    actions := actions + live;
  }

  // ---- whole histories ----

  lemma AbandonStep(s: State)
    ensures Next(s, AbandonConsumer) == s.(consumer := Waiting)
  {}

  lemma UpdateIsRun(s: State, v: World, p: Params, w: nat, order: nat, event: string, fill: Fill) returns (actions: seq<Action>)
    requires Ready(s, v, p, w)
    ensures Ready(Run(s, actions), OnUpdate(v, p, order, event, fill).0, p, w)
  {
    hide Next, ApplyTradeUpdates;
    var status := Mapper.StatusOf(event);
    if status.None? {
      actions := [];
    } else {
      Run1(s, AbandonConsumer);
      AbandonStep(s);
      var more := UpdateCallIsRun(Next(s, AbandonConsumer), v, order, event, status.value, fill);
      actions := [AbandonConsumer] + more;
      RunConcat(s, [AbandonConsumer], more);
      RunParams(s, actions);
    }
  }

  lemma OneInputIsRun(s: State, o: Outcome, p: Params, tiers: Tiers, w: nat, input: Input) returns (actions: seq<Action>)
    requires Ready(s, o.world, p, w) && Core(s) && (input.BarIn? ==> ReadsOnce(input.bar))
    ensures Ready(Run(s, actions), Step(o, p, tiers, input).world, p, w)
  {
    hide Run, FullBar, OnUpdate, Core;
    match input
    case BarIn(bar) => actions := FullBarIsRun(s, o.world, p, w, o.log, bar, tiers);
    case UpdateIn(order, event, fill) => actions := UpdateIsRun(s, o.world, p, w, order, event, fill);
  }

  // Any history handled by the full coordinator and the update consumer is a run of the machine.
  lemma {:induction false} HistoryIsRun(s: State, v: World, log: Log, p: Params, tiers: Tiers, w: nat, inputs: seq<Input>)
    returns (actions: seq<Action>)
    requires Ready(s, v, p, w) && Inv(s)
    requires forall i :: 0 <= i < |inputs| && inputs[i].BarIn? ==> ReadsOnce(inputs[i].bar)
    ensures Ready(Run(s, actions), FullHistory(v, log, p, tiers, inputs).world, p, w)
  {
    hide Next, Inv, Step;
    if inputs == [] {
      actions := [];
    } else {
      var front, last := inputs[..|inputs| - 1], inputs[|inputs| - 1];
      var before := HistoryIsRun(s, v, log, p, tiers, w, front);
      RunKeepsInv(s, before);
      InvCore(Run(s, before));
      assert last.BarIn? ==> ReadsOnce(last.bar);
      var more := OneInputIsRun(Run(s, before), FullHistory(v, log, p, tiers, front), p, tiers, w, last);
      actions := before + more;
      RunConcat(s, before, more);
    }
  }

  lemma InvCore(s: State)
    requires Inv(s)
    ensures Core(s)
  {}

  // What a history must leave behind: every reference in place, one sell per buy and of its whole
  // quantity, each accepted order for an existing row, and no order accepted twice for one row.
  ghost predicate Sound(v: World) {
    Refs(v.db) && OneSell(v.db.trades) && Matched(v.db.trades) && LogOk(v.db.trades, v.log)
  }

  // Slots left plus live buys of a transfer.
  predicate SameSlots(v: World, v': World, t: nat)
    requires t in v.db.transfers && t in v'.db.transfers
  {
    var left, left' := v.db.transfers[t].remaining, v'.db.transfers[t].remaining;
    left.Some? ==>
      left'.Some? && left'.value + |LiveBuys(v'.db.trades, t)| == left.value + |LiveBuys(v.db.trades, t)|
  }

  // From empty tables and any set-up, whatever bars and updates follow and whichever database and
  // broker calls fail, the tables stay sound and every transfer's slots are conserved.
  lemma {:induction false} HistorySafe(p: Params, workers: nat, setup: seq<Action>, v: World, log: Log, tiers: Tiers, w: nat, inputs: seq<Input>, t: nat)
    requires Ready(Run(Init(p, workers), setup), v, p, w)
    requires forall i :: 0 <= i < |inputs| && inputs[i].BarIn? ==> ReadsOnce(inputs[i].bar)
    requires t in v.db.transfers
    ensures var v' := FullHistory(v, log, p, tiers, inputs).world;
      Sound(v') && t in v'.db.transfers && SameSlots(v, v', t)
  {
    hide Run, Next, Core, FullHistory, Positions, Sized;
    var s := Run(Init(p, workers), setup);
    Reachable(p, workers, setup);
    var actions := HistoryIsRun(s, v, log, p, tiers, w, inputs);
    var s' := Run(s, actions);
    RunKeepsInv(s, actions);
    InvSound(s', FullHistory(v, log, p, tiers, inputs).world);
    InitialStays(s, actions, t);
    assert SlotOk(s.initial[t], s.db.transfers[t].remaining, |LiveBuys(s.db.trades, t)|);
    assert SlotOk(s'.initial[t], s'.db.transfers[t].remaining, |LiveBuys(s'.db.trades, t)|);
  }

  lemma InvSound(s: State, v: World)
    requires Inv(s) && Agree(s, v)
    ensures Sound(v)
  {}

  lemma {:induction false} InitialStays(s: State, actions: seq<Action>, t: nat)
    requires t in s.db.transfers && t in s.initial && Inv(s)
    ensures t in Run(s, actions).db.transfers && t in Run(s, actions).initial && Run(s, actions).initial[t] == s.initial[t]
  {
    hide Next, Inv;
    if actions != [] {
      var front := actions[..|actions| - 1];
      InitialStays(s, front, t);
      RunKeepsInv(s, front);
      InitialStep(Run(s, front), actions[|actions| - 1], t);
    }
  }

  lemma InitialStep(s: State, a: Action, t: nat)
    requires Inv(s) && t in s.db.transfers && t in s.initial
    ensures t in Next(s, a).db.transfers && t in Next(s, a).initial && Next(s, a).initial[t] == s.initial[t]
  {
    hide Next, ChangeOf, Core, SellsParent;
    NextEffect(s, a);
  }
}
