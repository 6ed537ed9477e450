/** Broker events on one persisted order, replayed in any multiplicity by the single consumer. */
module Replays {
  import opened Model
  import opened Database
  import opened Ledger
  import opened Calls
  import opened ExitOutcomes
  import Mapper

  datatype Event = Event(name: string, fill: Fill)

  // The consumer loop's body: map the event, then ApplyTradeUpdates without database failures.
  ghost function Handle(db: Tables, p: Params, order: nat, e: Event): Tables {
    match Mapper.StatusOf(e.name)
    case None => db
    case Some(status) => ApplyTradeUpdates(World(db, [], [], [], 0), p, order, status, e.fill).0.db
  }

  ghost function Replay(db: Tables, p: Params, order: nat, events: seq<Event>): Tables {
    if events == [] then db
    else Handle(Replay(db, p, order, events[..|events| - 1]), p, order, events[|events| - 1])
  }

  // ---- the independent account of a replay ----

  predicate Settles(e: Event) {
    Mapper.StatusOf(e.name).Some? && Mapper.StatusOf(e.name).value.Terminal()
  }

  predicate Settled(events: seq<Event>) { exists i :: 0 <= i < |events| && Settles(events[i]) }

  // The events up to and including the first that maps to a terminal status.
  function UpToSettled(events: seq<Event>): seq<Event> {
    if events == [] then [] else
    var front := UpToSettled(events[..|events| - 1]);
    if front != [] && Settles(front[|front| - 1]) then front else front + [events[|events| - 1]]
  }

  // A row after events none of which is ignored but the unmapped ones.
  function Folded(p: Params, row: Trade, events: seq<Event>): Trade {
    if events == [] then row else
    var before := Folded(p, row, events[..|events| - 1]);
    var last := events[|events| - 1];
    match Mapper.StatusOf(last.name)
    case None => before
    case Some(status) => Reconciled(p, before, status, last.fill)
  }

  // The tables with row `id` overwritten and, when that cancels or rejects a buy, one slot refunded.
  function Rewritten(db: Tables, id: nat, row: Trade): Tables {
    var db1 := db.(trades := db.trades[id := row]);
    if row.status.Refunds() && row.side.Buy? && row.transfer.Some? then Try(db1, true, IncrementRemaining(db1, row.transfer.value))
    else db1
  }

  // The schema's constraints hold, and row `id` carries the order.
  ghost predicate Persisted(db: Tables, id: nat, order: nat) {
    && id in db.trades && db.trades[id].order == Some(order)
    && (forall k :: k in db.trades && k != id ==> !ClashesWith(db.trades[k], db.trades[id]))
    && KeysOk(db, db.trades[id])
  }

  ghost predicate SameRow(a: Trade, b: Trade) {
    a.order == b.order && a.side == b.side && a.parent == b.parent && a.transfer == b.transfer && a.signal == b.signal
  }

  lemma FoundById(db: Tables, id: nat, order: nat)
    requires Persisted(db, id, order)
    ensures ByOrder(db.trades, order) == Some(id)
  {
    var k := ByOrder(db.trades, order).value;
    if k != id { assert ClashesWith(db.trades[k], db.trades[id]); }
  }

  // One event on a row that is not settled yet.
  lemma HandleOne(db: Tables, p: Params, id: nat, order: nat, e: Event)
    requires Persisted(db, id, order) && !db.trades[id].status.Terminal()
    ensures Handle(db, p, order, e) ==
      match Mapper.StatusOf(e.name) case None => db case Some(status) => Rewritten(db, id, Reconciled(p, db.trades[id], status, e.fill))
  {
    FoundById(db, id, order);
    var status := Mapper.StatusOf(e.name);
    if status.Some? {
      var row := Reconciled(p, db.trades[id], status.value, e.fill);
      forall k | k in db.trades && k != id ensures !ClashesWith(db.trades[k], row) {
        assert !ClashesWith(db.trades[k], db.trades[id]);
      }
      assert Put(db, id, row) == Ok(db.(trades := db.trades[id := row]));
    }
  }

  // Every event on a settled row is ignored.
  lemma HandleSettled(db: Tables, p: Params, id: nat, order: nat, e: Event)
    requires Persisted(db, id, order) && db.trades[id].status.Terminal()
    ensures Handle(db, p, order, e) == db
  {
    FoundById(db, id, order);
  }

  lemma RewrittenPersists(db: Tables, id: nat, order: nat, row: Trade)
    requires Persisted(db, id, order) && SameRow(db.trades[id], row)
    ensures Persisted(Rewritten(db, id, row), id, order)
    ensures Rewritten(db, id, row).trades == db.trades[id := row]
  {
    var db' := Rewritten(db, id, row);
    forall k | k in db'.trades && k != id ensures !ClashesWith(db'.trades[k], row) {
      assert !ClashesWith(db.trades[k], db.trades[id]);
    }
  }

  lemma {:induction false} FoldedSame(p: Params, row: Trade, events: seq<Event>)
    ensures SameRow(row, Folded(p, row, events))
  {
    if events != [] { FoldedSame(p, row, events[..|events| - 1]); }
  }

  // The status after the events is the row's own, or what the last mapped event says.
  lemma {:induction false} FoldedStatus(p: Params, row: Trade, events: seq<Event>)
    requires !row.status.Terminal()
    requires forall i :: 0 <= i < |events| - 1 ==> !Settles(events[i])
    ensures Folded(p, row, events).status.Terminal() <==> events != [] && Settles(events[|events| - 1])
  {
    if events != [] { FoldedStatus(p, row, events[..|events| - 1]); }
  }

  lemma SettledSnoc(events: seq<Event>)
    ensures Settled(events) <==> events != [] && (Settled(events[..|events| - 1]) || Settles(events[|events| - 1]))
  {
    hide Settles;
    if events != [] && Settled(events[..|events| - 1]) {
      var i :| 0 <= i < |events| - 1 && Settles(events[..|events| - 1][i]);
      assert Settles(events[i]);
    }
    if Settled(events) {
      var i :| 0 <= i < |events| && Settles(events[i]);
      if i < |events| - 1 { assert Settles(events[..|events| - 1][i]); }
    }
  }

  lemma {:induction false} CutSize(events: seq<Event>)
    ensures |UpToSettled(events)| <= |events|
  {
    hide Settles;
    if events != [] { CutSize(events[..|events| - 1]); }
  }

  // The cut stops short of the end only behind its first terminal event.
  lemma {:induction false} CutSettles(events: seq<Event>)
    ensures var cut := UpToSettled(events); |cut| < |events| ==> cut != [] && Settles(cut[|cut| - 1])
  {
    hide Settles;
    if events != [] {
      CutSettles(events[..|events| - 1]);
      CutSize(events[..|events| - 1]);
    }
  }

  lemma {:induction false} CutIsPrefix(events: seq<Event>)
    ensures UpToSettled(events) <= events
  {
    hide Settles;
    if events != [] {
      var front := events[..|events| - 1];
      var cut := UpToSettled(front);
      CutIsPrefix(front);
      CutSettles(front);
      if cut != [] && Settles(cut[|cut| - 1]) {
        assert cut == front[..|cut|] == events[..|cut|];
      } else {
        assert cut == front;
        assert front + [events[|events| - 1]] == events;
      }
    }
  }

  lemma {:induction false} CutLive(events: seq<Event>, i: nat)
    requires i < |UpToSettled(events)| - 1
    ensures !Settles(UpToSettled(events)[i])
  {
    hide Settles;
    var front := UpToSettled(events[..|events| - 1]);
    if i < |front| - 1 { CutLive(events[..|events| - 1], i); }
  }

  lemma {:induction false} CutExactly(events: seq<Event>)
    ensures var cut := UpToSettled(events); Settled(events) <==> cut != [] && Settles(cut[|cut| - 1])
  {
    hide Settles, Settled;
    SettledSnoc(events);
    if events != [] { CutExactly(events[..|events| - 1]); }
  }

  lemma {:induction false} PrefixShape(events: seq<Event>)
    ensures var cut := UpToSettled(events);
      && cut <= events && (forall i :: 0 <= i < |cut| - 1 ==> !Settles(cut[i]))
      && (cut == events || (cut != [] && Settles(cut[|cut| - 1])))
      && (Settled(events) <==> cut != [] && Settles(cut[|cut| - 1]))
  {
    CutIsPrefix(events);
    var cut := UpToSettled(events);
    forall i: nat | i < |cut| - 1 ensures !Settles(cut[i]) { CutLive(events, i); }
    CutSettles(events);
    CutExactly(events);
  }

  lemma RewriteTwice(db: Tables, p: Params, id: nat, order: nat, row: Trade, row': Trade)
    requires Persisted(db, id, order) && SameRow(db.trades[id], row) && !row.status.Terminal()
    ensures Rewritten(Rewritten(db, id, row), id, row') == Rewritten(db, id, row')
  {
    assert db.trades[id := row][id := row'] == db.trades[id := row'];
  }

  lemma {:induction false} ReplayNext(db: Tables, p: Params, id: nat, order: nat, events: seq<Event>, e: Event)
    requires Persisted(db, id, order) && !db.trades[id].status.Terminal()
    requires forall i :: 0 <= i < |events| ==> !Settles(events[i])
    ensures Handle(Rewritten(db, id, Folded(p, db.trades[id], events)), p, order, e)
         == Rewritten(db, id, Folded(p, db.trades[id], events + [e]))
  {
    var row := Folded(p, db.trades[id], events);
    FoldedSame(p, db.trades[id], events);
    FoldedStatus(p, db.trades[id], events);
    RewrittenPersists(db, id, order, row);
    HandleOne(Rewritten(db, id, row), p, id, order, e);
    assert (events + [e])[..|events|] == events;
    if Mapper.StatusOf(e.name).Some? {
      RewriteTwice(db, p, id, order, row, Reconciled(p, row, Mapper.StatusOf(e.name).value, e.fill));
    }
  }

  // Any replay on a live row ends with the row folded over the events up to the first terminal one,
  // and a buy's slot refunded once if that one cancels or rejects it; what comes later is ignored.
  lemma {:induction false} ReplayExactly(db: Tables, p: Params, id: nat, order: nat, events: seq<Event>)
    requires Persisted(db, id, order) && !db.trades[id].status.Terminal()
    ensures Replay(db, p, order, events) == Rewritten(db, id, Folded(p, db.trades[id], UpToSettled(events)))
  {
    if events == [] {
      assert db.trades[id := db.trades[id]] == db.trades;
    } else {
      var front, last := events[..|events| - 1], events[|events| - 1];
      ReplayExactly(db, p, id, order, front);
      PrefixShape(front);
      var cut := UpToSettled(front);
      if cut != [] && Settles(cut[|cut| - 1]) {
        var row := Folded(p, db.trades[id], cut);
        FoldedSame(p, db.trades[id], cut);
        FoldedStatus(p, db.trades[id], cut);
        RewrittenPersists(db, id, order, row);
        HandleSettled(Rewritten(db, id, row), p, id, order, last);
      } else {
        assert Settled(front) ==> false;
        NoneSettles(front);
        ReplayNext(db, p, id, order, front, last);
      }
    }
  }

  lemma NoneSettles(events: seq<Event>)
    requires !Settled(events)
    ensures forall i :: 0 <= i < |events| ==> !Settles(events[i])
  {}

  // Duplicates and later events change nothing once an event has settled the row.
  lemma {:induction false} ReplayStops(db: Tables, p: Params, id: nat, order: nat, events: seq<Event>, more: seq<Event>)
    requires Persisted(db, id, order) && !db.trades[id].status.Terminal() && Settled(events)
    ensures Replay(db, p, order, events + more) == Replay(db, p, order, events)
  {
    ReplayExactly(db, p, id, order, events + more);
    ReplayExactly(db, p, id, order, events);
    CutStays(events, more);
  }

  lemma {:induction false} CutStays(events: seq<Event>, more: seq<Event>)
    requires Settled(events)
    ensures UpToSettled(events + more) == UpToSettled(events)
  {
    if more == [] {
      assert events + more == events;
    } else {
      CutStays(events, more[..|more| - 1]);
      PrefixShape(events);
      assert (events + more)[..|events + more| - 1] == events + more[..|more| - 1];
    }
  }

  // ---- what a replay leaves in the row, from the events alone ----

  // The event gives the order its final status; everything that comes later is ignored.
  predicate Ends(e: Event) {
    e.name in {"fill", "rejected", "order_canceled_rejected", "canceled", "expired", "done_for_day"}
  }

  // The event says something about the row's status.
  predicate Counts(e: Event) {
    Ends(e) || e.name in {"new", "accepted_for_bidding", "partial_fill"}
  }

  predicate Cancels(e: Event) { Ends(e) && e.name != "fill" }

  // The i-th event is the first that ends the order.
  predicate Ending(events: seq<Event>, i: int) {
    0 <= i < |events| && Ends(events[i]) && forall j :: 0 <= j < i ==> !Ends(events[j])
  }

  // The i-th event is the last that counts.
  predicate Last(events: seq<Event>, i: int) {
    && 0 <= i < |events| && Counts(events[i]) && (forall j :: 0 <= j < i ==> !Ends(events[j]))
    && (Ends(events[i]) || forall j :: i < j < |events| ==> !Counts(events[j]))
  }

  lemma CountsExactly(e: Event)
    ensures Settles(e) <==> Ends(e)
    ensures Mapper.StatusOf(e.name).Some? <==> Counts(e)
    ensures Settles(e) && Mapper.StatusOf(e.name).value.Refunds() <==> Cancels(e)
  {
    Mapper.EventTable(e.name);
  }

  // The rows differ in status and fill price at most.
  predicate SameTerms(a: Trade, b: Trade) { b.(status := a.status, avgFill := a.avgFill) == a }

  // Events before the end change status and fill price alone.
  lemma {:induction false} FoldedLive(p: Params, row: Trade, events: seq<Event>)
    requires forall i :: 0 <= i < |events| ==> !Ends(events[i])
    ensures SameTerms(row, Folded(p, row, events))
  {
    hide Ends, Notional, Fee;
    if events != [] {
      FoldedLive(p, row, events[..|events| - 1]);
      CountsExactly(events[|events| - 1]);
    }
  }

  lemma {:induction false} FoldedTail(p: Params, row: Trade, events: seq<Event>, n: nat)
    requires n <= |events| && forall j :: n <= j < |events| ==> !Counts(events[j])
    ensures Folded(p, row, events) == Folded(p, row, events[..n])
  {
    hide Counts, Reconciled;
    if n == |events| {
      assert events[..n] == events;
    } else {
      CountsExactly(events[|events| - 1]);
      assert events[..|events| - 1][..n] == events[..n];
      FoldedTail(p, row, events[..|events| - 1], n);
    }
  }

  lemma {:induction false} LastInCut(events: seq<Event>, i: int)
    requires Last(events, i)
    ensures i < |UpToSettled(events)| && forall j :: i < j < |UpToSettled(events)| ==> !Counts(UpToSettled(events)[j])
  {
    hide Ends, Counts;
    var cut := UpToSettled(events);
    PrefixShape(events);
    forall j | 0 <= j < |cut| ensures cut[j] == events[j] && (Settles(cut[j]) <==> Ends(events[j])) {
      CountsExactly(cut[j]);
    }
  }

  lemma {:induction false} FoldedSnoc(p: Params, row: Trade, events: seq<Event>, e: Event)
    requires Mapper.StatusOf(e.name).Some?
    ensures Folded(p, row, events + [e]) == Reconciled(p, Folded(p, row, events), Mapper.StatusOf(e.name).value, e.fill)
  {
    hide Reconciled;
    assert (events + [e])[..|events|] == events;
  }

  lemma NoEndYet(events: seq<Event>, cut: seq<Event>, i: int)
    requires Last(events, i) && cut <= events && i < |cut|
    ensures cut[..i + 1] == cut[..i] + [events[i]] && forall j :: 0 <= j < i ==> !Ends(cut[..i][j])
  {
    hide Ends, Counts;
    forall j | 0 <= j < i ensures !Ends(cut[..i][j]) { assert cut[..i][j] == events[j]; }
  }

  lemma {:induction false} FoldedLast(p: Params, row: Trade, events: seq<Event>, i: int) returns (before: Trade)
    requires Last(events, i)
    ensures Mapper.StatusOf(events[i].name).Some? && SameTerms(row, before)
    ensures Folded(p, row, UpToSettled(events)) == Reconciled(p, before, Mapper.StatusOf(events[i].name).value, events[i].fill)
  {
    hide Reconciled, Ends, Counts, SameTerms, Folded, UpToSettled;
    var cut := UpToSettled(events);
    CutIsPrefix(events);
    LastInCut(events, i);
    FoldedTail(p, row, cut, i + 1);
    NoEndYet(events, cut, i);
    before := Folded(p, row, cut[..i]);
    FoldedLive(p, row, cut[..i]);
    CountsExactly(events[i]);
    FoldedSnoc(p, row, cut[..i], events[i]);
  }

  // A status as its broker event names it.
  predicate Named(status: Status, name: string) {
    match status
    case Pending => name in {"new", "accepted_for_bidding"}
    case Open => name == "partial_fill"
    case Filled => name == "fill"
    case Cancelled => name in {"canceled", "expired", "done_for_day"}
    case Rejected => name in {"rejected", "order_canceled_rejected"}
  }

  lemma FeeIs(quantity: real, price: real, pct: real)
    ensures Fee(Notional(quantity, price), pct) == quantity * price * pct
  {}

  // The two fees are these fractions of quantity times price of the fill.
  ghost predicate Charged(p: Params, row: Trade, fill: Fill) {
    && fill.avgPrice.Some? && row.commission.Some? && row.fxFee.Some?
    && row.commission.value == fill.quantity * fill.avgPrice.value * p.commissionPct
    && row.fxFee.value == fill.quantity * fill.avgPrice.value * p.fxPct
  }

  // Status and fill price are the event's, and on a priced fill the fees are charged; every other column stays.
  ghost predicate Updated(p: Params, row: Trade, row': Trade, status: Status, fill: Fill) {
    && row'.status == status && row'.avgFill == fill.avgPrice
    && (status == Filled && fill.avgPrice.Some? ==> Charged(p, row', fill))
    && (status != Filled || fill.avgPrice.None? ==> row'.commission == row.commission && row'.fxFee == row.fxFee)
    && row'.(status := row.status, avgFill := row.avgFill, commission := row.commission, fxFee := row.fxFee) == row
  }

  lemma ReconciledUpdates(p: Params, row: Trade, status: Status, fill: Fill)
    ensures Updated(p, row, Reconciled(p, row, status, fill), status, fill)
  {
    hide Fee, Notional;
    if fill.avgPrice.Some? {
      FeeIs(fill.quantity, fill.avgPrice.value, p.commissionPct);
      FeeIs(fill.quantity, fill.avgPrice.value, p.fxPct);
    }
  }

  // The row after an event that says `name`, compared with the row before all events.
  ghost predicate WrittenAs(p: Params, row: Trade, row': Trade, name: string, fill: Fill) {
    Named(row'.status, name) && Updated(p, row, row', row'.status, fill)
  }

  lemma ReconciledAs(p: Params, row: Trade, before: Trade, name: string, fill: Fill)
    requires SameTerms(row, before) && Mapper.StatusOf(name).Some?
    ensures WrittenAs(p, row, Reconciled(p, before, Mapper.StatusOf(name).value, fill), name, fill)
  {
    hide Reconciled, Charged;
    Mapper.EventTable(name);
    ReconciledUpdates(p, before, Mapper.StatusOf(name).value, fill);
  }

  // Whichever events are replayed on a live row, in whatever order and multiplicity, the row ends with the
  // status and the fill price of the last event that counts and, if that is a fill that names its price,
  // with the two fees as fractions of quantity times price; no other column changes.
  lemma {:induction false} ReplayColumns(db: Tables, p: Params, id: nat, order: nat, events: seq<Event>, i: int)
    requires Persisted(db, id, order) && !db.trades[id].status.Terminal() && Last(events, i)
    ensures id in Replay(db, p, order, events).trades
    ensures WrittenAs(p, db.trades[id], Replay(db, p, order, events).trades[id], events[i].name, events[i].fill)
  {
    hide Reconciled, UpToSettled, Ends, Counts, WrittenAs, SameTerms;
    var row := db.trades[id];
    ReplayExactly(db, p, id, order, events);
    FoldedSame(p, row, UpToSettled(events));
    RewrittenPersists(db, id, order, Folded(p, row, UpToSettled(events)));
    var before := FoldedLast(p, row, events, i);
    ReconciledAs(p, row, before, events[i].name, events[i].fill);
  }

  // Events none of which counts change nothing.
  lemma {:induction false} NothingCounts(db: Tables, p: Params, order: nat, events: seq<Event>)
    requires forall i :: 0 <= i < |events| ==> !Counts(events[i])
    ensures Replay(db, p, order, events) == db
  {
    hide Counts;
    if events != [] {
      NothingCounts(db, p, order, events[..|events| - 1]);
      CountsExactly(events[|events| - 1]);
    }
  }

  // If any event counts, one of them is the last.
  lemma {:induction false} SomeLast(events: seq<Event>)
    ensures (exists i :: Last(events, i)) || forall i :: 0 <= i < |events| ==> !Counts(events[i])
  {
    hide Counts, Ends;
    if events != [] {
      var front, n := events[..|events| - 1], |events| - 1;
      SomeLast(front);
      if i :| Last(front, i) {
        assert front[i] == events[i];
        if Ends(front[i]) || !Counts(events[n]) {
          assert Last(events, i);
        } else {
          NoEndBefore(events, n, i);
          assert Last(events, n);
        }
      } else if Counts(events[n]) {
        forall j | 0 <= j < n ensures !Ends(events[j]) { assert front[j] == events[j]; EndsCounts(events[j]); }
        assert Last(events, n);
      } else {
        forall j | 0 <= j < |events| ensures !Counts(events[j]) { assert j < n ==> front[j] == events[j]; }
      }
    }
  }

  lemma EndsCounts(e: Event)
    ensures Ends(e) ==> Counts(e)
  {}

  lemma NoEndBefore(events: seq<Event>, n: nat, i: int)
    requires n + 1 == |events| && Last(events[..n], i) && !Ends(events[i])
    ensures forall j :: 0 <= j < n ==> !Ends(events[j])
  {
    forall j: nat | j < n ensures !Ends(events[j]) {
      assert events[..n][j] == events[j] && events[..n][i] == events[i];
    }
  }

  // ---- slots and fees ----

  // The first ending event cancels or rejects the order.
  ghost predicate EndsInRefund(events: seq<Event>) {
    exists i :: Ending(events, i) && Cancels(events[i])
  }

  lemma {:induction false} EndingIsCut(events: seq<Event>, i: int)
    requires Ending(events, i)
    ensures i == |UpToSettled(events)| - 1 && UpToSettled(events)[i] == events[i] && Settles(events[i])
  {
    hide Ends, UpToSettled;
    var cut := UpToSettled(events);
    PrefixShape(events);
    CountsExactly(events[i]);
    assert Settled(events);
    hide Settled;
    forall j | 0 <= j < |cut| ensures cut[j] == events[j] && (Settles(cut[j]) <==> Ends(events[j])) {
      CountsExactly(cut[j]);
    }
  }

  lemma {:induction false} CutIsEnding(events: seq<Event>)
    requires var cut := UpToSettled(events); cut != [] && Settles(cut[|cut| - 1])
    ensures Ending(events, |UpToSettled(events)| - 1) && events[|UpToSettled(events)| - 1] == UpToSettled(events)[|UpToSettled(events)| - 1]
  {
    hide Ends, UpToSettled, Settled, Settles;
    var cut := UpToSettled(events);
    PrefixShape(events);
    forall j | 0 <= j < |cut| ensures cut[j] == events[j] && (Settles(cut[j]) <==> Ends(events[j])) {
      CountsExactly(cut[j]);
    }
  }

  lemma {:induction false} RefundDecided(p: Params, row: Trade, events: seq<Event>)
    requires !row.status.Terminal()
    ensures Folded(p, row, UpToSettled(events)).status.Refunds() <==> EndsInRefund(events)
  {
    hide Cancels, Ends, UpToSettled, Folded, Settled;
    var cut := UpToSettled(events);
    PrefixShape(events);
    FoldedStatus(p, row, cut);
    if cut != [] {
      CountsExactly(cut[|cut| - 1]);
      if Settles(cut[|cut| - 1]) {
        StatusAtEnd(p, row, cut);
        CutIsEnding(events);
      }
    }
    if i :| Ending(events, i) && Cancels(events[i]) { EndingIsCut(events, i); }
  }

  lemma {:induction false} StatusAtEnd(p: Params, row: Trade, events: seq<Event>)
    requires events != [] && Mapper.StatusOf(events[|events| - 1].name).Some?
    ensures Folded(p, row, events).status == Mapper.StatusOf(events[|events| - 1].name).value
  {}

  lemma RewrittenSlots(db: Tables, id: nat, row: Trade, t: nat)
    requires t in db.transfers && db.transfers[t].remaining.Some? && row.transfer == Some(t)
    ensures t in Rewritten(db, id, row).transfers
    ensures Rewritten(db, id, row).transfers[t].remaining
         == Some(db.transfers[t].remaining.value + (if row.side.Buy? && row.status.Refunds() then 1 else 0))
  {}

  // A buy's slot is refunded exactly once when the first ending event cancels or rejects it, else never.
  lemma {:induction false} RefundedOnce(db: Tables, p: Params, id: nat, order: nat, events: seq<Event>, t: nat)
    requires Persisted(db, id, order) && !db.trades[id].status.Terminal()
    requires db.trades[id].transfer == Some(t) && db.transfers[t].remaining.Some?
    ensures t in Replay(db, p, order, events).transfers
    ensures Replay(db, p, order, events).transfers[t].remaining
         == Some(db.transfers[t].remaining.value + (if db.trades[id].side.Buy? && EndsInRefund(events) then 1 else 0))
  {
    hide EndsInRefund;
    ReplayExactly(db, p, id, order, events);
    FoldedSame(p, db.trades[id], UpToSettled(events));
    RefundDecided(p, db.trades[id], events);
    RewrittenSlots(db, id, Folded(p, db.trades[id], UpToSettled(events)), t);
  }

  // The first ending event is a fill that names its price.
  predicate EndsPriced(events: seq<Event>, i: int) {
    Ending(events, i) && events[i].name == "fill" && events[i].fill.avgPrice.Some?
  }

  lemma FeesWritten(p: Params, row: Trade, row': Trade, name: string, fill: Fill)
    requires WrittenAs(p, row, row', name, fill)
    ensures name == "fill" && fill.avgPrice.Some? ==> Charged(p, row', fill)
    ensures name != "fill" || fill.avgPrice.None? ==> row'.commission == row.commission && row'.fxFee == row.fxFee
  {}

  // Fees are charged exactly once, as fractions of quantity times price of the fill that ends the order,
  // and only if that fill names a price; every other replay leaves them alone.
  lemma {:induction false} FeesOnce(db: Tables, p: Params, id: nat, order: nat, events: seq<Event>)
    requires Persisted(db, id, order) && !db.trades[id].status.Terminal()
    ensures id in Replay(db, p, order, events).trades
    ensures forall i :: EndsPriced(events, i) ==> Charged(p, Replay(db, p, order, events).trades[id], events[i].fill)
    ensures (forall i :: !EndsPriced(events, i)) ==>
      && Replay(db, p, order, events).trades[id].commission == db.trades[id].commission
      && Replay(db, p, order, events).trades[id].fxFee == db.trades[id].fxFee
  {
    hide Replay, Charged, WrittenAs, Persisted;
    Persisting(db, id, order);
    SomeLast(events);
    if i :| Last(events, i) {
      ReplayColumns(db, p, id, order, events, i);
      FeesWritten(p, db.trades[id], Replay(db, p, order, events).trades[id], events[i].name, events[i].fill);
      if events[i].name == "fill" && events[i].fill.avgPrice.Some? { assert EndsPriced(events, i); }
    } else {
      NothingCounts(db, p, order, events);
    }
    forall i | EndsPriced(events, i) ensures Charged(p, Replay(db, p, order, events).trades[id], events[i].fill) {
      ReplayColumns(db, p, id, order, events, i);
      FeesWritten(p, db.trades[id], Replay(db, p, order, events).trades[id], events[i].name, events[i].fill);
    }
  }

  lemma Persisting(db: Tables, id: nat, order: nat)
    requires Persisted(db, id, order)
    ensures id in db.trades
  {}

  // ---- one update, whichever calls fail ----

  // The transfers after the row was written: a cancelled or rejected buy gives its slot back.
  ghost predicate SlotGiven(db: Tables, db': Tables, row: Trade, status: Status)
    requires row.transfer.Some? && row.transfer.value in db.transfers
  {
    var t := row.transfer.value;
    if row.side == Buy && status in {Cancelled, Rejected} && db.transfers[t].remaining.Some? then
      db'.transfers == db.transfers[t := db.transfers[t].(remaining := Some(db.transfers[t].remaining.value + 1))]
    else db'.transfers == db.transfers
  }

  lemma RewrittenIs(db: Tables, id: nat, row: Trade)
    requires row.transfer.Some? && row.transfer.value in db.transfers
    ensures Rewritten(db, id, row).trades == db.trades[id := row] && Rewritten(db, id, row).signals == db.signals
    ensures SlotGiven(db, Rewritten(db, id, row), row, row.status)
  {}

  lemma WriteIs(db: Tables, id: nat, order: nat, row: Trade)
    requires Persisted(db, id, order) && SameRow(db.trades[id], row)
    ensures WriteStatusTx(db, id, row) == Ok(Rewritten(db, id, row))
  {
    forall k | k in db.trades && k != id ensures !ClashesWith(db.trades[k], row) {
      assert !ClashesWith(db.trades[k], db.trades[id]);
    }
    assert Put(db, id, row) == Ok(db.(trades := db.trades[id := row]));
  }

  // One update of the row that carries the order: nothing on a filled, cancelled or rejected row, and
  // nothing but an error if the read or the transaction fails; otherwise the row is updated and a cancelled
  // or rejected buy's slot given back, together.
  lemma UpdateOutcome(w: World, p: Params, id: nat, order: nat, status: Status, fill: Fill)
    requires Persisted(w.db, id, order)
    ensures var (w', r) := ApplyTradeUpdates(w, p, order, status, fill);
      if Fails(w.faults, 0) then w' == w.(faults := Later(w.faults, 1)) && r == Err(Infrastructure)
      else if w.db.trades[id].status in {Filled, Cancelled, Rejected} then w' == w.(faults := Later(w.faults, 1)) && r == Ok(())
      else if Fails(w.faults, 1) then w' == w.(faults := Later(w.faults, 2)) && r == Err(Infrastructure)
      else
        && r == Ok(()) && w' == w.(faults := Later(w.faults, 2), db := w'.db)
        && id in w'.db.trades && Updated(p, w.db.trades[id], w'.db.trades[id], status, fill)
        && w'.db.trades == w.db.trades[id := w'.db.trades[id]] && w'.db.signals == w.db.signals
        && SlotGiven(w.db, w'.db, w.db.trades[id], status)
  {
    hide WriteStatusTx, Reconciled, Rewritten, Updated, Later, Fails;
    LaterZero(w.faults);
    LaterNext(w.faults, 0);
    LaterNext(w.faults, 1);
    FoundById(w.db, id, order);
    var row := Reconciled(p, w.db.trades[id], status, fill);
    ReconciledUpdates(p, w.db.trades[id], status, fill);
    ReconciledSame(p, w.db.trades[id], status, fill);
    WriteIs(w.db, id, order, row);
    RewrittenIs(w.db, id, row);
  }

  lemma ReconciledSame(p: Params, row: Trade, status: Status, fill: Fill)
    ensures SameRow(row, Reconciled(p, row, status, fill)) && Reconciled(p, row, status, fill).status == status
  {}

  // An update of an order no row carries changes nothing.
  lemma UnknownOrder(w: World, p: Params, order: nat, status: Status, fill: Fill)
    requires forall id :: id in w.db.trades ==> w.db.trades[id].order != Some(order)
    ensures var (w', r) := ApplyTradeUpdates(w, p, order, status, fill);
      w' == w.(faults := Later(w.faults, 1)) && r == if Fails(w.faults, 0) then Err(Infrastructure) else Ok(())
  {
    hide UpdateRow, Later, Fails;
    LaterZero(w.faults);
    LaterNext(w.faults, 0);
    assert ByOrder(w.db.trades, order).None?;
  }
}
