/** What one shadow pass does to the peaks of the rows it reads, and what a logged decision means. */
module PeakTracking {
  import opened Model
  import opened Database
  import opened Adaptive
  import opened Calls
  import opened Ledger
  import opened Shadow

  // The greatest of a first value and a list of prices.
  function MaxOf(first: real, prices: seq<real>): real {
    if prices == [] then first else Max(MaxOf(first, prices[..|prices| - 1]), prices[|prices| - 1])
  }

  lemma {:induction false} MaxOfIs(first: real, prices: seq<real>)
    ensures MaxOf(first, prices) >= first && forall p :: p in prices ==> MaxOf(first, prices) >= p
    ensures MaxOf(first, prices) == first || MaxOf(first, prices) in prices
  {
    if prices != [] {
      MaxOfIs(first, prices[..|prices| - 1]);
      assert prices == prices[..|prices| - 1] + [prices[|prices| - 1]];
    }
  }

  // A moved stop lies strictly between the static stop and the price, which is the new peak;
  // an adaptive exit fires above the static stop and at or below the adaptive one.
  predicate Justified(d: Decision, staticStop: real) {
    && d.stop.Some?
    && (d.kind.StopMoved? ==> staticStop < d.stop.value < d.price && d.price == d.peak)
    && (d.kind.ExitStop? ==> staticStop < d.price <= d.stop.value && d.price <= d.peak)
    && !d.kind.ExitTakeProfit?
  }

  lemma AdaptiveJustified(id: nat, row: Trade, price: real, tiers: Tiers)
    requires Tracked(row) && AdaptiveDecision(id, row, price, tiers).Some?
    ensures Justified(AdaptiveDecision(id, row, price, tiers).value, row.stopLoss.value)
  {
    NeverLoosensStatic(PeakOf(row), EntryPrice(row).value, row.entryATR.value, row.stopLoss.value, tiers);
  }

  // ---- the transaction does this to every row it reads ----

  function Ids(fetched: seq<Fetched>): set<nat> {
    set f | f in fetched :: f.id
  }

  lemma PutPeak(db: Tables, id: nat, price: real)
    requires SchemaHolds(db) && id in db.trades
    ensures Put(db, id, RaisePeak(db.trades[id], price)) == Ok(db.(trades := db.trades[id := RaisePeak(db.trades[id], price)]))
  {
    forall k | k in db.trades && k != id ensures !ClashesWith(db.trades[k], RaisePeak(db.trades[id], price)) {
      assert !ClashesWith(db.trades[k], db.trades[id]);
    }
  }

  lemma RaisedSchema(db: Tables, ids: set<nat>, price: real)
    requires SchemaHolds(db)
    ensures SchemaHolds(db.(trades := RaisePeaks(db.trades, ids, price)))
  {
    var db' := db.(trades := RaisePeaks(db.trades, ids, price));
    forall id | id in db'.trades ensures id in db.trades && db'.trades[id].(peak := db.trades[id].peak) == db.trades[id] {
      RaisedRow(db.trades[id], price);
    }
    hide RaisePeaks;
    SameKeys(db, db');
    SameUnique(db.trades, db'.trades);
  }

  lemma RaisedRow(row: Trade, price: real)
    ensures RaisePeak(row, price).(peak := row.peak) == row
  {}

  lemma SameKeys(db: Tables, db': Tables)
    requires ForeignKeys(db) && db'.transfers == db.transfers && db'.signals == db.signals && db'.trades.Keys == db.trades.Keys
    requires forall id :: id in db'.trades ==> db'.trades[id].(peak := db.trades[id].peak) == db.trades[id]
    ensures ForeignKeys(db')
  {}

  lemma SameUnique(trades: Trades, trades': Trades)
    requires UniqueOrders(trades) && OneSellEach(trades) && trades'.Keys == trades.Keys
    requires forall id :: id in trades' ==> trades'[id].(peak := trades[id].peak) == trades[id]
    ensures UniqueOrders(trades') && OneSellEach(trades')
  {}

  // One more row read and raised.
  lemma ObserveNext(db: Tables, decisions: seq<Decision>, ids: set<nat>, f: Fetched, price: real, tiers: Tiers)
    requires SchemaHolds(db) && f.id in db.trades && f.row == db.trades[f.id] && f.id !in ids
    ensures var r := ObserveOne(Observed(db.(trades := RaisePeaks(db.trades, ids, price)), decisions), f, price, tiers);
      r.Ok? && r.value.db == db.(trades := RaisePeaks(db.trades, ids + {f.id}, price))
  {
    hide DecisionFor, SchemaHolds, Put;
    var db1 := db.(trades := RaisePeaks(db.trades, ids, price));
    RaisedSchema(db, ids, price);
    PutPeak(db1, f.id, price);
    assert RaisePeaks(db.trades, ids + {f.id}, price) == db1.trades[f.id := RaisePeak(f.row, price)];
  }

  lemma NotRead(fetched: seq<Fetched>)
    requires fetched != [] && forall i, j :: 0 <= i < j < |fetched| ==> fetched[i].id != fetched[j].id
    ensures var front, f := fetched[..|fetched| - 1], fetched[|fetched| - 1];
      f.id !in Ids(front) && Ids(fetched) == Ids(front) + {f.id}
  {
    assert fetched == fetched[..|fetched| - 1] + [fetched[|fetched| - 1]];
  }

  // The shadow transaction commits, and its whole effect on the tables is to raise the peaks of the
  // rows it read: the machine's TrackPeaks action.
  lemma {:induction false} ObserveRaisesPeaks(db: Tables, decisions: seq<Decision>, fetched: seq<Fetched>, price: real, tiers: Tiers)
    requires SchemaHolds(db)
    requires forall k :: 0 <= k < |fetched| ==> fetched[k].id in db.trades && fetched[k].row == db.trades[fetched[k].id]
    requires forall i, j :: 0 <= i < j < |fetched| ==> fetched[i].id != fetched[j].id
    ensures Observe(db, decisions, fetched, price, tiers).Ok?
    ensures Observe(db, decisions, fetched, price, tiers).value.db == db.(trades := RaisePeaks(db.trades, Ids(fetched), price))
  {
    hide ObserveOne;
    if fetched == [] {
      assert RaisePeaks(db.trades, Ids([]), price) == db.trades;
    } else {
      var front, f := fetched[..|fetched| - 1], fetched[|fetched| - 1];
      ObserveRaisesPeaks(db, decisions, front, price, tiers);
      NotRead(fetched);
      ObserveNext(db, Observe(db, decisions, front, price, tiers).value.decisions, Ids(front), f, price, tiers);
    }
  }
}
