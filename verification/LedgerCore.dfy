/** The ownership invariant: who may write which row, what the broker log says about
    the rows, and why deletes and whole-row overwrites are harmless. */
module LedgerCore {
  import opened Model
  import opened Database
  import opened Adaptive
  import opened Ledger

  // ---- the invariant ----

  ghost predicate Refs(db: Tables) {
    forall id :: id in db.trades ==> RefsOk(db, db.trades[id])
  }

  ghost predicate RefsOk(db: Tables, row: Trade) {
    KeysOk(db, row) && row.signal.Some? && (row.side.Buy? <==> row.parent.None?)
  }

  ghost predicate OneSell(trades: Trades) {
    forall i, j :: i in trades && j in trades && Siblings(trades[i], trades[j]) ==> i == j
  }

  ghost predicate Siblings(a: Trade, b: Trade) {
    a.side.Sell? && b.side.Sell? && a.parent == b.parent
  }

  // A row without an order ID is pending, or was cancelled by its own worker.
  ghost predicate OrdersLogged(trades: Trades, log: seq<Accepted>) {
    forall id :: id in trades ==> OrderLogged(id, trades[id], log)
  }

  ghost predicate OrderLogged(id: nat, row: Trade, log: seq<Accepted>) {
    match row.order
    case Some(o) => o < |log| && log[o].trade == id
    case None => row.status.Pending? || row.status.Cancelled?
  }

  ghost predicate LogOk(trades: Trades, log: seq<Accepted>) {
    && (forall o :: 0 <= o < |log| ==> EntryOk(trades, o, log[o]))
    && (forall o, p :: 0 <= o < |log| && 0 <= p < |log| && log[o].trade == log[p].trade ==> o == p)
  }

  // An accepted order's row exists with the order's contents; its ID is stored or was lost.
  ghost predicate EntryOk(trades: Trades, o: nat, a: Accepted) {
    && a.trade in trades && a == OrderFor(a.trade, trades[a.trade])
    && (trades[a.trade].order == Some(o) || (trades[a.trade].order.None? && trades[a.trade].status.Pending?))
  }

  ghost predicate Unlogged(log: seq<Accepted>, id: nat) {
    forall o :: 0 <= o < |log| ==> log[o].trade != id
  }

  // The worker's copy is the row: pending, without an order ID, and unknown to the broker.
  ghost predicate Unplaced(trades: Trades, log: seq<Accepted>, id: nat, row: Trade) {
    id in trades && trades[id] == row && row.order.None? && row.status.Pending? && Unlogged(log, id)
  }

  // The broker accepted the order; only the order ID is missing from the row.
  ghost predicate Placed(trades: Trades, log: seq<Accepted>, id: nat, row: Trade) {
    && id in trades && row.order.Some? && trades[id] == row.(order := None) && row.status.Pending?
    && row.order.value < |log| && log[row.order.value].trade == id
  }

  ghost predicate RestOk(trades: Trades, log: seq<Accepted>, rest: Trades) {
    forall id :: id in rest ==> Unplaced(trades, log, id, rest[id]) && rest[id].side.Sell?
  }

  ghost predicate Backed(log: seq<Accepted>, sig: nat) {
    exists o :: 0 <= o < |log| && log[o].signal == Some(sig)
  }

  ghost predicate PcOk(trades: Trades, log: seq<Accepted>, pc: Pc) {
    match pc
    case BuyPlacing(id, row) => Unplaced(trades, log, id, row) && row.side.Buy?
    case BuyPersisting(id, row) => Placed(trades, log, id, row) && row.side.Buy?
    case BuyMarking(sig) => Backed(log, sig)
    case BuyCancelling(id, row) =>
      Unplaced(trades, log, id, row.(status := Pending)) && row.side.Buy? && row.status.Cancelled?
    case Exits(rest, _) => RestOk(trades, log, rest)
    case SellPersisting(id, row, rest, _) =>
      Placed(trades, log, id, row) && row.side.Sell? && id !in rest && RestOk(trades, log, rest)
    case SellMarking(sig, rest) => Backed(log, sig) && RestOk(trades, log, rest)
    case SellUndoTrade(id, row, rest, _) =>
      Unplaced(trades, log, id, row) && row.side.Sell? && id !in rest && RestOk(trades, log, rest)
    case SellUndoSignal(_, rest) => RestOk(trades, log, rest)
    case _ => true
  }

  // The rows a worker inserted and has not settled: nobody else writes them.
  function Owned(pc: Pc): set<nat> {
    match pc
    case BuyPlacing(id, _) => {id}
    case BuyPersisting(id, _) => {id}
    case BuyCancelling(id, _) => {id}
    case Exits(rest, _) => rest.Keys
    case SellPersisting(id, _, rest, _) => rest.Keys + {id}
    case SellMarking(_, rest) => rest.Keys
    case SellUndoTrade(id, _, rest, _) => rest.Keys + {id}
    case SellUndoSignal(_, rest) => rest.Keys
    case _ => {}
  }

  ghost predicate OneOwner(pcs: seq<Pc>) {
    forall v, w, id :: 0 <= v < |pcs| && 0 <= w < |pcs| && id in Owned(pcs[v]) && id in Owned(pcs[w]) ==> v == w
  }

  // The consumer's copy differs from its row at most in the peak.
  ghost predicate ConsumerOk(trades: Trades, c: Consumer) {
    c.Writing? ==>
      && c.id in trades && c.row.order.Some? && !c.row.status.Terminal()
      && trades[c.id] == c.row.(peak := trades[c.id].peak)
  }

  ghost predicate Honest(db: Tables, log: seq<Accepted>) {
    forall sig :: sig in db.signals && db.signals[sig].executed ==> Backed(log, sig)
  }

  ghost predicate PcsOk(trades: Trades, log: seq<Accepted>, pcs: seq<Pc>) {
    forall w :: 0 <= w < |pcs| ==> PcOk(trades, log, pcs[w])
  }

  ghost predicate Core(s: State) {
    && Refs(s.db) && OneSell(s.db.trades) && OrdersLogged(s.db.trades, s.log) && LogOk(s.db.trades, s.log)
    && PcsOk(s.db.trades, s.log, s.pcs) && OneOwner(s.pcs)
    && ConsumerOk(s.db.trades, s.consumer) && Honest(s.db, s.log)
  }

  // ---- facts used by every step ----

  // Rows a worker owns carry no order ID.
  lemma OwnedRow(trades: Trades, log: seq<Accepted>, pc: Pc, id: nat)
    requires PcOk(trades, log, pc) && id in Owned(pc)
    ensures id in trades && trades[id].order.None? && trades[id].status.Pending?
  {}

  lemma BackedGrows(log: seq<Accepted>, log': seq<Accepted>, sig: nat)
    requires Backed(log, sig) && log <= log'
    ensures Backed(log', sig)
  {
    var o :| 0 <= o < |log| && log[o].signal == Some(sig);
    assert log'[o].signal == Some(sig);
  }

  // A program point survives any change that leaves its own rows alone.
  lemma PcFrame(trades: Trades, log: seq<Accepted>, trades': Trades, log': seq<Accepted>, pc: Pc)
    requires PcOk(trades, log, pc)
    requires forall id :: id in Owned(pc) ==> id in trades' && trades'[id] == trades[id]
    requires log <= log' && forall o :: |log| <= o < |log'| ==> log'[o].trade !in Owned(pc)
    ensures PcOk(trades', log', pc)
  {
    forall sig: nat | Backed(log, sig) ensures Backed(log', sig) {
      BackedGrows(log, log', sig);
    }
    forall id | id in Owned(pc) && Unlogged(log, id) ensures Unlogged(log', id) {
      forall o | 0 <= o < |log'| ensures log'[o].trade != id {
        if o < |log| { assert log[o] == log'[o]; }
      }
    }
  }

  // Worker w moves to `pc`; every other worker's rows are untouched.
  lemma PcsFrame(trades: Trades, log: seq<Accepted>, pcs: seq<Pc>, trades': Trades, log': seq<Accepted>, w: nat, pc: Pc)
    requires w < |pcs| && PcsOk(trades, log, pcs) && OneOwner(pcs)
    requires PcOk(trades', log', pc)
    requires forall id :: id in trades && (id !in trades' || trades'[id] != trades[id]) ==> id in Owned(pcs[w]) || trades[id].order.Some? || !trades[id].status.Pending?
    requires log <= log' && forall o :: |log| <= o < |log'| ==> log'[o].trade in Owned(pcs[w])
    requires forall id :: id in Owned(pc) ==> id in Owned(pcs[w]) || id !in trades
    ensures PcsOk(trades', log', pcs[w := pc]) && OneOwner(pcs[w := pc])
  {
    forall v | 0 <= v < |pcs| && v != w ensures PcOk(trades', log', pcs[v]) {
      forall id | id in Owned(pcs[v]) ensures id in trades && id in trades' && trades'[id] == trades[id] && id !in Owned(pcs[w]) {
        OwnedRow(trades, log, pcs[v], id);
      }
      PcFrame(trades, log, trades', log', pcs[v]);
    }
    forall v, id | 0 <= v < |pcs| && v != w && id in Owned(pcs[v]) ensures id !in Owned(pc) {
      OwnedRow(trades, log, pcs[v], id);
    }
  }

  // ---- constraint checks, read backwards ----

  lemma PutOk(db: Tables, id: nat, row: Trade)
    requires Put(db, id, row).Ok?
    ensures Put(db, id, row).value == db.(trades := db.trades[id := row])
    ensures row.transfer.Some? && row.transfer.value in db.transfers
    ensures row.signal.Some? ==> row.signal.value in db.signals
    ensures row.parent.Some? ==> row.parent.value in db.trades
    ensures forall k :: k in db.trades && k != id ==> !ClashesWith(db.trades[k], row)
  {}

  // Overwriting a row that keeps its identity never breaks a constraint.
  lemma PutSameOk(s: State, id: nat, row: Trade)
    requires Core(s) && id in s.db.trades && SameIdentity(s.db.trades[id], row)
    requires row.order == s.db.trades[id].order || (row.order.Some? && forall k :: k in s.db.trades ==> s.db.trades[k].order != row.order)
    ensures Put(s.db, id, row) == Ok(s.db.(trades := s.db.trades[id := row]))
  {
    assert RefsOk(s.db, s.db.trades[id]);
    forall k | k in s.db.trades && k != id ensures !ClashesWith(s.db.trades[k], row) {
      assert OrderLogged(k, s.db.trades[k], s.log) && OrderLogged(id, s.db.trades[id], s.log);
    }
  }

  // Columns no step ever changes.
  ghost predicate SameIdentity(a: Trade, b: Trade) {
    && a.parent == b.parent && a.signal == b.signal && a.transfer == b.transfer && a.symbol == b.symbol && a.side == b.side
    && a.quantity == b.quantity && a.price == b.price && a.stopLoss == b.stopLoss && a.takeProfit == b.takeProfit
    && a.entryATR == b.entryATR
  }
}
