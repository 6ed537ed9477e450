/** Runs from empty tables in which two tempting claims fail: a symbol ends with two open
    positions, and a stored peak falls. */
module Races {
  import opened Model
  import opened Database
  import opened Sizing
  import opened Adaptive
  import opened Ledger
  import opened LedgerNext
  import opened Calls
  import opened Runs
  import opened LedgerMoney
  import opened LedgerTheorems

  const P := Params(1.0, 1.0, 3.0, 0.0, 0.0)
  const DAY := Indicators(9.0, 30.0, 1.0)
  const ACCOUNT := Transfer(100.0, 10, Some(10), 0)
  const SIGNAL := Signal("A", Buy, 10.0, DAY, false)

  // The row a worker commits for a signal on symbol A at price 10.
  function Bought(sig: nat): Trade {
    Trade(None, Some(sig), Some(0), None, "A", Buy, 1.0, Some(10.0), None, None, None,
          Some(9.0), Some(13.0), Some(10.0), Some(1.0), Pending)
  }

  lemma RowIsBought(sig: nat, left: int)
    requires left > 0
    ensures BuyRow(P, sig, SIGNAL, 0, ACCOUNT.(remaining := Some(left))) == Ok(Some(Bought(sig)))
  {
    assert StopDistance(P, 1.0) == 1.0 && AtRisk(P, 100.0) == 100.0;
    assert 100.0 / 1.0 == 100.0 && 100.0 / 10.0 == 10.0 && 10.0 / 10.0 == 1.0;
  }

  lemma {:induction false} Run4(s: State, a: Action, b: Action, c: Action, d: Action)
    ensures Run(s, [a, b, c, d]) == Next(Next(Next(Next(s, a), b), c), d)
  {
    hide Next;
    Run2(s, a, b);
    Run2(Next(Next(s, a), b), c, d);
    assert [a, b, c, d] == [a, b] + [c, d];
    RunConcat(s, [a, b], [c, d]);
  }

  // A bar in which worker w finds no position, signals and commits the buy of row `id`.
  function Entry(w: nat, sig: nat, id: nat): seq<Action> {
    [PassGate(w, "A"), CreateBuySignal(w, sig, 10.0, DAY), FindBudget(w, [0]), CommitBuy(w, id)]
  }

  function Committed(s: State, w: nat, sig: nat, id: nat, left: int): State
    requires w < |s.pcs|
  {
    var db := Tables(s.db.trades[id := Bought(sig)], s.db.signals[sig := SIGNAL],
                     s.db.transfers[0 := ACCOUNT.(remaining := Some(left - 1))]);
    Goto(s, w, BuyPlacing(id, Bought(sig))).(db := db)
  }

  lemma {:induction false} EntryCommits(s: State, w: nat, sig: nat, id: nat, left: int)
    requires w < |s.pcs| && s.pcs[w].Idle? && s.params == P && !HasOpenPosition(s.db.trades, "A")
    requires sig !in s.db.signals && id !in s.db.trades
    requires 0 in s.db.transfers && s.db.transfers[0] == ACCOUNT.(remaining := Some(left)) && left > 0
    ensures Run(s, Entry(w, sig, id)) == Committed(s, w, sig, id, left)
  {
    hide BuyRow, HasOpenPosition, CommitBuyTx;
    Run4(s, PassGate(w, "A"), CreateBuySignal(w, sig, 10.0, DAY), FindBudget(w, [0]), CommitBuy(w, id));
    var s1 := Next(s, PassGate(w, "A"));
    assert s1 == Goto(s, w, Gated("A"));
    var s2 := Next(s1, CreateBuySignal(w, sig, 10.0, DAY));
    assert s2 == Goto(s, w, Signalled(sig, SIGNAL)).(db := s.db.(signals := s.db.signals[sig := SIGNAL]));
    var s3 := Next(s2, FindBudget(w, [0]));
    OldestIsZero(s2.db.transfers);
    assert s3 == Goto(s2, w, Budgeted(sig, SIGNAL, 0, ACCOUNT.(remaining := Some(left))));
    RowIsBought(sig, left);
    BuyTxCommits(s3.db, sig, id, left);
    assert Next(s3, CommitBuy(w, id)).pcs == s.pcs[w := BuyPlacing(id, Bought(sig))];
  }

  lemma {:induction false} OldestIsZero(transfers: map<nat, Transfer>)
    requires 0 in transfers && HasSlot(transfers[0])
    ensures AvailableBudget(transfers, [0]) == Some(0)
  {
    assert AvailableBudget(transfers, [0][..0]) == None;
  }

  lemma BuyTxCommits(db: Tables, sig: nat, id: nat, left: int)
    requires !HasOpenPosition(db.trades, "A") && sig in db.signals && id !in db.trades
    requires 0 in db.transfers && db.transfers[0] == ACCOUNT.(remaining := Some(left)) && left > 0
    ensures CommitBuyTx(db, id, Bought(sig))
         == Ok(Tables(db.trades[id := Bought(sig)], db.signals, db.transfers[0 := ACCOUNT.(remaining := Some(left - 1))]))
  {
    hide HasOpenPosition;
  }

  // ---- a first position: bought, accepted, partly filled ----

  const HELD := Bought(0).(order := Some(0), status := Open, avgFill := Some(10.0))

  const FUNDED := Init(P, 2).(db := Tables(map[], map[], map[0 := ACCOUNT]), initial := map[0 := Some(10)])

  const PLACED: State :=
    FUNDED.(db := Tables(map[1 := Bought(0).(order := Some(0))], map[0 := SIGNAL.(executed := true)], map[0 := ACCOUNT.(remaining := Some(9))]),
            log := [OrderFor(1, Bought(0))])

  // Four tenths of the share have been filled.
  const PARTIAL := Fill(Some(10.0), 0.4)

  // Worker 0's position, and nobody doing anything.
  const HOLDING: State := PLACED.(db := PLACED.db.(trades := map[1 := HELD]))

  const OPENING: seq<Action> :=
    [AddTransfer(0, ACCOUNT)] + Entry(0, 0, 1) + [PlaceBuy(0, true), PersistBuy(0, true), MarkBuy(0, true)]
    + [ReadEvent(1, "partial_fill", PARTIAL), WriteEvent(true)]

  lemma NoPosition(trades: Trades)
    requires trades == map[]
    ensures !HasOpenPosition(trades, "A")
  {}

  lemma Placing()
    ensures Run(Init(P, 2), [AddTransfer(0, ACCOUNT)] + Entry(0, 0, 1) + [PlaceBuy(0, true), PersistBuy(0, true), MarkBuy(0, true)]) == PLACED
  {
    hide Next;
    var s := FUNDED;
    Run1(Init(P, 2), AddTransfer(0, ACCOUNT));
    Funding();
    NoPosition(s.db.trades);
    EntryCommits(s, 0, 0, 1, 10);
    RunConcat(Init(P, 2), [AddTransfer(0, ACCOUNT)], Entry(0, 0, 1));
    var s1 := Committed(s, 0, 0, 1, 10);
    RunConcat(Init(P, 2), [AddTransfer(0, ACCOUNT)] + Entry(0, 0, 1), [PlaceBuy(0, true), PersistBuy(0, true), MarkBuy(0, true)]);
    Run3(s1, PlaceBuy(0, true), PersistBuy(0, true), MarkBuy(0, true));
    PlaceBuyStep(s1, 0, 1, Bought(0), true);
    var s2, row := Next(s1, PlaceBuy(0, true)), Bought(0).(order := Some(0));
    PersistBuyStep(s2, 0, 1, row, true);
    var s3 := Next(s2, PersistBuy(0, true));
    MarkBuyStep(s3, 0, 0, true);
    assert s3.db.trades == map[1 := row];
    assert Next(s3, MarkBuy(0, true)).pcs == FUNDED.pcs;
    assert Next(s3, MarkBuy(0, true)).db == PLACED.db;
  }

  lemma Funding()
    ensures Next(Init(P, 2), AddTransfer(0, ACCOUNT)) == FUNDED
  {}

  lemma Opening()
    ensures Run(Init(P, 2), OPENING) == HOLDING
  {
    hide Next;
    Placing();
    var a, b := ReadEvent(1, "partial_fill", PARTIAL), WriteEvent(true);
    RunConcat(Init(P, 2), [AddTransfer(0, ACCOUNT)] + Entry(0, 0, 1) + [PlaceBuy(0, true), PersistBuy(0, true), MarkBuy(0, true)], [a, b]);
    Run2(PLACED, a, b);
    ReadEventStep(PLACED, 1, "partial_fill", Open, PARTIAL);
    var row := PLACED.db.trades[1];
    WriteEventStep(Next(PLACED, a), 1, row, Open, PARTIAL, true);
    assert Reconciled(P, row, Open, PARTIAL) == HELD;
    assert PLACED.db.trades[1 := HELD] == HOLDING.db.trades;
    assert UpdateTrade(PLACED.db, 1, HELD) == Ok(HOLDING.db);
  }

  // ---- two positions ----

  const SELL := SellRow(1, HELD, 2, "A", 9.0)

  // Worker 0's exit pass has committed its sell and had it refused.
  const REFUSED: State :=
    HOLDING.(db := HOLDING.db.(trades := map[1 := HELD, 2 := SELL], signals := map[0 := SIGNAL.(executed := true), 2 := SellSignal("A", 9.0)]),
             pcs := [SellUndoTrade(2, SELL, map[], true), Idle])

  lemma Refusing()
    ensures Run(HOLDING, [CommitExits(0, "A", 9.0, [1], 2), PlaceSell(0, 2, false)]) == REFUSED
  {
    hide Next;
    var a, b := CommitExits(0, "A", 9.0, [1], 2), PlaceSell(0, 2, false);
    Run2(HOLDING, a, b);
    Committing();
    var s1 := Next(HOLDING, a);
    PlaceSellStep(s1, 0, 2, map[2 := SELL], true, false);
    assert map[2 := SELL] - {2} == map[];
    assert Next(s1, b).pcs == REFUSED.pcs;
  }

  lemma Committing()
    ensures Next(HOLDING, CommitExits(0, "A", 9.0, [1], 2)) == Goto(HOLDING, 0, Exits(map[2 := SELL], true)).(db := REFUSED.db)
  {
    hide StageSells, OpenBuys, RowsOf;
    Staging();
  }

  lemma Staging()
    ensures StageSells(HOLDING.db, OpenBuys(HOLDING.db.trades, "A", [1]), 9.0, 2) == Ok(Staged(REFUSED.db, [Fetched(2, SELL)], 3))
    ensures RowsOf([Fetched(2, SELL)]) == map[2 := SELL]
  {
    var trades, f := HOLDING.db.trades, Fetched(1, HELD);
    OneHeld();
    assert [f][..0] == [];
    assert StageSells(HOLDING.db, [], 9.0, 2) == Ok(Staged(HOLDING.db, [], 2));
    StagingOne();
    assert [Fetched(2, SELL)][..0] == [];
  }

  lemma StagingOne()
    ensures StageOne(Staged(HOLDING.db, [], 2), Fetched(1, HELD), 9.0) == Ok(Staged(REFUSED.db, [Fetched(2, SELL)], 3))
  {
    var db1 := HOLDING.db.(signals := HOLDING.db.signals[2 := SellSignal("A", 9.0)]);
    assert db1.signals == REFUSED.db.signals;
    assert InsertSignal(HOLDING.db, 2, SellSignal("A", 9.0)) == Ok(db1);
    assert db1.trades[2 := SELL] == REFUSED.db.trades;
    assert !Clashes(db1.trades, 2, SELL);
    assert InsertTrade(db1, 2, SELL) == Ok(REFUSED.db);
    assert [] + [Fetched(2, SELL)] == [Fetched(2, SELL)];
  }

  const RACE: seq<Action> :=
    OPENING + [CommitExits(0, "A", 9.0, [1], 2), PlaceSell(0, 2, false)] + Entry(1, 3, 4) + [UndoTrade(0, true)]

  // Worker 0's refused sell hides its buy from worker 1, which enters; the cleanup delete then
  // leaves two open positions of one symbol.
  lemma TwoPositions()
    ensures |OpenPositions(Run(Init(P, 2), RACE).db.trades, "A")| == 2
  {
    hide Next;
    Opening();
    Refusing();
    RunConcat(Init(P, 2), OPENING, [CommitExits(0, "A", 9.0, [1], 2), PlaceSell(0, 2, false)]);
    Hidden();
    EntryCommits(REFUSED, 1, 3, 4, 9);
    RunConcat(Init(P, 2), OPENING + [CommitExits(0, "A", 9.0, [1], 2), PlaceSell(0, 2, false)], Entry(1, 3, 4));
    var s := Committed(REFUSED, 1, 3, 4, 9);
    RunSnoc(Init(P, 2), OPENING + [CommitExits(0, "A", 9.0, [1], 2), PlaceSell(0, 2, false)] + Entry(1, 3, 4), UndoTrade(0, true));
    UndoTradeStep(s, 0, 2, SELL, map[], true, true);
    assert s.db.trades == map[1 := HELD, 2 := SELL, 4 := Bought(3)];
    BothOpen(s.db);
  }

  lemma Hidden()
    ensures !HasOpenPosition(REFUSED.db.trades, "A")
  {
    assert SellOf(REFUSED.db.trades[2], 1);
  }

  lemma BothOpen(db: Tables)
    requires db.trades == map[1 := HELD, 2 := SELL, 4 := Bought(3)]
    ensures DeleteTrade(db, 2).Ok? && OpenPositions(DeleteTrade(db, 2).value.trades, "A") == {1, 4}
  {
    var trades := db.trades - {2};
    assert trades == map[1 := HELD, 4 := Bought(3)];
  }

  // ---- a partly filled buy that is dropped ----

  const DROPPED := HELD.(status := Cancelled)

  const DROPPING: seq<Action> := [ReadEvent(1, "canceled", PARTIAL), WriteEvent(true)]

  // Part of the order is filled when the rest is cancelled: the row is cancelled and its slot given
  // back although shares are held, and no later exit pass ever looks at them.
  lemma {:induction false} PartialFillDropped(after: seq<Action>)
    ensures var s := Run(Init(P, 2), OPENING + DROPPING);
      && s.db.trades == map[1 := DROPPED] && 0 in s.db.transfers && s.db.transfers[0].remaining == Some(10)
      && !OpenBuy(Run(s, after).db.trades, 1, "A")
  {
    hide Next, Run;
    var a, b := ReadEvent(1, "canceled", PARTIAL), WriteEvent(true);
    Opening();
    RunConcat(Init(P, 2), OPENING, DROPPING);
    Run2(HOLDING, a, b);
    ReadEventStep(HOLDING, 1, "canceled", Cancelled, PARTIAL);
    WriteEventStep(Next(HOLDING, a), 1, HELD, Cancelled, PARTIAL, true);
    assert Reconciled(P, HELD, Cancelled, PARTIAL) == DROPPED;
    Dropping();
    RefundedNeverMonitored(P, 2, OPENING + DROPPING, after, 1, "A");
  }

  lemma Dropping()
    ensures WriteStatusTx(HOLDING.db, 1, DROPPED).Ok?
    ensures var db := WriteStatusTx(HOLDING.db, 1, DROPPED).value;
      db.trades == map[1 := DROPPED] && 0 in db.transfers && db.transfers[0].remaining == Some(10)
  {
    assert HOLDING.db.trades[1 := DROPPED] == map[1 := DROPPED];
    assert !Clashes(HOLDING.db.trades, 1, DROPPED);
  }

  // ---- a peak that falls ----

  const FILLED := Fill(None, 0.0)

  // The consumer reads the row, a bar raises the row's peak to 12, the consumer writes its copy back.
  lemma PeakFalls()
    ensures var s := Run(Init(P, 2), OPENING + [ReadEvent(1, "fill", FILLED), TrackPeaks("A", 12.0, [1])]);
      && 1 in s.db.trades && 1 in Next(s, WriteEvent(true)).db.trades
      && s.db.trades[1].peak == Some(12.0) && Next(s, WriteEvent(true)).db.trades[1].peak == Some(10.0)
  {
    hide Next;
    var a, b := ReadEvent(1, "fill", FILLED), TrackPeaks("A", 12.0, [1]);
    Opening();
    RunConcat(Init(P, 2), OPENING, [a, b]);
    Run2(HOLDING, a, b);
    ReadEventStep(HOLDING, 1, "fill", Filled, FILLED);
    var s := Next(HOLDING, a).(db := HOLDING.db.(trades := map[1 := HELD.(peak := Some(12.0))]));
    Raising(Next(HOLDING, a));
    WriteEventStep(s, 1, HELD, Filled, FILLED, true);
    var row := HELD.(status := Filled, avgFill := None);
    assert Reconciled(P, HELD, Filled, FILLED) == row;
    assert WriteStatusTx(s.db, 1, row) == Ok(s.db.(trades := s.db.trades[1 := row]));
  }

  lemma Raising(s: State)
    requires s.db.trades == map[1 := HELD]
    ensures Next(s, TrackPeaks("A", 12.0, [1])) == s.(db := s.db.(trades := map[1 := HELD.(peak := Some(12.0))]))
  {
    hide OpenBuys;
    OneHeld();
    var f := Fetched(1, HELD);
    assert (set g | g in [f] :: g.id) == {1} by { assert f in [f]; }
    assert RaisePeaks(s.db.trades, {1}, 12.0) == map[1 := HELD.(peak := Some(12.0))];
  }

  lemma OneHeld()
    ensures OpenBuys(map[1 := HELD], "A", [1]) == [Fetched(1, HELD)]
  {
    assert [1][..0] == [] && OpenBuys(map[1 := HELD], "A", []) == [];
  }
}
