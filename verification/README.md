# outbound-api: a Dafny model of the order ledger, the shadow path and the indicators

The service trades US equities. Bar workers evaluate every market bar: they sell open buys whose
stop-loss or take-profit is reached, look for a buy signal, and place market orders with a broker;
one consumer applies the broker's trade updates. This project models that code and proves what it
keeps, whatever the interleaving and whichever database or broker calls fail.

`dafny verify dfyconfig.toml` checks everything.

## How it is built

- **Tables** (`Model.dfy`, `Database.dfy`): the rows of `trades`, `signals` and `account_transfers`,
  and the repositories' SQL as functions on them, with the schema's primary keys, foreign keys and
  unique indexes as error results.
- **The ledger as a step machine** (`Ledger.dfy`): any number of bar workers and one update consumer
  over shared tables. A transaction is one action; so is each broker call, each cleanup statement and
  each single update, and each of them may fail. The consumer's read and its write are two actions.
  `Next` is total, so a run is any list of actions. A ghost log records the orders the broker accepted.
- **The ownership invariant** (`LedgerNext.dfy`, `LedgerCore.dfy`, `LedgerSteps.dfy`): a row without an order ID is pending
  and written only by the worker that inserted it, until that worker cancels it; a row with an order ID
  is written by the consumer alone, apart from its peak. `LedgerEffects.dfy` says which kind of change each
  action makes to the tables, `LedgerMoney.dfy` keeps slots, positions and sizes, and
  `LedgerTheorems.dfy` states what holds of every run from empty tables.
- **The services in their own form** (`TradeService.dfy`, `Coordinators.dfy`): classes whose methods
  overwrite tables and counters step by step, proved equal to functions of the world before the call
  (`Calls.dfy`, `Signals.dfy`, `Shadow.dfy`). `Runs.dfy` and `Histories.dfy` show that these calls, and any list
  of bars and broker updates handled one at a time, are runs of the machine.
- **What each call leaves behind, column by column** (`ExitPass.dfy`, `ExitOutcomes.dfy`, `BuyOutcomes.dfy`,
  `BarOutcome.dfy`): whichever calls fail and whichever orders the broker refuses, the rows, slots, signals and
  orders after an exit pass, a buy, a manual sell, a signal evaluation and a whole live bar, stated in the columns
  of the rows before it and not in the functions that compute it.
- **Further results**: replays of broker events (`Replay.dfy`), erasure of the shadow path (`Erasure.dfy`), peaks,
  decisions and signals of the shadow path over whole histories (`PeakTracking.dfy`, `ShadowHistory.dfy`,
  `ShadowDecisions.dfy`), the tiered stop (`Adaptive.dfy`), sizing (`Sizing.dfy`), the schema (`Database.dfy`), and
  three concrete runs in which a tempting claim fails (`Races.dfy`).
- **Indicators** (`Ema.dfy`, `Rsi.dfy`, `Atr.dfy`, `Cache.dfy`, `Regime.dfy`): the loops over series of any
  length, proved against recursive definitions in exact reals.

## Assumptions

- Transactions are atomic and serialised; a failed transaction changes nothing. One outcome bit stands
  for each transaction or single statement, one for each broker call.
- `PlaceOrder` reports an error exactly when the broker did not accept the order. Order IDs are unique.
- There is one update consumer (`cmd/server/main.go:339-357`) and any number of workers; the program starts five
  (`cmd/server/main.go:299-326`).
- UUIDs, prices' clock times and the order in which a table is read are parameters. A read returns no row twice.
- Decimals are exact reals, except in the two rounded-division bounds.

## Where the code and its own documentation differ

The model follows the code.

- The comments at `internal/service/trade_service.go:206-210` and `internal/repository/trade_repository.go:195-198`
  promise one position per symbol. A sell whose placement fails hides its buy until the cleanup delete, and
  another worker may buy in between: `Races.TwoPositions` is such a run. `LedgerTheorems.SecondPositionExactly`
  says exactly when it happens.
- `internal/strategy/adaptive_exit.go:22-24` calls the result a tightened stop. With the default parameters entering
  the trail tier lowers it (`Adaptive.DefaultsCanLoosen`); `Adaptive.TightensExactly` gives the exact condition.
- The stored peak can fall, because the consumer writes back every column of its old copy: `Races.PeakFalls`,
  and exactly then, `LedgerTheorems.PeakFallsExactly`.
- The repository's README places exits as limit and stop orders right after the entry fill (`README.md:150`); the code
  places a market sell when a bar's price reaches a level, and the model does that.
- The same README sizes a trade so that a 1-ATR move equals the risk budget (`README.md:140`); the code divides by ATR times
  the risk multiplier, and `Sizing.RiskBound` is about that distance.
- The comment at `internal/repository/trade_repository.go:79-86` counts partly filled buys in, so that stops are
  enforced as soon as shares are held. When the rest of such an order is cancelled or expires, the row becomes
  cancelled, its slot is given back and no exit pass looks at it again, although shares are held
  (`Races.PartialFillDropped`). `LedgerTheorems.LeavesMonitoringExactly` says exactly when a monitored buy leaves
  monitoring without a sell; a late event that maps to pending is the other case.
- A sell that the broker accepts and later rejects keeps its row, and the row blocks every further sell of its buy.
  Nothing here claims that a triggered buy is eventually sold.

## Model

| member | source | states |
|---|---|---|
| LedgerTheorems.SlotConservation | internal/service/trade_service.go:211-446 | in every reachable state, for each transfer, slots left plus live buys equals the initial slot count, and slots left is never negative unless funded so; a transfer with a NULL counter has no live buy |
| LedgerTheorems.NoDoubleSell | internal/service/trade_service.go:325-397 | over any run the broker accepts at most one sell for each buy, and each accepted sell is of exactly its buy's quantity |
| LedgerTheorems.TerminalAbsorbs | internal/service/trade_service.go:245-280 | a row that is filled, cancelled or rejected at some point of a run keeps that status and is never deleted, although workers overwrite whole rows |
| LedgerTheorems.ReferenceIntegrity | internal/service/trade_service.go:372-396 | in every run each trade's signal, transfer and, for a sell, parent rows exist |
| LedgerTheorems.ExecutedIsAccepted | internal/service/trade_service.go:387-396 | a signal marked executed belongs to a trade whose order the broker accepted |
| LedgerTheorems.ExecutedForever | internal/service/trade_service.go:372-396 | an executed signal is never deleted and stays executed, through cleanup deletes of any interleaving |
| LedgerTheorems.PositionBound | internal/service/trade_service.go:211-223 | open positions of a symbol are at most one plus the cleanup deletes that re-exposed a buy of it |
| LedgerTheorems.OnePosition | internal/service/trade_service.go:206-223 | with no successful cleanup delete there is never a second open position in a symbol |
| LedgerTheorems.SecondPositionExactly | internal/service/trade_service.go:368-376 | an action opens a second position if and only if it is a cleanup delete re-exposing a live buy while another position of the symbol is open |
| LedgerTheorems.DeleteReopens | internal/service/trade_service.go:369-376 | deleting a sell re-opens its parent buy when that is live, and nothing else |
| Races.TwoPositions | internal/service/trade_service.go:206-210 | a concrete run from empty tables ends with two open positions of one symbol |
| LedgerTheorems.BuyForever | internal/repository/trade_repository.go:182-254 | a buy is never deleted and its quantity, prices, transfer and signal never change in any run, so an old copy of them stays true |
| LedgerTheorems.LeavesMonitoringExactly | internal/repository/trade_repository.go:79-94 | a monitored buy leaves exit monitoring without a sell if and only if the consumer writes it back as pending, cancelled or rejected |
| LedgerTheorems.RefundedNeverMonitored | internal/service/trade_service.go:417-446 | a cancelled or rejected buy is never monitored again in any continuation |
| Races.PartialFillDropped | internal/service/trade_service.go:423-446 | a concrete run: a partly filled buy is cancelled, its slot is given back, and no continuation ever monitors it |
| LedgerTheorems.CapitalPerSlot | internal/service/trade_service.go:148-173 | live buys of a transfer cost together at most live buys times amount over target |
| LedgerTheorems.CapitalBound | internal/service/trade_service.go:148-173 | when the initial slots do not exceed the target, live buys of a transfer never cost more than its amount, in any run |
| LedgerTheorems.RiskTotal | internal/service/trade_service.go:148-178 | for non-negative amount and risk fraction and positive prices, the live buys of a transfer risk down to their stops at most live buys times amount times fraction |
| LedgerTheorems.PeakFallsExactly | internal/repository/trade_repository.go:220-254 | an action lowers a stored peak if and only if it is the consumer writing back a copy with a lower peak |
| Races.PeakFalls | internal/repository/trade_repository.go:220-223 | a concrete run in which a bar stores peak 12 and the consumer's overlapping write puts it back to 10 |
| LedgerSteps.NextKeepsCore | internal/service/trade_service.go:211-449 | every action keeps the ownership invariant: references, one sell per buy, order IDs matching the broker's log, one owner per unsettled row, honest executed marks |
| LedgerMoney.NextKeepsInv | internal/service/trade_service.go:211-449 | every action also keeps slots, position counts, sizes, and sells matching their buys |
| LedgerEffects.NextEffect | internal/service/trade_service.go:211-449 | each action's change to the tables is one of seven kinds, with what each kind leaves alone |
| LedgerMoney.BracketsEntry | internal/service/trade_service.go:175-181 | stop-loss and take-profit bracket the entry, a fresh buy is not triggered at its own price, and reward stands to risk as the two multipliers |
| Sizing.SlotBound | internal/service/trade_service.go:154-169 | in every sizing branch quantity times price is at most amount over target |
| Sizing.RiskBound | internal/service/trade_service.go:148-178 | in every sizing branch a placed buy's quantity times the distance to its stop is at most amount times risk fraction |
| Sizing.QuantityExactly | internal/service/trade_service.go:148-173 | sizing fails exactly on a zero target or price; for a positive price and stop distance a quantity is at most the one bought if and only if its loss down to the stop fits the amount at risk and its cost fits the slot; without a stop distance the purchase costs exactly the slot |
| Sizing.QuantityIs | internal/service/trade_service.go:148-173 | exactly one quantity stays within both limits and reaches one of them, and it is the one bought |
| Sizing.RoundedSlotBound | internal/service/trade_service.go:155-169 | with every division rounded to nearest at a step, one buy overshoots its slot by at most half a step times one plus the price |
| Sizing.RoundedNear | internal/service/trade_service.go:155-169 | with every division rounded to nearest at a step, the cost of a buy is off by at most half a step times one plus the price, either way |
| TradeServices.TradeService.ExecuteBuyTrade | internal/service/trade_service.go:138-258 | check, insert and decrement in one transaction, broker call, then order ID and executed mark or cancellation: result and whole new state |
| TradeServices.TradeService.SettleBuy | internal/service/trade_service.go:231-258 | the broker call of a committed buy, then its order ID and executed mark, or its cancellation |
| TradeServices.TradeService.CancelTradeAndRestoreSlot | internal/service/trade_service.go:263-280 | the row is cancelled and its slot refunded together or not at all |
| TradeServices.TradeService.EvaluateAndExecuteExits | internal/service/trade_service.go:285-400 | both exit loops: staged sells commit together, then each is placed or cleaned up in slice order |
| TradeServices.TradeService.StageExits | internal/service/trade_service.go:299-352 | the first loop inserts a signal and a sell for each triggered buy and stops at the first error |
| TradeServices.TradeService.SettleExit | internal/service/trade_service.go:360-397 | the second loop's body: order ID and executed mark, or deletion of trade, then signal |
| TradeServices.TradeService.ExecuteSellTrade | internal/service/trade_service.go:77-124 | pre-insert, broker call, then order ID or deletion; a parent without a transfer is refused |
| TradeServices.TradeService.ApplyTradeUpdates | internal/service/trade_service.go:406-455 | unknown orders and terminal rows are ignored; otherwise status, fill, fees and refund are written together |
| TradeServices.Backend.GetOpenBuyTradesBySymbol | internal/repository/trade_repository.go:87-139 | the row loop yields the open or filled buys of the symbol without a sell child, in reading order |
| TradeServices.Backend.GetByAlpacaOrderID | internal/repository/trade_repository.go:141-180 | the row carrying the order ID, or none |
| TradeServices.Backend.UpdateTradeRow | internal/repository/trade_repository.go:220-254 | every column is overwritten, constraints permitting; an absent row is no error |
| TradeServices.Backend.CreateTrade | internal/repository/trade_repository.go:71-77 | a new row is inserted unless a key, foreign key or unique index refuses it |
| TradeServices.Backend.DeleteTradeRow | internal/repository/trade_repository.go:182-193 | the row is removed unless another trade names it as parent |
| TradeServices.Backend.HasOpen | internal/repository/trade_repository.go:199-218 | whether a pending, open or filled buy of the symbol has no sell child |
| TradeServices.Backend.DecrementRemainingTrades | internal/repository/account_transfer_repository.go:86-111 | one slot is taken, only when one is left |
| TradeServices.Backend.IncrementRemainingTrades | internal/repository/account_transfer_repository.go:113-137 | one slot is given back; a missing transfer is an error, a NULL counter stays NULL |
| TradeServices.Backend.GetAvailableBudget | internal/repository/account_transfer_repository.go:62-84 | a copy of the budget row the query finds |
| Database.BudgetIsOldest | internal/repository/account_transfer_repository.go:62-84 | the budget found has a slot and no older transfer has one; none is found only if none has |
| TradeServices.Backend.DeleteSignalRow | internal/repository/signal_repository.go:59-65 | a signal is removed unless a trade refers to it |
| TradeServices.Backend.MarkSignalExecuted | internal/repository/signal_repository.go:67-73 | the signal, if present, is marked executed; nothing else changes |
| ExitPasses.QueryExact | internal/repository/trade_repository.go:87-139 | the open-buy query returns each open or filled buy of the symbol that no sell names as parent exactly once, with its columns, and nothing else |
| Database.PositionExactly | internal/repository/trade_repository.go:199-218 | an entry is blocked if and only if a pending, open or filled buy of the symbol has no sell naming it as parent |
| Database.PutExactly | migrations/000002_create_trades.up.sql:1-17 | an insert or update is accepted if and only if references, unique order IDs and one sell per buy all hold after it |
| Database.DeleteExactly | internal/repository/trade_repository.go:182-193 | a delete is accepted if and only if no reference dangles after it |
| ExitPasses.ExitExactness | internal/service/trade_service.go:293-355 | the sells inserted are exactly one per open or filled unsold buy whose stop the price has come down to or whose target it has come up to, either level possibly missing; each is pending, of the whole quantity, from the same transfer; no other row changes |
| ExitOutcomes.PassOutcome | internal/service/trade_service.go:285-400 | for any pattern of failing calls and refused orders: if the transaction fails nothing changes; otherwise the buys that get a sell are exactly those that must exit, each one of its whole quantity; an accepted one has its log entry, and its order ID and executed mark unless that call failed; a refused one is gone with its signal unless a delete failed; no other row, signal, slot or order changes |
| ExitOutcomes.RefusedPassRestores | internal/service/trade_service.go:360-385 | if the broker refuses every order and no call fails, the tables and the log equal those before the pass |
| BuyOutcomes.BuyOutcome | internal/service/trade_service.go:138-280 | for any pattern of failing calls: no slot, a quantity that is not positive or a blocking position means no effect; a zero target or price and a failed transaction are errors without effect; otherwise the one fitting quantity is bought: row with stop and target at their ATR multiples, order logged, one slot less, order ID and executed mark unless that call failed, or, refused, a cancelled row and every slot kept unless that transaction failed |
| BuyOutcomes.SellOutcome | internal/service/trade_service.go:77-124 | for any pattern of failing calls: a buy that has a sell is refused; otherwise the accepted order and one pending whole-quantity row, with the order ID unless that call failed, or, refused, no trace unless the delete failed |
| BuyOutcomes.SignalOutcome | internal/service/signal_service.go:92-150 | a signal is stored and returned if and only if nothing blocks the symbol, the price is above the average, the index below 35, the sentiment good and no call fails; a missing sentiment is an error only when the other gates pass; an error stores nothing |
| BuyOutcomes.PreviewOutcome | internal/service/signal_service.go:152-199 | the same for the preview, whose momentum gate wants the previous index below 35 and the current one at or above it |
| BarOutcomes.LiveBarOutcome | internal/strategy/live_coordinator.go:34-61 | a live bar, for any pattern of failing calls and refused orders: unchanged if its exit transaction fails; otherwise it sells exactly the buys that must exit and then, exactly when every blocking buy has a sell and every gate passes, stores a signal and buys the fitting quantity out of a transfer with a slot left that is as old as any; a failed call ends the bar there with an error |
| BarOutcomes.NextBarOutcome | internal/strategy/live_coordinator.go:34-61 | the same for the next bar after any history of bars and updates from empty tables |
| Runs.BuyCallIsRun | internal/service/trade_service.go:138-280 | ExecuteBuyTrade, with any failures, is a run of the machine |
| Runs.ExitCallIsRun | internal/service/trade_service.go:285-400 | EvaluateAndExecuteExits, with any failures, is a run of the machine |
| Runs.UpdateCallIsRun | internal/service/trade_service.go:406-455 | ApplyTradeUpdates, with any failures, is a run of the machine |
| Runs.SellCallIsRun | internal/service/trade_service.go:77-124 | ExecuteSellTrade, on old copies of rows that may be gone and with any failures, is a run of the machine |
| Histories.LiveBarIsRun | internal/strategy/live_coordinator.go:34-61 | a live bar, with any failures, is a run of the machine |
| Histories.FullBarIsRun | internal/strategy/trading_coordinator.go:68-101 | a bar through the full coordinator is a run of the machine |
| Histories.HistoryIsRun | internal/strategy/trading_coordinator.go:68-101 | any list of bars and broker updates, with any failures, is a run of the machine |
| Histories.HistorySafe | internal/strategy/trading_coordinator.go:68-181 | after any such history references hold, each buy has at most one sell and that of its whole quantity, no row's order is accepted twice, and every transfer's slots left plus live buys is unchanged |
| Replays.ReplayExactly | internal/service/trade_service.go:406-454 | any list of broker events on one live row ends in the row folded over the events up to the first terminal one, with at most one refund |
| Replays.ReplayStops | internal/service/trade_service.go:417-421 | after a terminal event, duplicates and later events change nothing |
| Replays.RefundedOnce | internal/service/trade_service.go:440-446 | a buy's slot is refunded exactly once when the first ending event is a rejection, cancellation, expiry or done-for-day, and otherwise never |
| Replays.FeesOnce | internal/service/trade_service.go:428-434 | when the first ending event is a fill that names its price, commission and FX fee are quantity times price times their fractions, whatever else is replayed; otherwise both stay as they were |
| Replays.ReplayColumns | internal/service/trade_service.go:406-454 | after any list of events the row has the status and the fill price of the last event that counts, the fees if that is a priced fill, and every other column unchanged |
| Replays.UpdateOutcome | internal/service/trade_service.go:406-455 | one update of a known order, for any pattern of failing calls: nothing on a filled, cancelled or rejected row, nothing but an error if a call fails, otherwise status, fill price, fees and refund together and no other column |
| Replays.UnknownOrder | internal/service/trade_service.go:407-415 | an update of an order no row carries changes nothing |
| Mapper.EventTable | internal/alpaca/mapper.go:11-27 | which event names give each status, and that no other name gives any |
| Replays.HandleOne | cmd/server/main.go:339-357 | an unmapped event changes nothing; a mapped one reconciles the row |
| Coordinators.SignalService.EvaluateBuySignal | internal/service/signal_service.go:92-150 | the layered gates in order, then the signal row: result and whole new state |
| Signals.GatesExclude | internal/service/signal_service.go:113-173 | on the same cached state the live and the shadow gate never both emit a signal |
| Coordinators.LiveCoordinator.EvaluateBar | internal/strategy/live_coordinator.go:34-61 | exits, then signal, then budget, then buy; the first error ends the bar |
| Coordinators.TradingCoordinator.EvaluateBar | internal/strategy/trading_coordinator.go:68-73 | shadow exits, shadow signal, then the live bar: both tables and the result |
| Coordinators.TradingCoordinator.ShadowEvaluateExits | internal/strategy/trading_coordinator.go:85-101 | peaks and decisions of all open buys are stored together or not at all |
| Coordinators.TradingCoordinator.ShadowAdaptiveExit | internal/strategy/trading_coordinator.go:116-181 | peak update and at most one decision of one trade |
| Coordinators.TradingCoordinator.ShadowLegacyExit | internal/strategy/trading_coordinator.go:183-206 | the static decision, logged |
| Coordinators.TradingCoordinator.ShadowEvaluateBuySignal | internal/strategy/trading_coordinator.go:214-248 | a regime-off row or the previewed signal is logged; the tables are untouched |
| Erasure.ShadowErasure | internal/strategy/trading_coordinator.go:68-181 | for any list of bars and updates the full and the live coordinator give the same orders, trades, live signals, slots and results, up to stored peaks |
| Erasure.ShadowOnlyMovesPeaks | internal/strategy/trading_coordinator.go:85-181 | a shadow pass changes nothing in the tables but peaks |
| Erasure.LiveIgnoresPeaks | internal/strategy/live_coordinator.go:34-61 | the live path gives the same outcome on tables that differ in peaks |
| ShadowHistories.PeakIsMax | internal/strategy/trading_coordinator.go:116-139 | over any list of bars and broker updates handled one at a time, a buy's stored peak is the maximum of the peak it had and the prices of the bars whose committed shadow pass read it |
| ShadowDecisions.DecisionsExactly | internal/strategy/trading_coordinator.go:85-206 | after any history of bars and updates from empty tables, the next bar logs exactly the decisions due on the held rows it reads, one per row: adaptive exit at or below the stop for the new peak, stop move when that stop rose, both only while the static levels hold, and on legacy rows static stop, then target; none if its shadow transaction fails |
| ShadowDecisions.DecisionExactly | internal/strategy/trading_coordinator.go:105-206 | a decision is taken on a row if and only if it is the one due from the row's columns, the price and the tiers |
| ShadowDecisions.SignalsExactly | internal/strategy/trading_coordinator.go:214-248 | a bar logs a regime-off note when the regime is off, else the signal whose shadow gates all pass, else nothing; a failed preview or insert logs nothing |
| ShadowHistories.LoggedJustified | internal/strategy/trading_coordinator.go:141-206 | over any such list, every decision appended to the log belongs to an existing trade; on the adaptive path a stop move has static stop < new stop < price = peak and an exit has static stop < price <= adaptive stop, on the legacy path the static level named was reached |
| ShadowHistories.LiveBarKeeps | internal/strategy/live_coordinator.go:34-61 | a live bar leaves every row that was already stored as it was |
| PeakTracking.ObserveRaisesPeaks | internal/strategy/trading_coordinator.go:85-139 | the shadow transaction's whole effect on the tables is to raise the peaks of the rows it read |
| Adaptive.TierLevels | internal/strategy/adaptive_exit.go:25-45 | for positive ATR the tiers are price levels, and the result depends on the peak only by them |
| Adaptive.StopExactly | internal/strategy/adaptive_exit.go:25-45 | in prices: from trail-trigger ATRs above entry the stop trails the peak by trail-distance ATRs, from break-even-trigger ATRs it is at entry, below it is the static stop, and never under the static stop |
| Adaptive.NeverLoosensStatic | internal/strategy/adaptive_exit.go:25-45 | the effective stop is never below the static stop |
| Adaptive.DropBound | internal/strategy/adaptive_exit.go:31-42 | raising the peak lowers the stop by at most ATR times max(0, distance - trigger) |
| Adaptive.TightensExactly | internal/strategy/adaptive_exit.go:33-42 | for positive ATR the stop is monotone in the peak if and only if trigger >= distance, or there is no break-even tier below the trail tier, or the static stop is at or above entry |
| Adaptive.DefaultsCanLoosen | internal/strategy/adaptive_exit_test.go:29-41 | with the defaults a peak of 102 gives stop 100 and a peak of 103 gives 99 |
| Ema.CalculateEMA | internal/indicator/ema.go:12-34 | the loop computes the recursive average, and fails exactly on a non-positive or too long period |
| Ema.CalculateSMA | internal/indicator/ema.go:36-42 | the loop computes the mean |
| Ema.EmaNext | internal/indicator/ema.go:25-31 | one more value moves the average so that (n + 1) new == (n - 1) old + 2 v, for every series and period n |
| Ema.EmaLag | internal/indicator/ema.go:12-34 | on an arithmetic series of any length the average is the last value less (n - 1) / 2 steps |
| Ema.EmaBounds | internal/indicator/ema.go:25-42 | the average lies inside any band that holds the series |
| Ema.EmaWithin | internal/indicator/ema.go:25-42 | some value of the series is at most the average and some is at least it |
| Ema.EmaAffine | internal/indicator/ema.go:25-42 | the average commutes with v to a*v+b |
| Ema.LastAbove | internal/indicator/ema.go:25-31 | beyond the seed the last value exceeds the average if and only if the period is at least 2 and it exceeds the average without it |
| Ema.AboveSomeEarlier | internal/indicator/ema.go:25-42 | a last value above the average is above some earlier value |
| Rsi.CalculateRSI | internal/indicator/rsi.go:15-62 | the two loops and the final formula compute 100 G / (G + L), or 100 when L is zero, for Wilder's averages G and L; fails exactly when the period is not positive or not below the length |
| Rsi.AveragesNext | internal/indicator/rsi.go:42-53 | one more close moves the averages so that n new == (n - 1) old + its gain, and likewise its loss |
| Rsi.IndexIsShare | internal/indicator/rsi.go:54-61 | the index times both averages is 100 times the gains' average, and 100 when both are zero |
| Rsi.FullStrength | internal/indicator/rsi.go:27-61 | the index lies in [0, 100] and, for period at least 2, is 100 if and only if no close fell anywhere in the series |
| Rsi.MirrorSum | internal/indicator/rsi.go:27-61 | the indexes of a series and of its mirror image add up to 100 unless both averages are zero |
| Rsi.NoRiseNoRaise | internal/indicator/rsi.go:42-61 | for period at least 2 a last close that does not rise never raises an index below 100 |
| Atr.CalculateATR | internal/indicator/atr.go:23-48 | the loop and the average compute the smoothed true range; fails exactly on a non-positive or too long period |
| Atr.TrueRangeIsSpan | internal/indicator/atr.go:50-56 | for low <= high the true range is max(high, previous close) - min(low, previous close) |
| Atr.AtrNext | internal/indicator/atr.go:36-56 | one more bar moves the ATR so that (n + 1) new == (n - 1) old + twice the span of the bar and the previous close |
| Atr.AtrBounds | internal/indicator/atr.go:36-56 | the ATR is non-negative, lies between two of the true ranges, and is at most the price range of the whole series |
| Atr.AtrAffine | internal/indicator/atr.go:36-56 | a price shift leaves the ATR alone and scaling prices scales it by the factor's size |
| Cache.IndicatorCache.Seed | internal/indicator/cache.go:47-85 | the symbol's state is replaced by the four indicators of the series, or on any error left alone |
| Cache.IndicatorCache.Get | internal/indicator/cache.go:87-94 | after any calls of Seed a symbol is served if and only if one of its seeds succeeded, with what its last successful seed computed |
| Cache.PreviousIsYesterday | internal/indicator/cache.go:62-73 | the previous RSI of a state is the RSI that a seed on all but the last bar would store |
| Cache.NextDay | internal/indicator/cache.go:47-85 | seeding with one more bar moves each indicator by that bar alone, each with its own period, and the previous RSI is the old RSI |
| Cache.CachedExactly | internal/indicator/cache.go:45-94 | after any run of seeds a symbol is cached if and only if one of its seeds succeeded, with the state of its last successful one |
| Cache.CrossUpRises | internal/service/signal_service.go:152-173 | after any run of seeds with RSI period at least 2, a previewed shadow buy implies that the symbol's last seeded close is strictly above the one before |
| Cache.LiveSignalMeans | internal/service/signal_service.go:101-116 | after any run of seeds with RSI period at least 2, a live buy signal implies that some close of the symbol's last seeded series fell and that the price is above some close of it |
| Cache.PeriodOneFires | internal/service/signal_service.go:170-173 | with RSI period 1 the cross-up gate opens on a flat close |
| Regime.RegimeCache.Seed | internal/indicator/regime.go:37-60 | the verdict of the last close against the average; an error leaves the cache alone |
| Regime.RegimeCache.IsRiskOn | internal/indicator/regime.go:62-69 | after any calls of Seed it returns true if and only if some seed succeeded and the last successful one found the last close above the average |
| Regime.OnExactly | internal/indicator/regime.go:20-69 | over any run of seeds the two flags are both set if and only if some seed succeeded and the last successful one was risk-on; before the first success the cache is closed |
| Regime.RiskOnExactly | internal/indicator/regime.go:47-56 | beyond the window the regime is on if and only if the period is at least 2 and the last close is above the average of the closes before it |
| Regime.RiskOnMeansGain | internal/indicator/regime.go:47-56 | a risk-on verdict implies that some earlier close is lower |

## Left out

- HTTP handlers, API-key middleware, configuration, start-up wiring, connection pool and migrations: input and output.
- The broker's SDK, its websocket streams, stream supervision and reconnection: calls into code that is not part of this model.
- Sentiment providers: their verdict is an arbitrary boolean or an error, handed to the gates as a parameter.
- The bot controller, the watchlist and the account-transfer service's create path: easy members.
- Timestamps, `filled_at`, metadata and reasoning strings: columns nothing modelled here reads.
- Snapshot isolation, `FOR UPDATE SKIP LOCKED` and `READ COMMITTED` races: transactions are taken as atomic; two position checks that both pass under weak isolation are outside the model.
- Storage rounding to `DECIMAL(19,4)` and the decimal library's division precision: values are reals, apart from `Sizing.RoundedSlotBound` and `Sizing.RoundedNear`.
- Cancelled contexts and time-outs: they appear only as a failed call.
- The cascade from a deleted trade to its shadow decisions: shadow rows are kept in a log of their own, since only live buys are observed and only sells are deleted.
- Shadow rows of the `signals` table: kept in the shadow log, as no live query reads them.
- `CreateSellSignal`: it has no caller in the program; the machine's AddSignal action covers its effect, and CommitSell that of `ExecuteSellTrade`, which has none either.
- The mutexes of the two caches: each seed and each read is one step.
- The identifiers consumed by a rolled-back exit transaction: they are handed out again, which no row can tell.
- LedgerTheorems.RiskTotal: assumes non-negative amount and risk fraction and positive prices, without which the stop distance has no meaning as a risk.
- Histories.HistoryIsRun: one caller at a time; interleaved callers are covered by the machine's runs directly.
