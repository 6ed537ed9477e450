/** Domain types shared by every module: the rows of the three tables, the
    broker's view of an order, and the outcomes of fallible calls. Identifiers
    (UUIDs and broker order IDs) are opaque labels, so naturals stand for them. */
module Model {
  datatype Option<+T> = None | Some(value: T)

  datatype Error =
    | UniqueViolation | ForeignKeyViolation | NotNullViolation
    | NoRemainingSlots | PositionAlreadyOpen | NotFound
    | Infrastructure | Invalid | DivisionByZero

  datatype Result<+T> = Ok(value: T) | Err(error: Error)

  datatype Side = Buy | Sell

  datatype Status = Pending | Open | Filled | Cancelled | Rejected {
    // Statuses whose broker events are ignored as replays.
    predicate Terminal() { Filled? || Cancelled? || Rejected? }
    // Statuses under which a buy occupies its slot.
    predicate Live() { Pending? || Open? || Filled? }
    // Statuses that give a buy's slot back.
    predicate Refunds() { Cancelled? || Rejected? }
  }

  datatype Indicators = Indicators(ema: real, rsi: real, atr: real)

  // The cached daily indicators of one symbol; rsiPrev leaves out the latest close.
  datatype IndicatorState = IndicatorState(ema: real, rsi: real, rsiPrev: real, atr: real)

  datatype Trade = Trade(
    parent: Option<nat>, signal: Option<nat>, transfer: Option<nat>, order: Option<nat>,
    symbol: string, side: Side, quantity: real, price: Option<real>,
    avgFill: Option<real>, commission: Option<real>, fxFee: Option<real>,
    stopLoss: Option<real>, takeProfit: Option<real>,
    peak: Option<real>, entryATR: Option<real>, status: Status)

  datatype Signal = Signal(symbol: string, side: Side, price: real, indicators: Indicators, executed: bool)

  datatype Transfer = Transfer(amountUSD: real, targetTrades: int, remaining: Option<int>, createdAt: int)

  // What the broker recorded when it accepted an order; its ID is its index in the log.
  datatype Accepted = Accepted(trade: nat, side: Side, parent: Option<nat>, signal: Option<nat>, symbol: string, quantity: real)

  // The order part of a broker event.
  datatype Fill = Fill(avgPrice: Option<real>, quantity: real)

  datatype Params = Params(
    riskPct: real, atrRiskMult: real, takeProfitMult: real, commissionPct: real, fxPct: real)

  // A trade row as fetched: its key and a copy of its columns.
  datatype Fetched = Fetched(id: nat, row: Trade)

  function OrderFor(id: nat, row: Trade): Accepted {
    Accepted(id, row.side, row.parent, row.signal, row.symbol, row.quantity)
  }

  function Max(x: real, y: real): real { if x < y then y else x }
  function Min(x: real, y: real): real { if x < y then x else y }
}
