/** The layered buy gates over the cached indicators (signal_service.go). */
module Signals {
  import opened Model
  import opened Database
  import opened Calls

  const OVERSOLD := 35.0

  // What a gate needs from outside: the cached indicators, if seeded, and the sentiment
  // verdict, or None when the provider fails.
  datatype Market = Market(state: Option<IndicatorState>, verdict: Option<bool>)

  function Entry(symbol: string, price: real, state: IndicatorState): Signal {
    Signal(symbol, Buy, price, Indicators(state.ema, state.rsi, state.atr), false)
  }

  // Layers 1 to 3 on the live path.
  predicate LiveGate(price: real, state: IndicatorState) {
    price > state.ema && state.rsi < OVERSOLD
  }

  // The shadow path replaces the momentum layer by an upward cross of the oversold line.
  predicate CrossUpGate(price: real, state: IndicatorState) {
    price > state.ema && state.rsiPrev < OVERSOLD && state.rsi >= OVERSOLD
  }

  // A read outside a transaction consumes one fault bit.
  function Read(w: World): (World, bool) {
    (w.(faults := Tail(w.faults)), Head(w.faults))
  }

  function EvaluateBuySignal(w: World, symbol: string, price: real, market: Market): (World, Result<Option<(nat, Signal)>>) {
    var (w1, failed) := Read(w);
    if failed then (w1, Err(Infrastructure))
    else if HasOpenPosition(w.db.trades, symbol) || market.state.None? || !LiveGate(price, market.state.value) then (w1, Ok(None))
    else if market.verdict.None? then (w1, Err(Infrastructure))
    else if !market.verdict.value then (w1, Ok(None))
    else
      var signal := Entry(symbol, price, market.state.value);
      var (w2, r) := Commit(w1.(next := w1.next + 1), InsertSignal(w1.db, w1.next, signal));
      (w2, if r.Ok? then Ok(Some((w1.next, signal))) else Err(r.error))
  }

  // Reads only; `failed` is the outcome of its one query.
  function PreviewBuySignal(trades: Trades, failed: bool, symbol: string, price: real, market: Market): Result<Option<Signal>> {
    if failed then Err(Infrastructure)
    else if HasOpenPosition(trades, symbol) || market.state.None? || !CrossUpGate(price, market.state.value) then Ok(None)
    else if market.verdict.None? then Err(Infrastructure)
    else if !market.verdict.value then Ok(None)
    else Ok(Some(Entry(symbol, price, market.state.value)))
  }

  // No cached state makes both paths fire: live wants RSI still oversold, shadow wants it to have left.
  lemma GatesExclude(w: World, failed: bool, symbol: string, price: real, live: Market, shadow: Market)
    requires live.state == shadow.state
    ensures !(EvaluateBuySignal(w, symbol, price, live).1.Ok? && EvaluateBuySignal(w, symbol, price, live).1.value.Some?
           && PreviewBuySignal(w.db.trades, failed, symbol, price, shadow).Ok?
           && PreviewBuySignal(w.db.trades, failed, symbol, price, shadow).value.Some?)
  {}
}
