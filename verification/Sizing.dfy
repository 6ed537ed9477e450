/** Position sizing of a buy (ExecuteBuyTrade) and the bounds it promises. */
module Sizing {
  import opened Model
  import opened Reals

  // Sizing from the amount at risk, the stop distance and the slot's share of the budget;
  // dividing by a zero decimal panics.
  function QuantityFor(risk: real, stopDistance: real, slot: real, price: real): Result<real> {
    if stopDistance != 0.0 && price > 0.0 then Ok(Min(risk / stopDistance, slot / price))
    else if price == 0.0 then Err(DivisionByZero)
    else Ok(slot / price)
  }

  function StopDistance(p: Params, atr: real): real { atr * p.atrRiskMult }

  function TargetDistance(p: Params, atr: real): real { atr * p.takeProfitMult }

  function AtRisk(p: Params, amount: real): real { amount * p.riskPct }

  function Quantity(p: Params, amount: real, target: int, price: real, atr: real): Result<real> {
    if target == 0 then Err(DivisionByZero)
    else QuantityFor(AtRisk(p, amount), StopDistance(p, atr), amount / target as real, price)
  }

  // ---- which quantity ----

  lemma AtMostMin(q: real, x: real, y: real)
    ensures q <= Min(x, y) <==> q <= x && q <= y
  {}

  lemma LargestFor(risk: real, d: real, slot: real, price: real, q: real)
    requires d != 0.0 && price > 0.0
    ensures d > 0.0 ==> (q <= QuantityFor(risk, d, slot, price).value <==> q * d <= risk && q * price <= slot)
    ensures d < 0.0 ==> (q <= QuantityFor(risk, d, slot, price).value <==> q * d >= risk && q * price <= slot)
  {
    hide Min;
    AtMostMin(q, risk / d, slot / price);
    AtMostQuotient(q, risk, d);
    AtMostQuotient(q, slot, price);
  }

  // Sizing succeeds unless it divides by zero. At a positive price and stop distance the quantity is the
  // largest whose loss down to the stop fits the amount at risk and whose cost fits the slot; without a
  // stop distance, or at a negative price, it costs exactly the slot.
  lemma QuantityExactly(p: Params, amount: real, target: int, price: real, atr: real, q: real)
    ensures Quantity(p, amount, target, price, atr).Ok? <==> target != 0 && price != 0.0
    ensures target != 0 && price > 0.0 && atr * p.atrRiskMult > 0.0 ==>
      (q <= Quantity(p, amount, target, price, atr).value
       <==> q * (atr * p.atrRiskMult) <= amount * p.riskPct && q * price <= amount / target as real)
    ensures target != 0 && price > 0.0 && atr * p.atrRiskMult < 0.0 ==>
      (q <= Quantity(p, amount, target, price, atr).value
       <==> q * (atr * p.atrRiskMult) >= amount * p.riskPct && q * price <= amount / target as real)
    ensures target != 0 && price != 0.0 && (atr * p.atrRiskMult == 0.0 || price < 0.0) ==>
      Quantity(p, amount, target, price, atr).value * price == amount / target as real
  {
    hide QuantityFor;
    if target != 0 {
      var risk, d, slot := AtRisk(p, amount), StopDistance(p, atr), amount / target as real;
      QuantityForOk(risk, d, slot, price);
      if d != 0.0 && price > 0.0 {
        LargestFor(risk, d, slot, price, q);
      } else if price != 0.0 {
        WholeSlotFor(risk, d, slot, price, QuantityFor(risk, d, slot, price).value);
      }
    }
  }

  lemma QuantityForOk(risk: real, d: real, slot: real, price: real)
    ensures QuantityFor(risk, d, slot, price).Ok? <==> price != 0.0
  {}

  // q is at most as risky and as costly as allowed and reaches one of the two limits; without a stop
  // distance, or without a positive price, it costs the whole slot.
  predicate Fits(p: Params, amount: real, target: int, price: real, atr: real, q: real)
    requires target != 0
  {
    if price <= 0.0 || atr * p.atrRiskMult == 0.0 then q * price == amount / target as real else
    && (if atr * p.atrRiskMult > 0.0 then q * (atr * p.atrRiskMult) <= amount * p.riskPct else q * (atr * p.atrRiskMult) >= amount * p.riskPct)
    && q * price <= amount / target as real
    && (q * (atr * p.atrRiskMult) == amount * p.riskPct || q * price == amount / target as real)
  }

  lemma FitsFor(risk: real, d: real, slot: real, price: real, q: real)
    requires d != 0.0 && price > 0.0
    ensures QuantityFor(risk, d, slot, price) == Ok(q) <==>
      && (if d > 0.0 then q * d <= risk else q * d >= risk) && q * price <= slot && (q * d == risk || q * price == slot)
  {
    AtMostQuotient(q, risk, d);
    AtMostQuotient(q, slot, price);
    QuotientIs(q, risk, d);
    QuotientIs(q, slot, price);
  }

  // Exactly one quantity fits, and it is the one bought.
  lemma QuantityIs(p: Params, amount: real, target: int, price: real, atr: real, q: real)
    requires target != 0 && price != 0.0
    ensures Quantity(p, amount, target, price, atr) == Ok(q) <==> Fits(p, amount, target, price, atr, q)
  {
    hide QuantityFor;
    var risk, d, slot := AtRisk(p, amount), StopDistance(p, atr), amount / target as real;
    if d != 0.0 && price > 0.0 { FitsFor(risk, d, slot, price, q); } else { WholeSlotFor(risk, d, slot, price, q); }
  }

  lemma WholeSlotFor(risk: real, d: real, slot: real, price: real, q: real)
    requires price != 0.0 && (d == 0.0 || price < 0.0)
    ensures QuantityFor(risk, d, slot, price) == Ok(q) <==> q * price == slot
  {
    QuotientIs(q, slot, price);
  }

  // ---- the promised bounds ----

  lemma SlotBoundFor(risk: real, d: real, slot: real, price: real)
    requires QuantityFor(risk, d, slot, price).Ok?
    ensures QuantityFor(risk, d, slot, price).value * price <= slot
  {
    MulDiv(slot, price);
    if d != 0.0 && price > 0.0 {
      MulMono(QuantityFor(risk, d, slot, price).value, slot / price, price);
    }
  }

  // A placed buy never costs more than its slot, whatever the inputs.
  lemma SlotBound(p: Params, amount: real, target: int, price: real, atr: real)
    requires Quantity(p, amount, target, price, atr).Ok?
    ensures target != 0
    ensures Quantity(p, amount, target, price, atr).value * price <= amount / target as real
  {
    SlotBoundFor(AtRisk(p, amount), StopDistance(p, atr), amount / target as real, price);
  }

  lemma RiskBoundFor(risk: real, d: real, slot: real, price: real)
    requires QuantityFor(risk, d, slot, price).Ok?
    requires risk >= 0.0 && price > 0.0 && QuantityFor(risk, d, slot, price).value > 0.0
    ensures QuantityFor(risk, d, slot, price).value * d <= risk
  {
    var q := QuantityFor(risk, d, slot, price).value;
    if d > 0.0 {
      MulDiv(risk, d);
      MulMono(q, risk / d, d);
    } else if d < 0.0 {
      QuotientSign(risk, d);
    }
  }

  lemma RiskIsSigned(p: Params, amount: real)
    requires amount >= 0.0 && p.riskPct >= 0.0
    ensures AtRisk(p, amount) >= 0.0
  {
    MulMono(0.0, amount, p.riskPct);
  }

  // A placed buy never risks more than the configured fraction down to its stop-loss.
  lemma RiskBound(p: Params, amount: real, target: int, price: real, atr: real)
    requires Quantity(p, amount, target, price, atr).Ok?
    requires amount >= 0.0 && p.riskPct >= 0.0 && price > 0.0
    requires Quantity(p, amount, target, price, atr).value > 0.0
    ensures Quantity(p, amount, target, price, atr).value * (price - (price - StopDistance(p, atr))) <= AtRisk(p, amount)
  {
    hide QuantityFor, StopDistance, AtRisk;
    RiskIsSigned(p, amount);
    RiskBoundFor(AtRisk(p, amount), StopDistance(p, atr), amount / target as real, price);
    assert price - (price - StopDistance(p, atr)) == StopDistance(p, atr);
  }

  // ---- rounded division ----

  function RoundHalfAway(n: real): int {
    if n >= 0.0 then (n + 0.5).Floor else -((-n + 0.5).Floor)
  }

  function Multiple(x: real, step: real): real { x * step }

  function RoundTo(q: real, step: real): real
    requires step > 0.0
  {
    Multiple(RoundHalfAway(q / step) as real, step)
  }

  // Division rounded to a multiple of `step`, halves away from zero.
  function RoundDiv(x: real, y: real, step: real): real
    requires y != 0.0 && step > 0.0
  {
    RoundTo(x / y, step)
  }

  lemma HalfAwayNear(n: real)
    ensures n - 0.5 <= RoundHalfAway(n) as real <= n + 0.5
  {
    if n >= 0.0 {
      var m := (n + 0.5).Floor;
      assert m as real <= n + 0.5 < (m + 1) as real;
    } else {
      var m := (-n + 0.5).Floor;
      assert m as real <= -n + 0.5 < (m + 1) as real;
    }
  }

  lemma ScaleHalf(x: real, y: real, step: real)
    requires x <= y + 0.5 && step > 0.0
    ensures Multiple(x, step) <= Multiple(y, step) + 0.5 * step
  {
    var d := y + 0.5 - x;
    MulMono(0.0, d, step);
    assert d * step == y * step + 0.5 * step - x * step;
  }

  lemma RoundToNear(q: real, step: real)
    requires step > 0.0
    ensures q - 0.5 * step <= RoundTo(q, step) <= q + 0.5 * step
  {
    hide RoundHalfAway, Multiple;
    var n := q / step;
    var x := RoundHalfAway(n) as real;
    HalfAwayNear(n);
    ScaleHalf(x, n, step);
    ScaleHalf(n, x, step);
    WholeIsMultiple(q, step);
  }

  lemma WholeIsMultiple(q: real, step: real)
    requires step > 0.0
    ensures Multiple(q / step, step) == q
  {
    MulDiv(q, step);
  }

  function RoundedQuantityFor(risk: real, stopDistance: real, slot: real, price: real, step: real): Result<real>
    requires step > 0.0
  {
    if stopDistance != 0.0 && price > 0.0 then Ok(Min(RoundDiv(risk, stopDistance, step), RoundDiv(slot, price, step)))
    else if price == 0.0 then Err(DivisionByZero)
    else Ok(RoundDiv(slot, price, step))
  }

  function RoundedQuantity(p: Params, amount: real, target: int, price: real, atr: real, step: real): Result<real>
    requires step > 0.0
  {
    if target == 0 then Err(DivisionByZero)
    else RoundedQuantityFor(AtRisk(p, amount), StopDistance(p, atr), RoundDiv(amount, target as real, step), price, step)
  }

  lemma RoundedCost(q: real, exact: real, slot: real, price: real, step: real)
    requires price > 0.0 && q <= slot / price + 0.5 * step && slot <= exact + 0.5 * step
    ensures q * price <= exact + 0.5 * step * (1.0 + price)
  {
    var r := slot / price;
    MulMono(q, r + 0.5 * step, price);
    assert r * price == slot;
    assert (r + 0.5 * step) * price == r * price + 0.5 * step * price;
  }

  // With every division rounded, one buy overshoots its slot by at most step * (1 + price) / 2.
  lemma RoundedSlotBound(p: Params, amount: real, target: int, price: real, atr: real, step: real)
    requires step > 0.0 && price > 0.0
    requires RoundedQuantity(p, amount, target, price, atr, step).Ok?
    ensures target != 0
    ensures RoundedQuantity(p, amount, target, price, atr, step).value * price
         <= amount / target as real + 0.5 * step * (1.0 + price)
  {
    hide RoundTo, StopDistance;
    var exact := amount / target as real;
    RoundToNear(exact, step);
    var slot := RoundDiv(amount, target as real, step);
    RoundToNear(slot / price, step);
    assert RoundedQuantity(p, amount, target, price, atr, step).value <= RoundDiv(slot, price, step);
    RoundedCost(RoundedQuantity(p, amount, target, price, atr, step).value, exact, slot, price, step);
  }

  // A quantity off by at most e costs at most e * price more or less.
  lemma CostNear(q: real, exact: real, price: real, e: real)
    requires price > 0.0 && exact - e <= q <= exact + e
    ensures exact * price - e * price <= q * price <= exact * price + e * price
  {
    var hi, lo := exact + e, exact - e;
    MulMono(q, hi, price);
    MulMono(lo, q, price);
    MulSum(exact, e, price);
    MulSum(lo, e, price);
  }

  lemma MinCost(a: real, b: real, price: real)
    requires price > 0.0
    ensures Min(a, b) * price == Min(a * price, b * price)
  {
    MulOrder(a, b, price);
    if a < b { assert Min(a, b) == a; } else { assert Min(a, b) == b; }
  }

  // Of two pairs of quantities that cost nearly the same, the smaller ones do too.
  lemma MinNear(a: real, b: real, a': real, b': real, price: real, e: real)
    requires price > 0.0
    requires a * price - e <= a' * price <= a * price + e && b * price - e <= b' * price <= b * price + e
    ensures Min(a, b) * price - e <= Min(a', b') * price <= Min(a, b) * price + e
  {
    MinCost(a, b, price);
    MinCost(a', b', price);
  }

  lemma SlotNear(exact: real, price: real, step: real)
    requires step > 0.0 && price > 0.0
    ensures exact - 0.5 * step * (1.0 + price) <= RoundTo(RoundTo(exact, step) / price, step) * price <= exact + 0.5 * step * (1.0 + price)
  {
    hide RoundTo;
    var slot := RoundTo(exact, step);
    var r := slot / price;
    var q := RoundTo(r, step);
    RoundToNear(exact, step);
    RoundToNear(r, step);
    MulDiv(slot, price);
    CostNear(q, r, price, 0.5 * step);
    assert 0.5 * step * (1.0 + price) == 0.5 * step + 0.5 * step * price;
  }

  lemma RiskNear(exact: real, price: real, step: real)
    requires step > 0.0 && price > 0.0
    ensures exact * price - 0.5 * step * (1.0 + price) <= RoundTo(exact, step) * price <= exact * price + 0.5 * step * (1.0 + price)
  {
    hide RoundTo;
    var q := RoundTo(exact, step);
    RoundToNear(exact, step);
    CostNear(q, exact, price, 0.5 * step);
    assert 0.5 * step * (1.0 + price) == 0.5 * step + 0.5 * step * price;
  }

  lemma RoundedNearFor(risk: real, d: real, exact: real, price: real, step: real)
    requires step > 0.0 && price > 0.0
    ensures var q, q' := QuantityFor(risk, d, exact, price).value, RoundedQuantityFor(risk, d, RoundTo(exact, step), price, step).value;
      q * price - 0.5 * step * (1.0 + price) <= q' * price <= q * price + 0.5 * step * (1.0 + price)
  {
    hide RoundTo, Min;
    var b, b' := exact / price, RoundTo(RoundTo(exact, step) / price, step);
    SlotNear(exact, price, step);
    MulDiv(exact, price);
    if d != 0.0 {
      var a, a' := risk / d, RoundTo(risk / d, step);
      RiskNear(a, price, step);
      MinNear(a, b, a', b', price, 0.5 * step * (1.0 + price));
    }
  }

  // Rounding every division moves the cost of a buy by at most step * (1 + price) / 2 either way.
  lemma RoundedNear(p: Params, amount: real, target: int, price: real, atr: real, step: real, q: real)
    requires step > 0.0 && price > 0.0 && target != 0 && Fits(p, amount, target, price, atr, q)
    ensures RoundedQuantity(p, amount, target, price, atr, step).Ok?
    ensures q * price - 0.5 * step * (1.0 + price)
         <= RoundedQuantity(p, amount, target, price, atr, step).value * price
         <= q * price + 0.5 * step * (1.0 + price)
  {
    hide RoundTo, Fits, QuantityFor, RoundedQuantityFor;
    QuantityIs(p, amount, target, price, atr, q);
    RoundedNearFor(AtRisk(p, amount), StopDistance(p, atr), amount / target as real, price, step);
    assert RoundedQuantity(p, amount, target, price, atr, step).Ok? by { RoundedOk(p, amount, target, price, atr, step); }
  }

  lemma RoundedOk(p: Params, amount: real, target: int, price: real, atr: real, step: real)
    requires step > 0.0
    ensures RoundedQuantity(p, amount, target, price, atr, step).Ok? <==> target != 0 && price != 0.0
  {
    hide RoundTo;
  }
}
