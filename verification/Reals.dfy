/** The few nonlinear facts about reals the money and indicator proofs rest on. */
module Reals {
  lemma MulDiv(x: real, y: real)
    requires y != 0.0
    ensures x / y * y == x
  {}

  lemma MulSum(x: real, y: real, z: real)
    ensures (x + y) * z == x * z + y * z
  {}

  lemma MulMono(x: real, y: real, z: real)
    requires x <= y && z >= 0.0
    ensures x * z <= y * z
  {}

  lemma MulStrict(x: real, y: real, z: real)
    requires x < y && z > 0.0
    ensures x * z < y * z
  {}

  // Scaling by a positive factor keeps the order both ways.
  lemma MulOrder(x: real, y: real, z: real)
    requires z > 0.0
    ensures x * z <= y * z <==> x <= y
  {
    if x <= y { MulMono(x, y, z); } else { MulStrict(y, x, z); }
  }

  lemma CancelLeq(x: real, y: real, z: real)
    requires z > 0.0 && x * z <= y * z
    ensures x <= y
  {
    if x > y { MulStrict(y, x, z); }
  }

  lemma Cancel(x: real, y: real, z: real)
    requires z > 0.0 && x * z == y * z
    ensures x == y
  {
    CancelLeq(x, y, z);
    CancelLeq(y, x, z);
  }

  lemma Quotient(x: real, z: real)
    requires z > 0.0 && x >= 0.0
    ensures x / z >= 0.0 && (x / z == 0.0 <==> x == 0.0)
  {
    var q := x / z;
    assert q * z == x;
    CancelLeq(0.0, q, z);
  }

  // Below a quotient, in products: at most x / d for a positive d, and for a negative d the other way round.
  lemma AtMostQuotient(q: real, x: real, d: real)
    requires d != 0.0
    ensures d > 0.0 ==> (q <= x / d <==> q * d <= x)
    ensures d < 0.0 ==> (q <= x / d <==> q * d >= x)
  {
    var r := x / d;
    MulDiv(x, d);
    if d > 0.0 {
      MulOrder(q, r, d);
    } else {
      MulOrder(q, r, -d);
      assert q * -d == -(q * d) && r * -d == -(r * d);
    }
  }

  // A quotient is the one factor that gives the dividend.
  lemma QuotientIs(q: real, x: real, d: real)
    requires d != 0.0
    ensures q == x / d <==> q * d == x
  {
    var r := x / d;
    MulDiv(x, d);
    if q * d == x {
      if d > 0.0 { Cancel(q, r, d); } else {
        assert q * -d == -(q * d) && r * -d == -(r * d);
        Cancel(q, r, -d);
      }
    }
  }

  lemma QuotientSign(x: real, d: real)
    requires x >= 0.0 && d < 0.0
    ensures x / d <= 0.0
  {
    var q := x / d;
    assert q * d == x;
    assert q > 0.0 ==> q * d < 0.0;
  }

  lemma Part(d: real, m: real)
    requires d >= 0.0 && 0.0 <= m <= 1.0
    ensures 0.0 <= d * m <= d
  {
    MulMono(0.0, d, m);
    var rest := 1.0 - m;
    MulMono(0.0, d, rest);
    assert d * rest == d - d * m;
  }

  // From x towards y by a fraction m of the way.
  function Toward(x: real, y: real, m: real): real { (y - x) * m + x }

  lemma TowardUp(x: real, y: real, m: real)
    requires x <= y && 0.0 <= m <= 1.0
    ensures x <= Toward(x, y, m) <= y
  {
    var d := y - x;
    Part(d, m);
    assert Toward(x, y, m) == x + d * m;
  }

  lemma TowardDown(x: real, y: real, m: real)
    requires y <= x && 0.0 <= m <= 1.0
    ensures y <= Toward(x, y, m) <= x
  {
    var d := x - y;
    Part(d, m);
    assert Toward(x, y, m) == x - d * m;
  }

  lemma Between(x: real, y: real, m: real, lo: real, hi: real)
    requires lo <= x <= hi && lo <= y <= hi && 0.0 <= m <= 1.0
    ensures lo <= Toward(x, y, m) <= hi
  {
    hide Toward;
    if x <= y { TowardUp(x, y, m); } else { TowardDown(x, y, m); }
  }

  // ---- sums and multiples ----

  function Sum(xs: seq<real>): real {
    if xs == [] then 0.0 else Sum(xs[..|xs| - 1]) + xs[|xs| - 1]
  }

  // n copies of x added up.
  function Times(n: nat, x: real): real { n as real * x }

  lemma TimesZero(x: real)
    ensures Times(0, x) == 0.0
  {}

  lemma TimesNext(n: nat, x: real)
    requires n > 0
    ensures Times(n, x) == Times(n - 1, x) + x
  {}
}
