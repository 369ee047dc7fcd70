/** Exact rational rounding to eight decimals, ties to even. */
module Rounding {
  import opened Core
  import opened Model

  /** `q` is the integer nearest to `x`, and the even one of two equally near. */
  predicate Nearest(q: int, x: real) {
    && -0.5 <= x - q as real <= 0.5
    && (x - q as real == 0.5 || x - q as real == -0.5 ==> q % 2 == 0)
  }

  function HalfEven(x: real): (q: int)
    ensures Nearest(q, x)
  {
    var low := x.Floor;
    var rest := x - low as real;
    if rest < 0.5 || (rest == 0.5 && low % 2 == 0) then low else low + 1
  }

  lemma {:induction false} NearestMonotone(q: int, x: real, r: int, y: real)
    requires Nearest(q, x) && Nearest(r, y) && x <= y
    ensures q <= r
  {
    assert q <= r + 1;
  }

  lemma {:induction false} NearestOnce(q: int, r: int, x: real)
    requires Nearest(q, x) && Nearest(r, x)
    ensures q == r
  {
    NearestMonotone(q, x, r, x);
    NearestMonotone(r, x, q, x);
  }

  lemma {:induction false} NearestNegated(q: int, x: real)
    requires Nearest(q, x)
    ensures Nearest(-q, -x)
  {
  }

  /** Rounding is determined by the value, monotone, odd, and off by at most half a unit. */
  lemma {:induction false} HalfEvenLaws(x: real, y: real, q: int)
    ensures Nearest(q, x) ==> q == HalfEven(x)
    ensures x <= y ==> HalfEven(x) <= HalfEven(y)
    ensures HalfEven(-x) == -HalfEven(x)
  {
    var a, b, c := HalfEven(x), HalfEven(y), HalfEven(-x);
    if Nearest(q, x) { NearestOnce(q, a, x); }
    if x <= y { NearestMonotone(a, x, b, y); }
    NearestNegated(a, x);
    NearestOnce(-a, c, -x);
  }

  // ----- powers of ten -----

  lemma {:induction false} ScaleStep(x: real, z: int)
    ensures Scale(x, z + 1) == 10.0 * Scale(x, z)
  {
  }

  lemma {:induction false} ScaleAdd(x: real, y: int, z: int)
    ensures Scale(Scale(x, y), z) == Scale(x, y + z)
    decreases if z < 0 then -z else z
  {
    if z > 0 {
      ScaleAdd(x, y, z - 1);
      ScaleStep(x, y + z - 1);
    } else if z < 0 {
      ScaleAdd(x, y, z + 1);
      ScaleStep(x, y + z);
    }
  }

  lemma {:induction false} ScalePositive(x: real, z: int)
    ensures Scale(x, z) > 0.0 <==> x > 0.0
    decreases if z < 0 then -z else z
  {
    if z > 0 { ScalePositive(x, z - 1); } else if z < 0 { ScalePositive(x, z + 1); }
  }

  lemma {:induction false} ScaleInteger(n: int, k: nat)
    ensures Scale(n as real, k) == Shift(n, k) as real
  {
    if k != 0 { ScaleInteger(n, k - 1); }
  }

  lemma {:induction false} EightDecimals(x: real)
    ensures Scale(x, 8) == 100000000.0 * x
  {
    assert Scale(x, 4) == 10000.0 * x by { assert Scale(x, 2) == 100.0 * x; }
    ScaleAdd(x, 4, 4);
    assert Scale(Scale(x, 4), 4) == 10000.0 * Scale(x, 4) by { assert Scale(Scale(x, 4), 2) == 100.0 * Scale(x, 4); }
  }

  lemma {:induction false} QuotientBy10(x: real, y: real)
    requires y > 0.0
    ensures (10.0 * x) / (10.0 * y) == x / y
  {
    var q := x / y;
    assert q * y == x;
    assert q * (10.0 * y) == 10.0 * x;
  }

  lemma {:induction false} QuotientScaled(x: real, y: real, z: int)
    requires y > 0.0
    ensures Scale(y, z) > 0.0 && Scale(x, z) / Scale(y, z) == x / y
    decreases if z < 0 then -z else z
  {
    ScalePositive(y, z);
    if z > 0 {
      ScalePositive(y, z - 1);
      QuotientScaled(x, y, z - 1);
      QuotientBy10(Scale(x, z - 1), Scale(y, z - 1));
    } else if z < 0 {
      ScalePositive(y, z + 1);
      QuotientScaled(x, y, z + 1);
      QuotientBy10(Scale(x, z), Scale(y, z));
      ScaleStep(x, z);
      ScaleStep(y, z);
    }
  }

  /** Writing a decimal at a finer scale keeps its value. */
  lemma {:induction false} Rescaled(d: Decimal, scale: int)
    requires d.scale <= scale
    ensures Scale(Shift(d.coef, scale - d.scale) as real, -scale) == Analytical(d)
  {
    ScaleInteger(d.coef, scale - d.scale);
    ScaleAdd(d.coef as real, scale - d.scale, -scale);
  }

  // ----- the ratio -----

  /** The quotient of two decimals in units of the eighth decimal. */
  ghost function Quotient(n: Decimal, d: Decimal): real
    requires d.coef > 0
  {
    ScalePositive(d.coef as real, -d.scale);
    Analytical(n) / Analytical(d) * 100000000.0
  }

  lemma {:induction false} TimesAfterDivide(x: real, y: real, k: real)
    requires y > 0.0
    ensures x / y * k == (k * x) / y
  {
    var q := x / y;
    assert q * y == x;
    assert (q * k) * y == k * x;
  }

  lemma {:induction false} UnitsOfQuotient(x: real, q: real, z: int)
    requires q > 0.0
    ensures Scale(x, z) / q * 100000000.0 == Scale(x, z + 8) / q
  {
    TimesAfterDivide(Scale(x, z), q, 100000000.0);
    EightDecimals(Scale(x, z));
    ScaleAdd(x, z, 8);
  }

  lemma {:induction false} ValueQuotient(n: Decimal, d: Decimal)
    requires d.coef > 0
    ensures Analytical(d) > 0.0
    ensures Analytical(n) / Analytical(d) == Scale(n.coef as real, d.scale - n.scale) / d.coef as real
  {
    var p, q := n.coef as real, d.coef as real;
    ScalePositive(q, -d.scale);
    QuotientScaled(Analytical(n), Analytical(d), d.scale);
    ScaleAdd(p, -n.scale, d.scale);
    ScaleAdd(q, -d.scale, d.scale);
  }

  lemma {:induction false} ShiftedQuotient(n: Decimal, d: Decimal)
    requires d.coef > 0
    ensures Quotient(n, d) == Scale(n.coef as real, 8 + d.scale - n.scale) / d.coef as real
  {
    ValueQuotient(n, d);
    UnitsOfQuotient(n.coef as real, d.coef as real, d.scale - n.scale);
  }

  /** Clearing the scales leaves the quotient of two integers. */
  lemma {:induction false} QuotientOfIntegers(n: Decimal, d: Decimal, a: int, b: int)
    requires d.coef > 0
    requires var shift := 8 + d.scale - n.scale;
             if shift >= 0 then a == Shift(n.coef, shift) && b == d.coef
             else a == n.coef && b == Shift(d.coef, -shift)
    ensures b > 0 && Quotient(n, d) == a as real / b as real
  {
    var shift := 8 + d.scale - n.scale;
    var p, q := n.coef as real, d.coef as real;
    ShiftedQuotient(n, d);
    if shift >= 0 {
      ScaleInteger(n.coef, shift);
    } else {
      QuotientScaled(Scale(p, shift), q, -shift);
      ScaleAdd(p, shift, -shift);
      ScaleInteger(d.coef, -shift);
    }
  }

  lemma {:induction false} PositiveProduct(a: real, b: real)
    requires a > 0.0 && b > 0.0
    ensures a * b > 0.0
  {
  }

  /** `q` is within half of `b` of `a / b`, with ties to even. */
  predicate Close(a: int, b: int, q: int) {
    && -b <= 2 * (a - q * b) <= b
    && (2 * (a - q * b) == b || 2 * (a - q * b) == -b ==> q % 2 == 0)
  }

  lemma {:induction false} CloseUp(a: int, b: int, low: int, rest: int)
    requires b > 0 && a == low * b + rest && 0 <= rest < b
    ensures Close(a, b, if rest * 2 > b || (rest * 2 == b && low % 2 != 0) then low + 1 else low)
  {
    assert (low + 1) * b == low * b + b;
  }

  lemma {:induction false} CloseNegated(a: int, b: int, q: int)
    requires Close(a, b, q)
    ensures Close(-a, b, -q)
  {
    assert (-q) * b == -(q * b);
  }

  lemma {:induction false} RoundedQuotient(a: int, b: int, q: int)
    requires b > 0 && Close(a, b, q)
    ensures Nearest(q, a as real / b as real)
  {
    var x := a as real / b as real;
    var r := a - q * b;
    assert (q * b) as real == q as real * b as real;
    assert x * b as real == a as real;
    assert (x - q as real) * b as real == r as real;
    Bounded(x - q as real, b, r);
  }

  lemma {:induction false} Bounded(y: real, b: int, r: int)
    requires b > 0 && y * b as real == r as real && -b <= 2 * r <= b
    ensures -0.5 <= y <= 0.5
    ensures y == 0.5 ==> 2 * r == b
    ensures y == -0.5 ==> 2 * r == -b
  {
    var z := b as real;
    if y > 0.5 { PositiveProduct(y - 0.5, z); }
    if y < -0.5 { PositiveProduct(-0.5 - y, z); }
  }

  lemma {:induction false} CloseIsHalfEven(n: Decimal, d: Decimal, a: int, b: int, q: int)
    requires d.coef > 0 && b > 0 && Quotient(n, d) == a as real / b as real && Close(a, b, q)
    ensures q == HalfEven(Quotient(n, d))
  {
    RoundedQuotient(a, b, q);
    HalfEvenLaws(a as real / b as real, 0.0, q);
  }

  lemma {:induction false} EuclideanParts(a: int, b: int)
    requires b > 0
    ensures a == (a / b) * b + a % b && 0 <= a % b < b
  {
  }

  /** The account's ratio: none for a non-positive divisor, otherwise the exact quotient rounded once. */
  method Ratio(n: Decimal, d: Decimal) returns (r: Option<int>)
    ensures r == if d.coef <= 0 then None else Some(HalfEven(Quotient(n, d)))
  {
    if d.coef <= 0 { return None; }
    var a, b := n.coef, d.coef;
    var shift := 8 + d.scale - n.scale;
    var power := Pow10(if shift >= 0 then shift else -shift);
    if shift >= 0 {
      ShiftIsProduct(a, shift);
      a := a * power;
    } else {
      ShiftIsProduct(b, -shift);
      b := b * power;
    }
    QuotientOfIntegers(n, d, a, b);
    ghost var whole := a;
    var negative := a < 0;
    if negative { a := -a; }
    EuclideanParts(a, b);
    CloseUp(a, b, a / b, a % b);
    var q := a / b;
    var twice := (a % b) * 2;
    if twice > b || (twice == b && q % 2 != 0) { q := q + 1; }
    if negative {
      CloseNegated(a, b, q);
      q := -q;
    }
    CloseIsHalfEven(n, d, whole, b, q);
    return Some(q);
  }
}
