/** Drawdown: one pass with a running peak finds the worst loss over all pairs of points. */
module Drawdown {
  import opened Core
  import opened Model
  import opened Rounding

  // ----- the projection of one equity against one peak -----

  /** Exact difference, written at the finer of the two scales. */
  function Minus(a: Decimal, b: Decimal): Decimal {
    var scale := Max(a.scale, b.scale);
    Decimal(Shift(a.coef, scale - a.scale) - Shift(b.coef, scale - b.scale), scale)
  }

  lemma {:induction false} ScaleDifference(x: real, y: real, z: int)
    ensures Scale(x - y, z) == Scale(x, z) - Scale(y, z)
    decreases if z < 0 then -z else z
  {
    if z > 0 { ScaleDifference(x, y, z - 1); } else if z < 0 { ScaleDifference(x, y, z + 1); }
  }

  lemma {:induction false} MinusExact(a: Decimal, b: Decimal)
    ensures Analytical(Minus(a, b)) == Analytical(a) - Analytical(b)
  {
    var scale := Max(a.scale, b.scale);
    var x, y := Shift(a.coef, scale - a.scale), Shift(b.coef, scale - b.scale);
    assert (x - y) as real == x as real - y as real;
    ScaleDifference(x as real, y as real, -scale);
    Rescaled(a, scale);
    Rescaled(b, scale);
  }

  /** The loss against a peak in units of the eighth decimal; undefined for a non-positive peak. */
  method EquityDrawdown(equity: Decimal, peak: Decimal) returns (r: Option<int>)
    ensures peak.coef <= 0 ==> r == None
    ensures peak.coef > 0 ==>
              Analytical(peak) > 0.0
              && r == Some(HalfEven((Analytical(equity) - Analytical(peak)) / Analytical(peak) * 100000000.0))
  {
    MinusExact(equity, peak);
    ScalePositive(peak.coef as real, -peak.scale);
    r := Ratio(Minus(equity, peak), peak);
  }

  // ----- the path -----

  /** Relative loss of `x` against `peak`, in units of the eighth decimal. */
  ghost function Loss(x: int, peak: int): real
    requires peak > 0
  {
    (x - peak) as real / peak as real * 100000000.0
  }

  lemma {:induction false} RatioIsLoss(x: int, peak: int, p: nat)
    requires peak > 0
    ensures Quotient(Decimal(x - peak, p), Decimal(peak, p)) == Loss(x, peak)
  {
    QuotientScaled((x - peak) as real, peak as real, 0 - p);
  }

  lemma {:induction false} NonnegativeFactor(x: real, c: real)
    requires c > 0.0 && x * c >= 0.0
    ensures x >= 0.0
  {
    if x < 0.0 { PositiveProduct(-x, c); }
  }

  lemma {:induction false} LargerDivisor(a: real, b: real, c: real)
    requires a >= 0.0 && 0.0 < c <= b
    ensures 0.0 <= a / b <= a / c
  {
    var p, q := a / b, a / c;
    assert p * b == a && q * c == a;
    NonnegativeFactor(p, b);
    assert p * (b - c) >= 0.0;
    assert (q - p) * c == p * (b - c);
    NonnegativeFactor(q - p, c);
  }

  lemma {:induction false} LossAsQuotient(x: int, p: int)
    requires p > 0
    ensures Loss(x, p) == (x as real / p as real - 1.0) * 100000000.0
  {
    var a, b := x as real, p as real;
    var s := (a - b) / b;
    assert s * b == a - b;
    assert (s + 1.0) * b == a;
    QuotientUnique(a, b, s + 1.0);
  }

  lemma {:induction false} QuotientUnique(a: real, b: real, q: real)
    requires b > 0.0 && q * b == a
    ensures a / b == q
  {
    var r := a / b;
    assert (r - q) * b == 0.0;
  }

  lemma {:induction false} HigherPeakLosesMore(x: int, q: int, p: int)
    requires x >= 0 && 0 < q <= p
    ensures Loss(x, p) <= Loss(x, q)
  {
    LossAsQuotient(x, p);
    LossAsQuotient(x, q);
    LargerDivisor(x as real, p as real, q as real);
  }

  lemma {:induction false} LossRange(x: int, p: int)
    requires x >= 0 && p > 0
    ensures Loss(x, p) >= -100000000.0
    ensures Loss(p, p) == 0.0
  {
    LossAsQuotient(x, p);
    LargerDivisor(x as real, p as real, p as real);
  }

  /** Points `j <= i` with a positive equity at `j`. */
  predicate Pair(e: seq<int>, i: int, j: int) { 0 <= j <= i < |e| && e[j] > 0 }

  ghost predicate Worst(e: seq<int>, i: int, j: int) {
    && Pair(e, i, j)
    && (forall i', j' :: Pair(e, i', j') ==> Loss(e[i], e[j]) <= Loss(e[i'], e[j']))
  }

  predicate IsPeak(e: seq<int>, peak: int) {
    peak in e && forall j :: 0 <= j < |e| ==> e[j] <= peak
  }

  /** The running values after a non-empty path of non-negative equities. */
  ghost predicate Tracks(e: seq<int>, peak: int, maximum: Option<int>) {
    && (forall k :: 0 <= k < |e| ==> e[k] >= 0)
    && IsPeak(e, peak)
    && (maximum.None? <==> peak <= 0)
    && (maximum.Some? ==> exists i, j :: Worst(e, i, j) && maximum.value == HalfEven(Loss(e[i], e[j])))
  }

  function NextMaximum(maximum: Option<int>, drawdown: Option<int>): Option<int> {
    if drawdown.None? then maximum
    else if maximum.None? then drawdown
    else Some(Min(maximum.value, drawdown.value))
  }

  ghost function DrawdownAt(x: int, peak: int): Option<int> {
    if peak <= 0 then None else Some(HalfEven(Loss(x, peak)))
  }

  lemma {:induction false} NewPairs(e: seq<int>, x: int, peak: int, i: int, j: int)
    requires x >= 0 && peak > 0 && IsPeak(e + [x], peak) && Pair(e + [x], i, j)
    ensures Pair(e, i, j) || (i == |e| && Loss(x, peak) <= Loss((e + [x])[i], (e + [x])[j]))
  {
    if i == |e| { HigherPeakLosesMore(x, (e + [x])[j], peak); }
  }

  lemma {:induction false} PeakGrows(e: seq<int>, x: int, peak: int)
    requires IsPeak(e, peak)
    ensures IsPeak(e + [x], Max(peak, x))
  {
    var n := e + [x];
    if x > peak { assert n[|e|] == x; } else {
      var j :| 0 <= j < |e| && e[j] == peak;
      assert n[j] == peak;
    }
  }

  lemma {:induction false} KeepsWorst(e: seq<int>, x: int, peak: int, i: int, j: int)
    requires Worst(e, i, j) && x >= 0 && peak > 0 && IsPeak(e + [x], peak) && Loss(e[i], e[j]) <= Loss(x, peak)
    ensures Worst(e + [x], i, j)
  {
    var n := e + [x];
    forall i', j' | Pair(n, i', j') ensures Loss(n[i], n[j]) <= Loss(n[i'], n[j']) {
      NewPairs(e, x, peak, i', j');
      if Pair(e, i', j') { assert n[i'] == e[i'] && n[j'] == e[j']; }
    }
  }

  lemma {:induction false} BecomesWorst(e: seq<int>, x: int, peak: int, i: int, j: int, k: int)
    requires x >= 0 && peak > 0 && IsPeak(e + [x], peak) && 0 <= k <= |e| && (e + [x])[k] == peak
    requires (forall a, b :: !Pair(e, a, b)) || (Worst(e, i, j) && Loss(x, peak) <= Loss(e[i], e[j]))
    ensures Worst(e + [x], |e|, k)
  {
    var n := e + [x];
    forall i', j' | Pair(n, i', j') ensures Loss(n[|e|], n[k]) <= Loss(n[i'], n[j']) {
      NewPairs(e, x, peak, i', j');
      if Pair(e, i', j') { assert n[i'] == e[i'] && n[j'] == e[j']; }
    }
  }

  /** One more point: taking its loss against the updated peak only is enough. */
  lemma {:induction false} TracksStep(e: seq<int>, x: int, peak: int, maximum: Option<int>)
    requires Tracks(e, peak, maximum) && x >= 0
    ensures var top := Max(peak, x);
            Tracks(e + [x], top, NextMaximum(maximum, DrawdownAt(x, top)))
  {
    var n, top := e + [x], Max(peak, x);
    PeakGrows(e, x, peak);
    if top > 0 {
      var d := HalfEven(Loss(x, top));
      var k :| 0 <= k < |n| && n[k] == top;
      if maximum.None? {
        assert forall a, b :: !Pair(e, a, b);
        BecomesWorst(e, x, top, 0, 0, k);
        assert Worst(n, |e|, k) && Some(d) == NextMaximum(maximum, Some(d));
      } else {
        var i, j :| Worst(e, i, j) && maximum.value == HalfEven(Loss(e[i], e[j]));
        HalfEvenLaws(Loss(e[i], e[j]), Loss(x, top), 0);
        HalfEvenLaws(Loss(x, top), Loss(e[i], e[j]), 0);
        if Loss(e[i], e[j]) <= Loss(x, top) {
          KeepsWorst(e, x, top, i, j);
          assert n[i] == e[i] && n[j] == e[j];
        } else {
          BecomesWorst(e, x, top, i, j, k);
        }
      }
    }
  }

  lemma {:induction false} TracksOne(x: int)
    requires x >= 0
    ensures Tracks([x], x, NextMaximum(None, DrawdownAt(x, x)))
  {
    if x > 0 {
      assert Pair([x], 0, 0);
      assert Worst([x], 0, 0);
    }
  }

  /** The single-pass maximum is the all-pairs minimum of rounded losses, equals the rounding of the exact minimum, and
      lies in [-1, 0]. */
  lemma {:induction false} TracksAllPairs(e: seq<int>, peak: int, maximum: Option<int>)
    requires Tracks(e, peak, maximum) && maximum.Some?
    ensures forall i, j :: Pair(e, i, j) ==> maximum.value <= HalfEven(Loss(e[i], e[j]))
    ensures exists i, j :: Worst(e, i, j) && maximum.value == HalfEven(Loss(e[i], e[j]))
    ensures -100000000 <= maximum.value <= 0
  {
    var i, j :| Worst(e, i, j) && maximum.value == HalfEven(Loss(e[i], e[j]));
    forall i', j' | Pair(e, i', j') ensures maximum.value <= HalfEven(Loss(e[i'], e[j'])) {
      HalfEvenLaws(Loss(e[i], e[j]), Loss(e[i'], e[j']), 0);
    }
    LossRange(e[i], e[j]);
    assert Pair(e, j, j);
    assert Loss(e[i], e[j]) <= Loss(e[j], e[j]);
    HalfEvenLaws(Loss(e[i], e[j]), 0.0, 0);
    HalfEvenLaws(-100000000.0, Loss(e[i], e[j]), -100000000);
    HalfEvenLaws(0.0, 0.0, 0);
  }
}
