/** Canonical amounts are worth what was written: normalisation changes how an amount is written, never its value. */
module Amounts {
  import opened Core
  import opened Model
  import opened Rounding

  /** The amount `n` is `d` in minor units of the currency. */
  ghost predicate InMinorUnits(n: Decimal, d: Decimal, p: nat) { n.scale == p && Analytical(n) == Analytical(d) }

  predicate Payable(d: Decimal, p: nat) { -64 <= d.scale <= p }

  /** An amount is refused exactly for more fractional digits than the currency has, or for an extreme exponent. */
  lemma {:induction false} MoneyMeans(d: Decimal, p: nat)
    ensures CanonicalMoney(d, p).Ok? <==> Payable(d, p)
    ensures CanonicalMoney(d, p).Ok? ==> InMinorUnits(CanonicalMoney(d, p).value, d, p)
    ensures Money(d, p).Ok? <==> Payable(d, p)
    ensures Money(d, p).Ok? ==> InMinorUnits(Decimal(Money(d, p).value, p), d, p)
  {
    if d.scale <= p { Rescaled(d, p); }
  }

  lemma {:induction false} StripKeeps(d: Decimal)
    ensures Analytical(Strip(d)) == Analytical(d)
    decreases if d.coef < 0 then -d.coef else d.coef
  {
    if d.coef == 0 {
      ScaleZero(-d.scale);
    } else if d.coef % 10 == 0 {
      StripKeeps(Decimal(d.coef / 10, d.scale - 1));
      var n := d.coef / 10;
      assert d.coef as real == 10.0 * n as real;
      ScaleStep(n as real, 0);
      ScaleAdd(n as real, 1, -d.scale);
    }
  }

  lemma {:induction false} ScaleZero(z: int)
    ensures Scale(0.0, z) == 0.0
    decreases if z < 0 then -z else z
  {
    if z > 0 { ScaleZero(z - 1); } else if z < 0 { ScaleZero(z + 1); }
  }

  lemma {:induction false} RescaleKeeps(d: Decimal, scale: int)
    requires d.scale <= scale
    ensures Analytical(Rescale(d, scale)) == Analytical(d)
  {
    Rescaled(d, scale);
  }

  /** An analytical value is rewritten without changing it. */
  lemma {:induction false} AnalyticalRecordMeans(d: Decimal, p: nat)
    ensures Analytical(AnalyticalRecord(d, p)) == Analytical(d)
    ensures AnalyticalRecord(d, p).scale >= p
    ensures AnalyticalRecord(d, p).scale > p ==> AnalyticalRecord(d, p).coef % 10 != 0
  {
    var n := Strip(d);
    StripKeeps(d);
    StripStripped(d);
    RescaleKeeps(n, Max(n.scale, p));
  }

  // ----- whole commands -----

  ghost predicate FillKept(t: TradeFact, n: TradeFact, p: nat) {
    && n == t.(notional := n.notional, charges := n.charges, rebates := n.rebates,
               realizedPnlDelta := n.realizedPnlDelta, marketValueDelta := n.marketValueDelta,
               unrealizedPnl := n.unrealizedPnl, roundingAdjustment := n.roundingAdjustment)
    && InMinorUnits(n.notional, t.notional, p) && InMinorUnits(n.charges, t.charges, p)
    && InMinorUnits(n.rebates, t.rebates, p) && InMinorUnits(n.marketValueDelta, t.marketValueDelta, p)
    && Analytical(n.realizedPnlDelta) == Analytical(t.realizedPnlDelta)
    && Analytical(n.unrealizedPnl) == Analytical(t.unrealizedPnl)
    && Analytical(n.roundingAdjustment) == Analytical(t.roundingAdjustment)
  }

  ghost predicate ObservationKept(b: BrokerFact, n: BrokerFact, p: nat) {
    && n == b.(cash := n.cash, reserved := n.reserved, tradeAvailable := n.tradeAvailable,
               withdrawable := n.withdrawable, equity := n.equity)
    && InMinorUnits(n.cash, b.cash, p) && InMinorUnits(n.reserved, b.reserved, p)
    && InMinorUnits(n.tradeAvailable, b.tradeAvailable, p) && InMinorUnits(n.withdrawable, b.withdrawable, p)
    && InMinorUnits(n.equity, b.equity, p)
  }

  /** Every amount keeps its value, and every other field is the same. */
  ghost predicate PayloadKept(q: Payload, n: Payload, p: nat) {
    match q
    case CashChange(x) =>
      n.CashChange? && n.cash == x.(amount := n.cash.amount) && InMinorUnits(n.cash.amount, x.amount, p)
    case Economic(x) =>
      n.Economic? && n.flow == x.(amount := n.flow.amount) && InMinorUnits(n.flow.amount, x.amount, p)
    case Reserve(x) =>
      n.Reserve? && n.hold == x.(amount := n.hold.amount) && InMinorUnits(n.hold.amount, x.amount, p)
    case Settle(x) =>
      n.Settle? && n.settlement == x.(amount := n.settlement.amount)
      && InMinorUnits(n.settlement.amount, x.amount, p)
    case Trade(t) => n.Trade? && FillKept(t, n.fill, p)
    case Broker(b) => n.Broker? && ObservationKept(b, n.observation, p)
    case _ => n == q
  }

  /** The amounts of a payload that the currency must be able to express; those of a fill must not be negative. */
  predicate Expressible(q: Payload, p: nat) {
    match q
    case CashChange(x) => Payable(x.amount, p)
    case Economic(x) => Payable(x.amount, p)
    case Reserve(x) => Payable(x.amount, p)
    case Settle(x) => Payable(x.amount, p)
    case Trade(t) =>
      && Payable(t.notional, p) && Payable(t.charges, p) && Payable(t.rebates, p) && Payable(t.marketValueDelta, p)
      && t.notional.coef >= 0 && t.charges.coef >= 0 && t.rebates.coef >= 0
    case Broker(b) =>
      && Payable(b.cash, p) && Payable(b.reserved, p) && Payable(b.tradeAvailable, p) && Payable(b.withdrawable, p)
      && Payable(b.equity, p)
    case _ => true
  }

  lemma {:induction false} ShiftSign(n: int, k: nat)
    ensures Shift(n, k) < 0 <==> n < 0
  {
    if k != 0 { ShiftSign(n, k - 1); }
  }

  lemma {:induction false} MoneySign(d: Decimal, p: nat)
    requires CanonicalMoney(d, p).Ok?
    ensures CanonicalMoney(d, p).value.coef < 0 <==> d.coef < 0
  {
    ShiftSign(d.coef, p - d.scale);
  }

  lemma {:induction false} FillMeans(t: TradeFact, p: nat)
    ensures NormalizeTrade(t, p).Ok? <==> Expressible(Trade(t), p)
    ensures NormalizeTrade(t, p).Ok? ==> FillKept(t, NormalizeTrade(t, p).value, p)
  {
    MoneyMeans(t.notional, p);
    MoneyMeans(t.charges, p);
    MoneyMeans(t.rebates, p);
    MoneyMeans(t.marketValueDelta, p);
    AnalyticalRecordMeans(t.realizedPnlDelta, p);
    AnalyticalRecordMeans(t.unrealizedPnl, p);
    AnalyticalRecordMeans(t.roundingAdjustment, p);
    if Payable(t.notional, p) && Payable(t.charges, p) && Payable(t.rebates, p) {
      MoneySign(t.notional, p);
      MoneySign(t.charges, p);
      MoneySign(t.rebates, p);
    }
  }

  lemma {:induction false} ObservationMeans(b: BrokerFact, p: nat)
    ensures NormalizeBroker(b, p).Ok? <==> Expressible(Broker(b), p)
    ensures NormalizeBroker(b, p).Ok? ==> ObservationKept(b, NormalizeBroker(b, p).value, p)
  {
    MoneyMeans(b.cash, p);
    MoneyMeans(b.reserved, p);
    MoneyMeans(b.tradeAvailable, p);
    MoneyMeans(b.withdrawable, p);
    MoneyMeans(b.equity, p);
  }

  /** A command is refused by normalisation exactly when an amount cannot be expressed; otherwise its canonical form
      says the same. */
  lemma {:induction false} NormalizeMeans(c: Command, p: nat)
    ensures Normalize(c, p).Ok? <==> Expressible(c.body.payload, p)
    ensures Normalize(c, p).Ok? ==>
              var n := Normalize(c, p).value;
              && n.id == c.id && n.body == c.body.(payload := n.body.payload)
              && PayloadKept(c.body.payload, n.body.payload, p)
  {
    match c.body.payload
    case CashChange(x) => MoneyMeans(x.amount, p);
    case Economic(x) => MoneyMeans(x.amount, p);
    case Reserve(x) => MoneyMeans(x.amount, p);
    case Settle(x) => MoneyMeans(x.amount, p);
    case Trade(t) => FillMeans(t, p);
    case Broker(b) => ObservationMeans(b, p);
    case _ =>
  }
}
