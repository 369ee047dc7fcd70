/** What each kind of command leaves alone. */
module Frames {
  import opened Core
  import opened Model
  import opened Transitions

  /** Receipts, identities, counters and trade evidence are written only when a command is recorded. */
  predicate SameBooks(s: State, t: State) {
    && t.receipts == s.receipts && t.semantic == s.semantic && t.sequence == s.sequence && t.now == s.now
    && t.positionTrades == s.positionTrades
  }

  predicate SameHoldings(s: State, t: State) { t.reservations == s.reservations }
  predicate SameMoney(s: State, t: State) { t.cash == s.cash && t.fees == s.fees }
  predicate SameClaims(s: State, t: State) { t.receivables == s.receivables }
  predicate SameMargin(s: State, t: State) { t.margin == s.margin && t.marginOwner == s.marginOwner }
  predicate SameVerdict(s: State, t: State) { t.flags == s.flags && t.differences == s.differences }

  /** A step that touches nothing but the holds. */
  ghost predicate HoldsOnly(s: State, t: State) {
    && SameBooks(s, t) && SameMoney(s, t) && SameClaims(s, t) && SameMargin(s, t) && SameVerdict(s, t)
    && t.marketValue == s.marketValue
  }

  lemma {:induction false} WithHolds(s: State, rs: map<Id, Reservation>)
    ensures HoldsOnly(s, s.(reservations := rs))
  {
  }

  lemma {:induction false} ReserveFrame(s: State, p: nat, h: ReserveFact)
    requires ReserveStep(s, p, h).Ok?
    ensures HoldsOnly(s, ReserveStep(s, p, h).value)
  {
    WithHolds(s, ReserveStep(s, p, h).value.reservations);
  }

  lemma {:induction false} StageFrame(s: State, id: Id, k: StageKind)
    requires StageStep(s, id, k).Ok?
    ensures HoldsOnly(s, StageStep(s, id, k).value)
  {
    WithHolds(s, StageStep(s, id, k).value.reservations);
  }

  lemma {:induction false} ReleaseFrame(s: State, id: Id, k: Closing)
    requires ReleaseStep(s, id, k).Ok?
    ensures HoldsOnly(s, ReleaseStep(s, id, k).value.state)
  {
    WithHolds(s, ReleaseStep(s, id, k).value.state.reservations);
    WithHolds(s, s.reservations);
  }

  lemma {:induction false} ConsumeFrame(s: State, t: TradeFact, debit: int)
    requires ConsumeStep(s, t, debit).Ok?
    ensures var v := ConsumeStep(s, t, debit).value;
            v == s.(reservations := v.reservations)
  {
  }

  lemma {:induction false} CashLegFrame(s: State, p: nat, t: TradeFact)
    requires CashLeg(s, p, t).Ok?
    ensures var v := CashLeg(s, p, t).value.state;
            && v == s.(cash := v.cash, fees := v.fees, reservations := v.reservations)
            && (t.side == Sell ==> v.reservations == s.reservations)
  {
    var notional, charges := Nonnegative(t.notional, p).value, Nonnegative(t.charges, p).value;
    if t.side == Buy { ConsumeFrame(s, t, notional + charges); }
  }

  lemma {:induction false} TradeFrame(s: State, p: nat, t: TradeFact, time: int)
    requires TradeStep(s, p, t, time).Ok?
    ensures var e := TradeStep(s, p, t, time).value;
            && SameBooks(s, e.state) && SameMargin(s, e.state) && e.state.differences == s.differences
            && (e.status == Stale ==> e.state == s.(flags := s.flags + {StaleTrade}))
            && (e.status != Stale ==> e.status == Applied && e.state.flags == s.flags)
            && (t.side == Sell ==> SameHoldings(s, e.state))
  {
    if !(NotAfter(t.sequence, s.tradeSequence) || Before(time, s.now)) { CashLegFrame(s, p, t); }
  }

  /** The cash credit that an applied fill books; negative for a purchase unless rebates outweigh it. */
  function Credit(t: TradeFact): int {
    var fee := t.charges.coef - t.rebates.coef;
    if t.side == Buy then -(t.notional.coef + fee) else t.notional.coef - fee
  }

  /** What a canonical fill moves: cash by its credit, its own hold by notional and gross charges, nobody else's. */
  ghost predicate FillMoves(s: State, n: State, t: TradeFact) {
    && n.cash == s.cash + Credit(t)
    && n.fees == s.fees + t.charges.coef - t.rebates.coef
    && n.marketValue == s.marketValue + t.marketValueDelta.coef
    && n.receivables == (if !t.cashWithdrawable && Credit(t) > 0 then s.receivables[t.trade := Credit(t)]
                         else s.receivables)
    && SameMargin(s, n)
    && (t.side == Sell ==> n.reservations == s.reservations)
    && (t.side == Buy ==> HoldMoves(s.reservations, n.reservations, t))
  }

  ghost predicate HoldMoves(rs: map<Id, Reservation>, ns: map<Id, Reservation>, t: TradeFact) {
    && t.reservation.Some? && t.reservation.value in rs
    && var r, debit := rs[t.reservation.value], t.notional.coef + t.charges.coef;
       && t.order == r.order && r.remaining != 0
       && debit <= r.remaining && (!t.terminalFill ==> debit < r.remaining)
       && ns == rs[t.reservation.value := ConsumeReservation(r, debit, t.terminalFill)]
  }

  predicate CanonicalFill(t: TradeFact, p: nat) {
    && Nonnegative(t.notional, p) == Ok(t.notional.coef)
    && Nonnegative(t.charges, p) == Ok(t.charges.coef)
    && Nonnegative(t.rebates, p) == Ok(t.rebates.coef)
    && Money(t.marketValueDelta, p) == Ok(t.marketValueDelta.coef)
    && t.notional.coef >= 0 && t.charges.coef >= 0 && t.rebates.coef >= 0
  }

  lemma {:induction false} LegMoves(s: State, p: nat, t: TradeFact)
    requires CashLeg(s, p, t).Ok? && CanonicalFill(t, p)
    ensures var leg := CashLeg(s, p, t).value;
            && leg.credit == Credit(t) && leg.state.cash == s.cash + Credit(t)
            && leg.state.fees == s.fees + t.charges.coef - t.rebates.coef
            && (t.side == Sell ==> leg.state.reservations == s.reservations)
            && (t.side == Buy ==> HoldMoves(s.reservations, leg.state.reservations, t))
  {
    var fee := t.charges.coef - t.rebates.coef;
    if t.side == Buy {
      assert CashLeg(s, p, t) == BuyLeg(s, t, t.notional.coef, t.charges.coef, fee);
    } else {
      assert CashLeg(s, p, t) == SellLeg(s, t, t.notional.coef, fee);
    }
  }

  lemma {:induction false} FillShape(s: State, p: nat, t: TradeFact, time: int, e: Effect)
    requires TradeStep(s, p, t, time) == Ok(e) && e.status == Applied && CanonicalFill(t, p)
    ensures FillMoves(s, e.state, t)
  {
    LegMoves(s, p, t);
    CashLegFrame(s, p, t);
    var leg := CashLeg(s, p, t).value;
    assert e.state == BookFill(leg.state, t, leg.credit, t.marketValueDelta.coef);
  }

  lemma {:induction false} CommandFill(c: Command, p: nat)
    requires Normalize(c, p) == Ok(c) && c.body.payload.Trade?
    ensures CanonicalFill(c.body.payload.fill, p)
  {
    CanonicalTrade(c, p);
  }

  lemma {:induction false} CashFrame(s: State, p: nat, c: CashFact)
    requires CashStep(s, p, c).Ok?
    ensures var t := CashStep(s, p, c).value;
            && SameBooks(s, t) && SameHoldings(s, t) && SameClaims(s, t) && SameMargin(s, t) && SameVerdict(s, t)
            && t.fees == s.fees && t.marketValue == s.marketValue
  {
    match c.kind
    case Deposit =>
    case _ =>
  }

  lemma {:induction false} EconomicFrame(s: State, p: nat, f: EconomicFact)
    requires EconomicStep(s, p, f).Ok?
    ensures var t := EconomicStep(s, p, f).value;
            && SameBooks(s, t) && SameHoldings(s, t) && SameClaims(s, t) && SameMargin(s, t) && SameVerdict(s, t)
            && t.fees == s.fees && t.marketValue == s.marketValue
            && t.cash == s.cash + Money(f.amount, p).value
  {
    match f.kind
    case Funding =>
    case _ =>
  }

  lemma {:induction false} SettleFrame(s: State, p: nat, f: SettleFact)
    requires SettleStep(s, p, f).Ok?
    ensures var t := SettleStep(s, p, f).value;
            t == s.(receivables := t.receivables, economicVersion := t.economicVersion)
  {
  }

  lemma {:induction false} ValuationFrame(u: Setup, s: State, position: Json, i: Intent, time: int)
    requires ValuationStep(u, s, position, i, time).Ok?
    ensures var t := ValuationStep(u, s, position, i, time).value;
            && t == s.(marketValue := t.marketValue, unrealized := t.unrealized,
                       valuationVersion := t.valuationVersion, positionEvidence := t.positionEvidence)
            && t.marketValue >= 0
  {
  }

  lemma {:induction false} MarginFrame(u: Setup, s: State, proof: MarginProof)
    requires MarginStep(u, s, proof).Ok?
    ensures var t := MarginStep(u, s, proof).value;
            t == s.(margin := t.margin, marginOwner := t.marginOwner, economicVersion := t.economicVersion)
  {
  }

  lemma {:induction false} ObservedFrame(s: State, p: nat, b: BrokerFact)
    ensures var t := Observed(s, p, b);
            t == s.(brokerSequence := t.brokerSequence, broker := t.broker,
                    differences := t.differences, flags := t.flags)
  {
  }

  lemma {:induction false} BrokerFrame(s: State, p: nat, b: BrokerFact, time: int)
    requires BrokerStep(s, p, b, time).Ok?
    ensures var t := BrokerStep(s, p, b, time).value.state;
            t == s.(brokerSequence := t.brokerSequence, broker := t.broker,
                    differences := t.differences, flags := t.flags)
  {
    ObservedFrame(s, p, b);
  }

  /** Recording touches the books only. */
  lemma {:induction false} RecordFrame(c: Command, e: Effect)
    ensures var t := Record(c, e);
            && SameHoldings(e.state, t) && SameMoney(e.state, t) && SameClaims(e.state, t) && SameMargin(e.state, t)
            && SameVerdict(e.state, t) && t.marketValue == e.state.marketValue
            && t.economicVersion == e.state.economicVersion
  {
  }

  predicate MovesHolds(q: Payload) { q.Reserve? || q.Stage? || q.Release? || (q.Trade? && q.fill.side == Buy) }

  /** What a command of the given kind leaves alone, and how it can be answered. */
  ghost predicate Framed(q: Payload, s: State, e: Effect) {
    && SameBooks(s, e.state)
    && (!MovesHolds(q) ==> SameHoldings(s, e.state))
    && (!q.Trade? && !q.Broker? ==> SameVerdict(s, e.state))
    && (!q.Trade? && !q.Settle? ==> SameClaims(s, e.state))
    && (!q.Margin? ==> SameMargin(s, e.state))
    && (!q.Trade? && !q.CashChange? && !q.Economic? ==> SameMoney(s, e.state))
    && (!q.Release? ==> e.status != Duplicate)
    && e.status != Conflict
    && (!q.Trade? && !q.Broker? ==> e.status != Stale)
  }

  lemma {:induction false} HoldsFramed(q: Payload, s: State, e: Effect)
    requires q.Reserve? || q.Stage? || q.Release?
    requires HoldsOnly(s, e.state) && (e.status == Applied || (q.Release? && e.status == Duplicate))
    ensures Framed(q, s, e)
  {
  }

  lemma {:induction false} TradeFramed(s: State, p: nat, t: TradeFact, time: int)
    requires TradeStep(s, p, t, time).Ok?
    ensures Framed(Trade(t), s, TradeStep(s, p, t, time).value)
  {
    TradeFrame(s, p, t, time);
  }

  lemma {:induction false} BrokerFramed(s: State, p: nat, b: BrokerFact, time: int)
    requires BrokerStep(s, p, b, time).Ok?
    ensures Framed(Broker(b), s, BrokerStep(s, p, b, time).value)
  {
    BrokerFrame(s, p, b, time);
  }

  lemma {:induction false} MoneyFramed(u: Setup, s: State, b: Body)
    requires b.payload.CashChange? || b.payload.Economic? || b.payload.Settle?
    requires Transition(u, s, b).Ok?
    ensures Framed(b.payload, s, Transition(u, s, b).value)
  {
    match b.payload
    case CashChange(c) => CashFrame(s, u.config.precision, c);
    case Economic(f) => EconomicFrame(s, u.config.precision, f);
    case Settle(f) => SettleFrame(s, u.config.precision, f);
  }

  lemma {:induction false} ProducedFramed(u: Setup, s: State, b: Body)
    requires b.payload.Margin? || b.payload.Valuation?
    requires Transition(u, s, b).Ok?
    ensures Framed(b.payload, s, Transition(u, s, b).value)
  {
    match b.payload
    case Margin(proof) => MarginFrame(u, s, proof);
    case Valuation(position, i) => ValuationFrame(u, s, position, i, b.time);
  }

  lemma {:induction false} TransitionFrame(u: Setup, s: State, b: Body)
    requires Transition(u, s, b).Ok?
    ensures Framed(b.payload, s, Transition(u, s, b).value)
  {
    var p, e := u.config.precision, Transition(u, s, b).value;
    match b.payload
    case Reserve(h) =>
      ReserveFrame(s, p, h);
      HoldsFramed(b.payload, s, e);
    case Stage(id, k) =>
      StageFrame(s, id, k);
      HoldsFramed(b.payload, s, e);
    case Release(id, k) =>
      ReleaseFrame(s, id, k);
      HoldsFramed(b.payload, s, e);
    case Trade(t) => TradeFramed(s, p, t, b.time);
    case Broker(o) => BrokerFramed(s, p, o, b.time);
    case Margin(_) => ProducedFramed(u, s, b);
    case Valuation(_, _) => ProducedFramed(u, s, b);
    case _ => MoneyFramed(u, s, b);
  }
}
