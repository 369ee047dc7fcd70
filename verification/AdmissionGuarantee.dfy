/** Which accepted commands can never trip the final cash check: an admitted hold is really funded. */
module AdmissionGuarantee {
  import opened Core
  import opened Model
  import opened Transitions
  import opened Frames
  import opened Runs
  import opened Lifecycle
  import opened Conservation
  import opened Books
  import opened Receivables

  ghost function MarginHeld(s: State): int { Total(MarginReserved(s.margin)) + Total(MarginOccupied(s.margin)) }

  /** What every reachable account satisfies, plus non-negative margin totals (the margin producer's part). */
  ghost predicate Funded(s: State) {
    WellHeld(s) && ClaimsKnown(s) && Validate(s) == None && MarginHeld(s) >= 0
  }

  lemma {:induction false} HeldAmountsNonnegative(s: State)
    requires WellHeld(s) && ClaimsKnown(s)
    ensures Reserved(s) >= 0 && Unsettled(s) >= 0
  {
    TotalNonnegative(Remaining(s.reservations));
    TotalNonnegative(s.receivables);
  }

  /** With every hold and claim non-negative, a non-negative withdrawable amount is all that the check needs. */
  lemma {:induction false} WithdrawableSuffices(s: State)
    requires WellHeld(s) && ClaimsKnown(s) && MarginHeld(s) >= 0 && Withdrawable(s) >= 0
    ensures Validate(s) == None <==> s.marketValue >= 0
  {
    HeldAmountsNonnegative(s);
    assert forall k :: k in s.reservations ==> WellFormed(s.reservations[k]);
  }

  lemma {:induction false} RecordFigures(c: Command, e: Effect)
    ensures Withdrawable(Record(c, e)) == Withdrawable(e.state) && Record(c, e).marketValue == e.state.marketValue
    ensures Record(c, e).cash == e.state.cash && MarginHeld(Record(c, e)) == MarginHeld(e.state)
  {
    RecordFrame(c, e);
    HoldFigures(e.state, Record(c, e));
  }

  // ----- effect of each kind on the withdrawable amount -----

  /** A purchase frees at least what it pays: its hold shrinks by the gross debit, cash by the net one. */
  lemma {:induction false} FillKeepsWithdrawable(s: State, n: State, t: TradeFact)
    requires FillMoves(s, n, t) && t.side == Buy && t.trade !in s.receivables
    requires t.notional.coef >= 0 && t.charges.coef >= 0 && t.rebates.coef >= 0
    ensures Available(n) >= Available(s) + t.rebates.coef && Withdrawable(n) >= Withdrawable(s)
  {
    FillTotals(s, n, t);
    TotalUpdate(s.receivables, t.trade, Credit(t));
  }

  lemma {:induction false} HoldFigures(s: State, t: State)
    requires SameMoney(s, t) && SameClaims(s, t) && SameMargin(s, t)
    ensures Withdrawable(t) == Withdrawable(s) + Reserved(s) - Reserved(t)
  {
  }

  lemma {:induction false} CashFigures(s: State, p: nat, c: CashFact)
    requires CashStep(s, p, c).Ok?
    ensures var t := CashStep(s, p, c).value;
            Withdrawable(t) == Withdrawable(s) + t.cash - s.cash
            && (t.cash >= s.cash || s.cash - t.cash <= Withdrawable(s))
  {
    CashFrame(s, p, c);
    match c.kind
    case Deposit =>
    case _ =>
  }

  lemma {:induction false} SettleFigures(s: State, p: nat, f: SettleFact)
    requires SettleStep(s, p, f).Ok?
    ensures Withdrawable(SettleStep(s, p, f).value) == Withdrawable(s) + Nonnegative(f.amount, p).value
  {
    TotalUpdate(s.receivables, f.sourceTrade, s.receivables[f.sourceTrade] - Nonnegative(f.amount, p).value);
  }

  /** The kinds that can never make the account short once their own guards pass. */
  predicate NeverShort(q: Payload) {
    q.Reserve? || q.Stage? || q.Release? || q.Settle? || q.CashChange? || q.Broker? || q.Valuation?
  }

  /** Neither of the two amounts that a guarded command could overdraw is negative. */
  ghost predicate Covered(s: State) { Withdrawable(s) >= 0 && s.marketValue >= 0 }

  lemma {:induction false} ReserveCovered(s: State, p: nat, h: ReserveFact)
    requires Covered(s) && ReserveStep(s, p, h).Ok?
    ensures Covered(ReserveStep(s, p, h).value)
  {
    ReserveFrame(s, p, h);
    ReserveTotals(s, p, h);
    HoldFigures(s, ReserveStep(s, p, h).value);
  }

  lemma {:induction false} StageCovered(s: State, id: Id, k: StageKind)
    requires Covered(s) && StageStep(s, id, k).Ok?
    ensures Covered(StageStep(s, id, k).value)
  {
    StageFrame(s, id, k);
    StageTotals(s, id, k);
    HoldFigures(s, StageStep(s, id, k).value);
  }

  lemma {:induction false} ReleaseCovered(s: State, id: Id, k: Closing)
    requires WellHeld(s) && Covered(s) && ReleaseStep(s, id, k).Ok?
    ensures Covered(ReleaseStep(s, id, k).value.state)
  {
    assert WellFormed(s.reservations[id]);
    ReleaseFrame(s, id, k);
    ReleaseTotals(s, id, k);
    HoldFigures(s, ReleaseStep(s, id, k).value.state);
  }

  lemma {:induction false} SettleCovered(s: State, p: nat, f: SettleFact)
    requires Covered(s) && SettleStep(s, p, f).Ok?
    ensures Covered(SettleStep(s, p, f).value)
  {
    SettleFrame(s, p, f);
    SettleFigures(s, p, f);
  }

  lemma {:induction false} CashCovered(s: State, p: nat, c: CashFact)
    requires Covered(s) && CashStep(s, p, c).Ok?
    ensures Covered(CashStep(s, p, c).value)
  {
    CashFrame(s, p, c);
    CashFigures(s, p, c);
  }

  lemma {:induction false} BrokerCovered(s: State, p: nat, o: BrokerFact, time: int)
    requires Covered(s) && BrokerStep(s, p, o, time).Ok?
    ensures Covered(BrokerStep(s, p, o, time).value.state)
  {
    BrokerFrame(s, p, o, time);
  }

  lemma {:induction false} ValuationCovered(u: Setup, s: State, position: Json, i: Intent, time: int)
    requires Covered(s) && ValuationStep(u, s, position, i, time).Ok?
    ensures Covered(ValuationStep(u, s, position, i, time).value)
  {
    ValuationFrame(u, s, position, i, time);
  }

  lemma {:induction false} SafeKindsStayCovered(u: Setup, s: State, b: Body, e: Effect)
    requires WellHeld(s) && Covered(s) && Transition(u, s, b) == Ok(e) && NeverShort(b.payload)
    ensures Covered(e.state)
  {
    var p := u.config.precision;
    match b.payload
    case Reserve(h) => ReserveCovered(s, p, h);
    case Stage(id, k) => StageCovered(s, id, k);
    case Release(id, k) => ReleaseCovered(s, id, k);
    case Settle(f) => SettleCovered(s, p, f);
    case CashChange(c) => CashCovered(s, p, c);
    case Broker(o) => BrokerCovered(s, p, o, b.time);
    case Valuation(position, i) => ValuationCovered(u, s, position, i, b.time);
  }

  /** Fresh content on a funded account: the claims and holds after it are still well kept. */
  ghost predicate Fresh(u: Setup, s: State, c: Command, e: Effect) {
    && Normalize(c, u.config.precision) == Ok(c)
    && !Known(s, c.body)
    && Transition(u, s, c.body) == Ok(e)
  }

  /** Claims of trades that are known, or are made known with them. */
  lemma {:induction false} ClaimsFrom(s: State, t: State, claimed: set<Identity>)
    requires ClaimsKnown(s) && forall a | a in s.semantic || a in claimed :: a in t.semantic
    requires forall k | k in t.receivables ::
               t.receivables[k] >= 0 && (k in s.receivables || Identity(TradeFamily, k) in claimed)
    ensures ClaimsKnown(t)
  {
  }

  lemma {:induction false} RecordedClaims(s: State, c: Command, e: Effect)
    requires ClaimsKnown(s) && e.state.semantic == s.semantic
    requires forall t | t in e.state.receivables ::
               e.state.receivables[t] >= 0
               && (t in s.receivables || Identity(TradeFamily, t) in Aliases(c.body.payload))
    ensures ClaimsKnown(Record(c, e))
  {
    RecordWrites(c, e);
    RecordFrame(c, e);
    ClaimsFrom(s, Record(c, e), Aliases(c.body.payload));
  }

  lemma {:induction false} FreshClaims(u: Setup, s: State, c: Command, e: Effect)
    requires ClaimsKnown(s) && Fresh(u, s, c, e)
    ensures ClaimsKnown(Record(c, e))
  {
    TransitionFrame(u, s, c.body);
    if c.body.payload.Trade? {
      FreshTrade(u, s, c, e);
    } else if c.body.payload.Settle? {
      SettleShrinks(s, u.config.precision, c.body.payload.settlement);
    }
    RecordedClaims(s, c, e);
  }

  lemma {:induction false} FreshTrade(u: Setup, s: State, c: Command, e: Effect)
    requires ClaimsKnown(s) && Fresh(u, s, c, e) && c.body.payload.Trade?
    ensures c.body.payload.fill.trade !in s.receivables
    ensures Identity(TradeFamily, c.body.payload.fill.trade) in Aliases(c.body.payload)
    ensures forall t :: t in e.state.receivables ==>
              e.state.receivables[t] >= 0 && (t in s.receivables || t == c.body.payload.fill.trade)
  {
    var f, p := c.body.payload.fill, u.config.precision;
    assert Identity(TradeFamily, f.trade) in Aliases(c.body.payload);
    CommandFill(c, p);
    TradeFrame(s, p, f, c.body.time);
    if e.status == Applied { FillShape(s, p, f, c.body.time, e); }
  }

  lemma {:induction false} SettleShrinks(s: State, p: nat, f: SettleFact)
    requires SettleStep(s, p, f).Ok? && ClaimsKnown(s)
    ensures forall t :: t in SettleStep(s, p, f).value.receivables ==>
              t in s.receivables && SettleStep(s, p, f).value.receivables[t] >= 0
  {
  }

  /** A fresh in-order purchase that fits its hold never lowers the withdrawable amount, so the final check
      accepts it exactly when the position's market value stays non-negative. */
  lemma {:induction false} FundedPurchase(u: Setup, s: State, c: Command, e: Effect)
    requires Funded(s) && Fresh(u, s, c, e)
    requires c.body.payload.Trade? && c.body.payload.fill.side == Buy && e.status == Applied
    ensures Withdrawable(Record(c, e)) >= Withdrawable(s) && Record(c, e).cash >= 0
    ensures Validate(Record(c, e)) == None <==> Record(c, e).marketValue >= 0
  {
    var f, p := c.body.payload.fill, u.config.precision;
    CommandFill(c, p);
    FreshTrade(u, s, c, e);
    FillShape(s, p, f, c.body.time, e);
    FillKeepsWithdrawable(s, e.state, f);
    TradeFrame(s, p, f, c.body.time);
    Solvent(u, s, c, e);
  }

  lemma {:induction false} FreshHolds(u: Setup, s: State, c: Command, e: Effect)
    requires WellHeld(s) && Fresh(u, s, c, e)
    ensures WellHeld(Record(c, e))
  {
    if c.body.payload.Trade? { CommandFill(c, u.config.precision); }
    TransitionKeeps(u, s, c.body, e);
    RecordFrame(c, e);
    SameHolds(e.state, Record(c, e));
  }

  lemma {:induction false} Solvent(u: Setup, s: State, c: Command, e: Effect)
    requires Funded(s) && Fresh(u, s, c, e) && Withdrawable(e.state) >= 0 && SameMargin(s, e.state)
    ensures Withdrawable(Record(c, e)) == Withdrawable(e.state) && Record(c, e).cash >= 0
    ensures Validate(Record(c, e)) == None <==> Record(c, e).marketValue >= 0
  {
    FreshHolds(u, s, c, e);
    FreshClaims(u, s, c, e);
    RecordFigures(c, e);
    WithdrawableSuffices(Record(c, e));
    HeldAmountsNonnegative(Record(c, e));
  }

  /** Reserving, staging, releasing, settling, deposits, withdrawals, broker observations and valuations pass the
      final check whenever their own guards do. */
  lemma {:induction false} SafeKindsPass(u: Setup, s: State, c: Command, e: Effect)
    requires Funded(s) && Fresh(u, s, c, e) && NeverShort(c.body.payload)
    ensures Validate(Record(c, e)) == None
  {
    SafeKindsStayCovered(u, s, c.body, e);
    TransitionFrame(u, s, c.body);
    Solvent(u, s, c, e);
    RecordFigures(c, e);
  }

  // ----- every reachable account is funded -----

  /** The margin producer's contract: it never reports a negative amount. */
  ghost predicate MarginSound(u: Setup) {
    forall proof, owner :: u.margin(proof, owner).Ok? ==>
      u.margin(proof, owner).value.after.reserved >= 0 && u.margin(proof, owner).value.after.occupied >= 0
  }

  ghost predicate MarginRowsNonnegative(s: State) {
    forall k :: k in s.margin ==> s.margin[k].reserved >= 0 && s.margin[k].occupied >= 0
  }

  lemma {:induction false} MarginStepRows(u: Setup, s: State, proof: MarginProof)
    requires MarginSound(u) && MarginRowsNonnegative(s) && MarginStep(u, s, proof).Ok?
    ensures MarginRowsNonnegative(MarginStep(u, s, proof).value)
  {
    var row := u.margin(proof, s.marginOwner).value.after;
    assert MarginStep(u, s, proof).value.margin == s.margin[row.id := row];
  }

  lemma {:induction false} CommitMargin(u: Setup, s: State, c: Command, e: Effect)
    requires MarginSound(u) && MarginRowsNonnegative(s) && Commits(u, s, c, e)
    ensures MarginRowsNonnegative(Record(c, e))
  {
    RecordFrame(c, e);
    if !Known(s, c.body) {
      if c.body.payload.Margin? { MarginStepRows(u, s, c.body.payload.proof); } else { TransitionFrame(u, s, c.body); }
    }
  }

  lemma {:induction false} AdvanceMargin(u: Setup, r: Run, input: Command)
    requires MarginSound(u) && MarginRowsNonnegative(r.ledger.state)
    ensures MarginRowsNonnegative(Advance(u, r, input).ledger.state)
  {
    var c, e := AdvanceShape(u, r, input);
    if Advance(u, r, input) != r {
      GrowthCommits(u, r.ledger, c, e);
      CommitMargin(u, r.ledger.state, c, e);
    }
  }

  lemma {:induction false} EveryRunMargin(u: Setup, inputs: seq<Command>)
    requires MarginSound(u)
    ensures MarginRowsNonnegative(Execute(u, inputs).ledger.state)
  {
    if inputs != [] {
      var n := |inputs| - 1;
      EveryRunMargin(u, inputs[..n]);
      AdvanceMargin(u, Execute(u, inputs[..n]), inputs[n]);
    }
  }

  lemma {:induction false} EveryRunFunded(u: Setup, inputs: seq<Command>)
    requires MarginSound(u)
    ensures Funded(Execute(u, inputs).ledger.state)
  {
    var s := Execute(u, inputs).ledger.state;
    EveryRunWellHeld(u, inputs);
    EveryRunKept(u, inputs);
    EveryRunClaims(u, inputs, "");
    EveryRunMargin(u, inputs);
    TotalNonnegative(MarginReserved(s.margin));
    TotalNonnegative(MarginOccupied(s.margin));
  }
}
