/** Conservation over whole runs: cash, fees, consumed holds and deferred credits, summed over what was applied. */
module Conservation {
  import opened Core
  import opened Model
  import opened Transitions
  import opened Frames
  import opened Runs

  // ----- what an entry moved, in minor units -----

  predicate Moved(x: Entry) { x.status == Applied }
  predicate Bought(x: Entry) {
    Moved(x) && x.command.body.payload.Trade? && x.command.body.payload.fill.side == Buy
  }
  predicate Sold(x: Entry) {
    Moved(x) && x.command.body.payload.Trade? && x.command.body.payload.fill.side == Sell
  }
  predicate Changed(x: Entry, k: CashKind) {
    Moved(x) && x.command.body.payload.CashChange? && x.command.body.payload.cash.kind == k
  }

  function Deposited(x: Entry): int { if Changed(x, Deposit) then x.command.body.payload.cash.amount.coef else 0 }
  function Withdrawn(x: Entry): int { if Changed(x, Withdrawal) then x.command.body.payload.cash.amount.coef else 0 }
  function EconomicAmount(x: Entry): int {
    if Moved(x) && x.command.body.payload.Economic? then x.command.body.payload.flow.amount.coef else 0
  }
  function BuyNotional(x: Entry): int { if Bought(x) then x.command.body.payload.fill.notional.coef else 0 }
  function BuyCharges(x: Entry): int { if Bought(x) then x.command.body.payload.fill.charges.coef else 0 }
  function SellNotional(x: Entry): int { if Sold(x) then x.command.body.payload.fill.notional.coef else 0 }
  function Fees(x: Entry): int {
    if Bought(x) || Sold(x)
    then x.command.body.payload.fill.charges.coef - x.command.body.payload.fill.rebates.coef
    else 0
  }

  /** What trading and economic events earned, leaving external money out. */
  function Earned(x: Entry): int { EconomicAmount(x) + SellNotional(x) - BuyNotional(x) - Fees(x) }
  function External(x: Entry): int { Deposited(x) - Withdrawn(x) }

  /** The change that one entry makes to the three sums. */
  ghost predicate Balances(s: State, t: State, x: Entry) {
    && t.cash == s.cash + External(x) + Earned(x)
    && t.fees == s.fees + Fees(x)
    && Total(Consumed(t.reservations)) == Total(Consumed(s.reservations)) + BuyNotional(x) + BuyCharges(x)
  }

  lemma {:induction false} CanonicalAmount(c: Command, p: nat)
    requires Normalize(c, p) == Ok(c)
    ensures c.body.payload.CashChange? ==> Money(c.body.payload.cash.amount, p) == Ok(c.body.payload.cash.amount.coef)
    ensures c.body.payload.Economic? ==> Money(c.body.payload.flow.amount, p) == Ok(c.body.payload.flow.amount.coef)
    ensures c.body.payload.Settle? ==>
              Money(c.body.payload.settlement.amount, p) == Ok(c.body.payload.settlement.amount.coef)
  {
    match c.body.payload
    case CashChange(x) => MoneyCanonical(x.amount, p);
    case Economic(x) => MoneyCanonical(x.amount, p);
    case Settle(x) => MoneyCanonical(x.amount, p);
    case _ =>
  }

  lemma {:induction false} FillTotals(s: State, n: State, t: TradeFact)
    requires FillMoves(s, n, t)
    ensures Total(Consumed(n.reservations)) == Total(Consumed(s.reservations))
              + (if t.side == Buy then t.notional.coef + t.charges.coef else 0)
    ensures t.side == Buy ==> Reserved(n) <= Reserved(s) - (t.notional.coef + t.charges.coef)
  {
    if t.side == Buy {
      var id := t.reservation.value;
      RemainingUpdate(s.reservations, id,
                      ConsumeReservation(s.reservations[id], t.notional.coef + t.charges.coef, t.terminalFill));
    }
  }

  lemma {:induction false} ReserveTotals(s: State, p: nat, h: ReserveFact)
    requires ReserveStep(s, p, h).Ok?
    ensures var t := ReserveStep(s, p, h).value;
            && Total(Consumed(t.reservations)) == Total(Consumed(s.reservations))
            && Reserved(t) == Reserved(s) + Nonnegative(h.amount, p).value
  {
    RemainingUpdate(s.reservations, h.reservation, ReserveStep(s, p, h).value.reservations[h.reservation]);
  }

  lemma {:induction false} StageTotals(s: State, id: Id, k: StageKind)
    requires StageStep(s, id, k).Ok?
    ensures var t := StageStep(s, id, k).value;
            && Total(Consumed(t.reservations)) == Total(Consumed(s.reservations))
            && Reserved(t) == Reserved(s)
  {
    RemainingUpdate(s.reservations, id, StageReservation(s.reservations[id], k).value);
  }

  lemma {:induction false} ReleaseTotals(s: State, id: Id, k: Closing)
    requires ReleaseStep(s, id, k).Ok?
    ensures var t := ReleaseStep(s, id, k).value.state;
            && Total(Consumed(t.reservations)) == Total(Consumed(s.reservations))
            && (s.reservations[id].remaining >= 0 ==> Reserved(t) <= Reserved(s))
  {
    if s.reservations[id].terminal.None? {
      RemainingUpdate(s.reservations, id, CloseReservation(s.reservations[id], k).value);
    }
  }

  /** Reserving, staging and releasing consume nothing. */
  lemma {:induction false} HoldsConsumeNothing(u: Setup, s: State, b: Body, e: Effect)
    requires Transition(u, s, b) == Ok(e) && !b.payload.Trade?
    ensures Total(Consumed(e.state.reservations)) == Total(Consumed(s.reservations))
  {
    match b.payload
    case Reserve(h) => ReserveTotals(s, u.config.precision, h);
    case Stage(id, k) => StageTotals(s, id, k);
    case Release(id, k) => ReleaseTotals(s, id, k);
    case _ => TransitionFrame(u, s, b);
  }

  lemma {:induction false} CashMoves(s: State, p: nat, c: CashFact)
    requires CashStep(s, p, c).Ok? && Money(c.amount, p) == Ok(c.amount.coef)
    ensures CashStep(s, p, c).value.cash
         == s.cash + (if c.kind == Deposit then c.amount.coef else 0)
                   - (if c.kind == Withdrawal then c.amount.coef else 0)
    ensures CashStep(s, p, c).value.fees == s.fees
  {
    match c.kind
    case Deposit =>
    case _ =>
  }

  /** An applied fill, seen from the sums. */
  lemma {:induction false} FillBalances(s: State, t: State, c: Command)
    requires c.body.payload.Trade? && FillMoves(s, t, c.body.payload.fill)
    ensures Balances(s, t, Entry(c, Applied))
  {
    FillTotals(s, t, c.body.payload.fill);
  }

  /** An entry that moves neither cash nor fees nor holds. */
  lemma {:induction false} StillBalances(s: State, t: State, x: Entry)
    requires t.cash == s.cash && t.fees == s.fees
    requires Total(Consumed(t.reservations)) == Total(Consumed(s.reservations))
    requires !Moved(x) || !(x.command.body.payload.Trade? || x.command.body.payload.CashChange?
                            || x.command.body.payload.Economic?)
    ensures Balances(s, t, x)
  {
  }

  lemma {:induction false} TradeBalances(u: Setup, s: State, c: Command, e: Effect)
    requires Normalize(c, u.config.precision) == Ok(c) && c.body.payload.Trade?
    requires TradeStep(s, u.config.precision, c.body.payload.fill, c.body.time) == Ok(e)
    ensures Balances(s, e.state, Entry(c, e.status))
  {
    var p, f := u.config.precision, c.body.payload.fill;
    CommandFill(c, p);
    TradeFrame(s, p, f, c.body.time);
    if e.status == Applied {
      FillShape(s, p, f, c.body.time, e);
      FillBalances(s, e.state, c);
    } else {
      StillBalances(s, e.state, Entry(c, e.status));
    }
  }

  lemma {:induction false} CashBalances(u: Setup, s: State, c: Command, t: State)
    requires Normalize(c, u.config.precision) == Ok(c) && c.body.payload.CashChange?
    requires CashStep(s, u.config.precision, c.body.payload.cash) == Ok(t)
    requires Total(Consumed(t.reservations)) == Total(Consumed(s.reservations))
    ensures Balances(s, t, Entry(c, Applied))
  {
    CanonicalAmount(c, u.config.precision);
    CashMoves(s, u.config.precision, c.body.payload.cash);
  }

  lemma {:induction false} EconomicBalances(u: Setup, s: State, c: Command, t: State)
    requires Normalize(c, u.config.precision) == Ok(c) && c.body.payload.Economic?
    requires EconomicStep(s, u.config.precision, c.body.payload.flow) == Ok(t)
    requires Total(Consumed(t.reservations)) == Total(Consumed(s.reservations))
    ensures Balances(s, t, Entry(c, Applied))
  {
    CanonicalAmount(c, u.config.precision);
    EconomicFrame(s, u.config.precision, c.body.payload.flow);
  }

  lemma {:induction false} TransitionBalances(u: Setup, s: State, c: Command, e: Effect)
    requires Normalize(c, u.config.precision) == Ok(c) && Transition(u, s, c.body) == Ok(e)
    ensures Balances(s, e.state, Entry(c, e.status))
  {
    if c.body.payload.Trade? {
      TradeBalances(u, s, c, e);
    } else {
      HoldsConsumeNothing(u, s, c.body, e);
      match c.body.payload
      case CashChange(f) => CashBalances(u, s, c, e.state);
      case Economic(f) => EconomicBalances(u, s, c, e.state);
      case _ =>
        TransitionFrame(u, s, c.body);
        StillBalances(s, e.state, Entry(c, e.status));
    }
  }

  lemma {:induction false} CommitBalances(u: Setup, s: State, c: Command, e: Effect)
    requires Commits(u, s, c, e)
    ensures Balances(s, Record(c, e), Entry(c, e.status))
  {
    if !Known(s, c.body) { TransitionBalances(u, s, c, e); }
  }

  ghost predicate Conserved(u: Setup, trace: seq<Entry>, s: State) {
    && s.cash == u.config.initialCash + Sum(trace, Deposited) - Sum(trace, Withdrawn) + Sum(trace, EconomicAmount)
                 + Sum(trace, SellNotional) - Sum(trace, BuyNotional) - Sum(trace, Fees)
    && s.fees == Sum(trace, Fees)
    && Total(Consumed(s.reservations)) == Sum(trace, BuyNotional) + Sum(trace, BuyCharges)
  }

  lemma {:induction false} ConservedGrows(u: Setup, trace: seq<Entry>, s: State, t: State, x: Entry)
    requires Conserved(u, trace, s) && Balances(s, t, x)
    ensures Conserved(u, trace + [x], t)
  {
    SumAppend(trace, x, Deposited);
    SumAppend(trace, x, Withdrawn);
    SumAppend(trace, x, EconomicAmount);
    SumAppend(trace, x, SellNotional);
    SumAppend(trace, x, BuyNotional);
    SumAppend(trace, x, BuyCharges);
    SumAppend(trace, x, Fees);
  }

  lemma {:induction false} AdvanceConserved(u: Setup, r: Run, input: Command)
    requires Conserved(u, r.trace, r.ledger.state)
    ensures var n := Advance(u, r, input); Conserved(u, n.trace, n.ledger.state)
  {
    var c, e := AdvanceShape(u, r, input);
    if Advance(u, r, input) != r {
      GrowthCommits(u, r.ledger, c, e);
      CommitBalances(u, r.ledger.state, c, e);
      ConservedGrows(u, r.trace, r.ledger.state, Record(c, e), Entry(c, e.status));
    }
  }

  lemma {:induction false} InitConserved(u: Setup)
    ensures Conserved(u, [], Init(u).state)
  {
    assert Consumed(Init(u).state.reservations) == map[];
  }

  /** Cash, fees and consumed holds of every reachable account are what its applied commands add up to. */
  lemma {:induction false} EveryRunConserved(u: Setup, inputs: seq<Command>)
    ensures var r := Execute(u, inputs); Conserved(u, r.trace, r.ledger.state)
  {
    if inputs == [] {
      InitConserved(u);
    } else {
      var n := |inputs| - 1;
      EveryRunConserved(u, inputs[..n]);
      AdvanceConserved(u, Execute(u, inputs[..n]), inputs[n]);
    }
  }
}
