/** What one command does to an account: the specification that the manager's methods are proved against. */
module Transitions {
  import opened Core
  import opened Model
  import opened Codec

  datatype Effect = Effect(state: State, status: Status)
  type Outcome = Result<Effect, Error>

  // ----- reservations -----

  ghost function ReserveStep(s: State, p: nat, h: ReserveFact): Result<State, Error> {
    var amount :- Nonnegative(h.amount, p);
    if s.flags != {} || amount <= 0 || amount > Withdrawable(s) then Err(ReserveBlockedOrInsufficient)
    else if h.reservation in s.reservations || OrderTaken(s, h.order) then Err(ReservationOrderConflict)
    else
      var r := Reservation(h.order, amount, 0, amount, 0, false, false, false, false, None);
      Ok(s.(reservations := s.reservations[h.reservation := r]))
  }

  ghost predicate OrderTaken(s: State, order: Id) {
    exists k :: k in s.reservations && s.reservations[k].order == order
  }

  function StageReservation(r: Reservation, k: StageKind): Result<Reservation, Error> {
    if r.remaining == 0 then Err(ReservationTerminal)
    else match k
      case SentToBroker => if r.sent then Err(StageRegression) else Ok(r.(sent := true))
      case SubmitUnknown => Ok(r.(sent := true, unknown := true))
      case BrokerAcknowledged => Ok(r.(sent := true, acknowledged := true, unknown := false))
      case CancelRequested => if !r.sent then Err(CancelBeforeSend) else Ok(r.(cancelPending := true))
      case OtherStage(_) => Err(StageInvalid)
  }

  function StageStep(s: State, id: Id, k: StageKind): Result<State, Error> {
    if id !in s.reservations then Err(ReservationUnknown)
    else
      var r :- StageReservation(s.reservations[id], k);
      Ok(s.(reservations := s.reservations[id := r]))
  }

  /** Release of a reservation that is still open. */
  function CloseReservation(r: Reservation, k: Closing): Result<Reservation, Error> {
    match k
    case UnknownOutcome => Ok(Settled(r.(sent := true, unknown := true, cancelPending := true), k))
    case NotSent =>
      if r.sent then Err(ReleaseOutcomeUnproven)
      else Ok(Settled(r.(released := r.released + r.remaining, remaining := 0), k))
    case Filled => Err(ReleaseOutcomeInvalid)
    case OtherOutcome(_) => Err(ReleaseOutcomeInvalid)
    case _ =>
      Ok(Settled(r.(released := r.released + r.remaining, remaining := 0, unknown := false, cancelPending := false), k))
  }

  function Settled(r: Reservation, k: Closing): Reservation {
    if r.remaining == 0 then r.(terminal := Some(k)) else r
  }

  function ReleaseStep(s: State, id: Id, k: Closing): Outcome {
    if id !in s.reservations then Err(ReservationUnknown)
    else if s.reservations[id].terminal.Some? then
      if s.reservations[id].terminal.value == k then Ok(Effect(s, Duplicate)) else Err(TerminalOutcomeConflict)
    else
      var r :- CloseReservation(s.reservations[id], k);
      Ok(Effect(s.(reservations := s.reservations[id := r]), Applied))
  }

  function ConsumeReservation(r: Reservation, debit: int, terminalFill: bool): Reservation {
    var used := r.(sent := true, remaining := r.remaining - debit, consumed := r.consumed + debit);
    if terminalFill
    then used.(released := used.released + used.remaining, remaining := 0, unknown := false, cancelPending := false,
               terminal := Some(Filled))
    else used
  }

  function ConsumeStep(s: State, t: TradeFact, debit: int): Result<State, Error> {
    if t.reservation.None? || t.reservation.value !in s.reservations then Err(BuyRequiresReservation)
    else
      var id := t.reservation.value;
      var r := s.reservations[id];
      if t.order != r.order || r.remaining == 0 then Err(ReservationScopeOrTerminal)
      else if debit > r.remaining || (!t.terminalFill && debit == r.remaining) then Err(ReservationInsufficient)
      else Ok(s.(reservations := s.reservations[id := ConsumeReservation(r, debit, t.terminalFill)]))
  }

  // ----- trades, cash and settlement -----

  predicate Before(t: int, now: Option<int>) { now.Some? && t < now.value }
  predicate NotAfter(sequence: nat, last: Option<nat>) { last.Some? && sequence <= last.value }

  datatype Leg = Leg(state: State, credit: int)

  /** A purchase pays notional and net fee, and consumes its hold by notional and gross charges. */
  function BuyLeg(s: State, t: TradeFact, notional: int, charges: int, fee: int): Result<Leg, Error> {
    if t.realizedPnlDelta.coef != 0 then Err(BuyRealizedPnl)
    else
      var held :- ConsumeStep(s, t, notional + charges);
      Ok(Leg(held.(cash := held.cash - (notional + fee), fees := held.fees + fee), -(notional + fee)))
  }

  function SellLeg(s: State, t: TradeFact, notional: int, fee: int): Result<Leg, Error> {
    if t.reservation.Some? then Err(SellCashReservation)
    else Ok(Leg(s.(cash := s.cash + (notional - fee), fees := s.fees + fee), notional - fee))
  }

  /** The cash leg of a fill: the state after it and the credit it books (negative for a purchase). */
  function CashLeg(s: State, p: nat, t: TradeFact): Result<Leg, Error> {
    var notional :- Nonnegative(t.notional, p);
    var charges :- Nonnegative(t.charges, p);
    var rebates :- Nonnegative(t.rebates, p);
    if t.side == Buy then BuyLeg(s, t, notional, charges, charges - rebates)
    else SellLeg(s, t, notional, charges - rebates)
  }

  /** What a paid fill books besides cash: a deferred credit becomes a receivable of its trade. */
  function BookFill(s: State, t: TradeFact, credit: int, delta: int): State {
    s.(receivables := if !t.cashWithdrawable && credit > 0 then s.receivables[t.trade := credit] else s.receivables,
       realized := s.realized + Analytical(t.realizedPnlDelta),
       marketValue := s.marketValue + delta,
       unrealized := Analytical(t.unrealizedPnl),
       roundingAdjustment := Analytical(t.roundingAdjustment),
       positionEvidence := Some(t.positionEvidence),
       tradeSequence := Some(t.sequence),
       economicVersion := s.economicVersion + 1)
  }

  function TradeStep(s: State, p: nat, t: TradeFact, time: int): Outcome {
    if NotAfter(t.sequence, s.tradeSequence) || Before(time, s.now)
    then Ok(Effect(s.(flags := s.flags + {StaleTrade}), Stale))
    else
      var leg :- CashLeg(s, p, t);
      var delta :- Money(t.marketValueDelta, p);
      Ok(Effect(BookFill(leg.state, t, leg.credit, delta), Applied))
  }

  function BookCash(s: State, amount: int): State {
    s.(cash := s.cash + amount, economicVersion := s.economicVersion + 1)
  }

  ghost function CashStep(s: State, p: nat, c: CashFact): Result<State, Error> {
    var amount :- Nonnegative(c.amount, p);
    match c.kind
    case Deposit => Ok(BookCash(s, amount))
    case Withdrawal =>
      if s.flags != {} || amount > Withdrawable(s) then Err(WithdrawalBlocked) else Ok(BookCash(s, -amount))
    case OtherCash(_) => Err(CashChangeKind)
  }

  function BookCashflow(s: State, amount: int, gain: real): State {
    s.(cash := s.cash + amount, economicVersion := s.economicVersion + 1, realized := s.realized + gain)
  }

  function EconomicStep(s: State, p: nat, e: EconomicFact): Result<State, Error> {
    var amount :- Money(e.amount, p);
    match e.kind
    case OtherEconomic(_) => Err(EconomicKindInvalid)
    case Funding => Ok(BookCashflow(s, amount, 0.0))
    case _ => Ok(BookCashflow(s, amount, Analytical(Decimal(amount, p))))
  }

  function SettleStep(s: State, p: nat, t: SettleFact): Result<State, Error> {
    var amount :- Nonnegative(t.amount, p);
    if t.sourceTrade !in s.receivables then Err(SettlementSourceUnknown)
    else if amount <= 0 || amount > s.receivables[t.sourceTrade] then Err(SettlementAmount)
    else
      Ok(s.(receivables := s.receivables[t.sourceTrade := s.receivables[t.sourceTrade] - amount],
            economicVersion := s.economicVersion + 1))
  }

  // ----- producers' effects -----

  function ValuationStep(u: Setup, s: State, position: Json, i: Intent, time: int): Result<State, Error> {
    var v :- u.value(position, i);
    if v.owner != u.config.owner || v.currency != u.config.currency then Err(ValuationOwner)
    else if v.configuration != u.config.positionConfiguration || v.trades != s.positionTrades
    then Err(ValuationSourceRelation)
    else if i.version <= s.valuationVersion || i.economicVersion != s.economicVersion || i.time != time
    then Err(ValuationBasis)
    else
      var marketValue :- Nonnegative(v.marketValue, u.config.precision);
      Ok(s.(marketValue := marketValue, unrealized := Analytical(v.unrealized), valuationVersion := i.version,
            positionEvidence := Some(i.positionEvidence)))
  }

  ghost function MarginStep(u: Setup, s: State, proof: MarginProof): Result<State, Error> {
    var e :- u.margin(proof, s.marginOwner);
    var row := e.after;
    if row.owner != u.config.owner then Err(MarginOwner)
    else if row.currency != u.config.currency then Err(MarginContext)
    else
      var before := if row.id in s.margin then Some(s.margin[row.id]) else None;
      if e.before != before then Err(MarginBefore)
      else if before.None? && s.flags != {} then Err(MarginAdmission)
      else if before.None? && row.reserved < 0 then Err(NegativeAmount)
      else if before.None? && row.reserved > Withdrawable(s) then Err(MarginAdmission)
      else
        Ok(s.(margin := s.margin[row.id := row], economicVersion := s.economicVersion + 1,
              marginOwner := Some(e.owner)))
  }

  // ----- broker reconciliation -----

  /** A figure, as observed and as the account has it. */
  datatype Row = Row(figure: Figure, observed: Decimal, own: Decimal)

  function Rows(
    b: BrokerFact, p: nat, cash: int, reserved: int, available: int, withdrawable: int, equity: int): seq<Row>
  {
    [Row(CashFigure, b.cash, Decimal(cash, p)), Row(ReservedFigure, b.reserved, Decimal(reserved, p)),
     Row(TradeAvailableFigure, b.tradeAvailable, Decimal(available, p)),
     Row(WithdrawableFigure, b.withdrawable, Decimal(withdrawable, p)), Row(EquityFigure, b.equity, Decimal(equity, p))]
  }

  /** The figures of the rows that disagree, in order. */
  function Disagreeing(rows: seq<Row>): seq<Figure> {
    if rows == [] then []
    else
      var n := |rows| - 1;
      Disagreeing(rows[..n]) + (if rows[n].observed != rows[n].own then [rows[n].figure] else [])
  }

  /** The figures on which a broker observation and the account disagree, in the order they are compared. */
  ghost function Differences(s: State, p: nat, b: BrokerFact): seq<Figure> {
    Disagreeing(Rows(b, p, s.cash, Reserved(s), Available(s), Withdrawable(s), Equity(s)))
  }

  function BrokerAmounts(b: BrokerFact, p: nat): Result<int, Error> {
    var _ :- Nonnegative(b.cash, p);
    var _ :- Nonnegative(b.reserved, p);
    var _ :- Nonnegative(b.tradeAvailable, p);
    var _ :- Nonnegative(b.withdrawable, p);
    Nonnegative(b.equity, p)
  }

  predicate Proven(s: State, b: BrokerFact) { b.quality == Verified && b.basisSequence == s.sequence }

  ghost function FlagsAfter(s: State, p: nat, b: BrokerFact): set<Flag> {
    if !Proven(s, b) then s.flags + {ProofUnavailable}
    else if Differences(s, p, b) == [] then s.flags - {ProofUnavailable} - {LocalConflict}
    else s.flags - {ProofUnavailable} + {LocalConflict}
  }

  /** The account after an observation in order: unproven, matching or differing. */
  ghost function Observed(s: State, p: nat, b: BrokerFact): State {
    s.(brokerSequence := Some(b.sequence), broker := Some(b),
       differences := if Proven(s, b) then Differences(s, p, b) else s.differences, flags := FlagsAfter(s, p, b))
  }

  ghost function BrokerStep(s: State, p: nat, b: BrokerFact, time: int): Outcome {
    var _ :- BrokerAmounts(b, p);
    if NotAfter(b.sequence, s.brokerSequence) || Before(time, s.now) then Ok(Effect(s, Stale))
    else Ok(Effect(Observed(s, p, b), Applied))
  }

  // ----- one command -----

  function Done(r: Result<State, Error>): Outcome {
    var s :- r;
    Ok(Effect(s, Applied))
  }

  ghost function Transition(u: Setup, s: State, b: Body): Outcome {
    var p := u.config.precision;
    if !b.payload.Trade? && !b.payload.Broker? && Before(b.time, s.now) then Err(TimeRegression)
    else match b.payload
      case Margin(proof) => Done(MarginStep(u, s, proof))
      case Reserve(h) => Done(ReserveStep(s, p, h))
      case Stage(id, k) => Done(StageStep(s, id, k))
      case Release(id, k) => ReleaseStep(s, id, k)
      case Trade(t) => TradeStep(s, p, t, b.time)
      case Broker(o) => BrokerStep(s, p, o, b.time)
      case CashChange(c) => Done(CashStep(s, p, c))
      case Economic(e) => Done(EconomicStep(s, p, e))
      case Settle(t) => Done(SettleStep(s, p, t))
      case Valuation(position, i) => Done(ValuationStep(u, s, position, i, b.time))
  }

  predicate Known(s: State, b: Body) { exists a :: a in Aliases(b.payload) && a in s.semantic }

  predicate Conflicting(s: State, b: Body) {
    exists a :: a in Aliases(b.payload) && a in s.semantic && s.semantic[a] != b
  }

  /** A command whose identities are all known with the same content is a redelivery and moves nothing. */
  ghost function Decide(u: Setup, s: State, b: Body): Outcome {
    if Known(s, b) then Ok(Effect(s, Duplicate)) else Transition(u, s, b)
  }

  function Later(now: Option<int>, t: int): Option<int> {
    if now.Some? then Some(Max(now.value, t)) else Some(t)
  }

  function PositionTradeOf(b: Body): PositionTrade
    requires b.payload.Trade?
  {
    var t := b.payload.fill;
    PositionTrade(t.positionEvidence, b.cause, b.time, t.order, t.execution, t.venueTrade, t.sequence)
  }

  /** An applied trade leaves its evidence. */
  function WithEvidence(s: State, c: Command, status: Status): State {
    if c.body.payload.Trade? && status == Applied
    then s.(positionTrades := s.positionTrades[c.body.payload.fill.trade := PositionTradeOf(c.body)])
    else s
  }

  /** The sequence and the clock move unless the command was a duplicate. */
  function Clocked(s: State, time: int, status: Status): State {
    if status != Duplicate then s.(sequence := s.sequence + 1, now := Later(s.now, time)) else s
  }

  function Ticked(c: Command, e: Effect): State {
    Clocked(WithEvidence(e.state, c, e.status), c.body.time, e.status)
  }

  /** Bookkeeping of an accepted command, ending with its receipt and its identities. */
  function Record(c: Command, e: Effect): State {
    var s := Ticked(c, e);
    s.(receipts := s.receipts[c.id := c], semantic := s.semantic + map a | a in Aliases(c.body.payload) :: c.body)
  }

  function Append(m: Ledger, c: Command, s: State): Ledger {
    Ledger(s, m.journal + [c],
           m.journalBytes + |Encode(CommandJson(c))| + (if m.journal == [] then 0 else 1))
  }

  ghost function Gates(u: Setup, m: Ledger, admission: bool): Option<Error> {
    if Validate(m.state).Some? then Validate(m.state)
    else if u.version == 5 && !ExpandedSizeFits(u, m.state, m.journalBytes) then Some(CheckpointBound)
    else if admission && !u.admissionFits(m.state) then Some(ResourceBound)
    else if admission && CheckpointOf(u, m).Err? then Some(CheckpointOf(u, m).error)
    else if admission && !u.checkpointFits(CheckpointOf(u, m).value) then Some(CheckpointBound)
    else None
  }

  datatype Reply = Reply(ledger: Ledger, status: Status)

  /** The answer of a command that is not run: known by its id, over the bound, or at odds with an identity. */
  function Screen(u: Setup, m: Ledger, c: Command): Option<Result<Status, Error>> {
    if c.id in m.state.receipts then Some(Ok(if m.state.receipts[c.id] == c then Duplicate else Conflict))
    else if Admission(c.body.payload) && !u.journalFits(m, c) then Some(Err(JournalBound))
    else if Conflicting(m.state, c.body) then Some(Ok(Conflict))
    else None
  }

  /** The ledger after a command with the given effect, if it passes the gates. */
  ghost function Proposed(u: Setup, m: Ledger, c: Command, e: Effect): Result<Reply, Error> {
    var next := Append(m, c, Record(c, e));
    var refusal := Gates(u, next, Admission(c.body.payload));
    if refusal.Some? then Err(refusal.value) else Ok(Reply(next, e.status))
  }

  /** Everything after normalisation. */
  ghost function Accept(u: Setup, m: Ledger, c: Command): Result<Reply, Error> {
    var answer := Screen(u, m, c);
    if answer.Some? then
      var status :- answer.value;
      Ok(Reply(m, status))
    else
      var e :- Decide(u, m.state, c.body);
      Proposed(u, m, c, e)
  }

  /** One command against one ledger: refused (nothing changes), answered, or appended to the journal. */
  ghost function Step(u: Setup, m: Ledger, input: Command): Result<Reply, Error> {
    if input.body.owner != u.config.owner then Err(ContextConflict)
    else
      var c :- Normalize(input, u.config.precision);
      Accept(u, m, c)
  }
}
