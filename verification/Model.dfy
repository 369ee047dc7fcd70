/** The account's records, its canonical amounts and the figures derived from its state. */
module Model {
  import opened Core

  type Id = string

  datatype Error =
    | ContextConflict | MoneyBoundOrPrecision | NegativeAmount | JournalBound | CheckpointBound | ResourceBound
    | TimeRegression | WithdrawalBlocked | CashChangeKind | EconomicKindInvalid
    | SettlementSourceUnknown | SettlementAmount
    | ValuationOwner | ValuationSourceRelation | ValuationBasis
    | BuyRealizedPnl | SellCashReservation
    | ReserveBlockedOrInsufficient | ReservationOrderConflict | ReservationUnknown | ReservationTerminal
    | StageRegression | CancelBeforeSend | StageInvalid
    | TerminalOutcomeConflict | ReleaseOutcomeUnproven | ReleaseOutcomeInvalid
    | BuyRequiresReservation | ReservationScopeOrTerminal | ReservationInsufficient
    | MarginOwner | MarginContext | MarginBefore | MarginAdmission
    | CashConservation | ReservationConservation
    | CheckpointSchema | CheckpointContext | CheckpointDigest | CheckpointState | CheckpointPrefix
    | PositionDigest | PositionReference | PositionConflict | UnusedPosition | FingerprintInvalid
    | ReplayReceipt | GenesisAfterSource | HistoryConflict | HistoryHead
    | Producer(code: string)

  // ----- records -----

  datatype Owner = Owner(engine: Id, runtime: Id, account: Id, gateway: Id, generation: Id)

  datatype Config = Config(owner: Owner, currency: Json, precision: nat, initialCash: nat, positionConfiguration: Id)

  datatype CashKind = Deposit | Withdrawal | OtherCash(text: string)
  datatype EconomicKind = RealizedPnl | VariationMargin | Funding | OtherEconomic(text: string)
  datatype Side = Buy | Sell
  datatype StageKind = SentToBroker | SubmitUnknown | BrokerAcknowledged | CancelRequested | OtherStage(text: string)
  datatype Closing =
    | UnknownOutcome | NotSent | Cancelled | Rejected | Expired | Failed | Filled | OtherOutcome(text: string)
  datatype Quality = Verified | Unavailable | UnknownQuality
  datatype MarginAction = ReserveMargin | OtherMargin(text: string)

  datatype CashFact = CashFact(change: Id, kind: CashKind, amount: Decimal, sourceFact: Id)
  datatype EconomicFact =
    EconomicFact(cashflow: Id, kind: EconomicKind, amount: Decimal, sourceFact: Id, instrument: Id)
  datatype ReserveFact = ReserveFact(reservation: Id, order: Id, amount: Decimal)
  datatype SettleFact = SettleFact(instruction: Id, sourceTrade: Id, amount: Decimal)
  datatype TradeFact = TradeFact(
    trade: Id, execution: Id, venueTrade: Id, order: Id, sequence: nat, side: Side, notional: Decimal,
    feeInstruction: Id, charges: Decimal, rebates: Decimal, realizedPnlDelta: Decimal, positionEvidence: Id,
    marketValueDelta: Decimal, unrealizedPnl: Decimal, roundingAdjustment: Decimal, reservation: Option<Id>,
    terminalFill: bool, cashWithdrawable: bool)
  datatype BrokerFact = BrokerFact(
    snapshot: Id, sequence: nat, basisSequence: nat, quality: Quality, cash: Decimal, reserved: Decimal,
    tradeAvailable: Decimal, withdrawable: Decimal, equity: Decimal)
  /** The margin command inside a proof, its members in canonical order around the two that the account reads. */
  datatype MarginCommand = MarginCommand(
    front: seq<(string, Json)>, action: MarginAction, middle: seq<(string, Json)>, id: Id, rest: seq<(string, Json)>)
  datatype MarginProof = MarginProof(
    config: Json, capacity: nat, beforeHash: Id, command: MarginCommand, afterHash: Id)
  datatype Intent = Intent(
    valuation: Id, version: nat, economicVersion: nat, positionEvidence: Id, time: int, marks: Json)

  datatype Payload =
    | CashChange(cash: CashFact)
    | Economic(flow: EconomicFact)
    | Reserve(hold: ReserveFact)
    | Stage(reservation: Id, stage: StageKind)
    | Release(reservation: Id, outcome: Closing)
    | Trade(fill: TradeFact)
    | Settle(settlement: SettleFact)
    | Margin(proof: MarginProof)
    | Valuation(position: Json, intent: Intent)
    | Broker(observation: BrokerFact)

  /** Everything in a command but its command id: the content that a semantic identity is bound to. */
  datatype Body = Body(owner: Owner, cause: Id, time: int, payload: Payload)
  datatype Command = Command(id: Id, body: Body)

  datatype Status = Applied | Duplicate | Conflict | Stale

  datatype Reservation = Reservation(
    order: Id, original: int, consumed: int, remaining: int, released: int,
    sent: bool, acknowledged: bool, unknown: bool, cancelPending: bool, terminal: Option<Closing>)

  datatype MarginRow = MarginRow(
    id: Id, owner: Owner, currency: Json, reserved: int, occupied: int, released: int, maintenance: int, rest: Json)

  datatype PositionTrade = PositionTrade(
    positionEvidence: Id, cause: Id, time: int, order: Id, execution: Id, venueTrade: Id, sequence: nat)

  datatype Flag = StaleTrade | ProofUnavailable | LocalConflict
  datatype Figure = CashFigure | ReservedFigure | TradeAvailableFigure | WithdrawableFigure | EquityFigure

  datatype Family =
    | TradeFamily | ExecutionFamily | VenueTradeFamily | FeeFamily | ReservationFamily | ChangeFamily
    | SourceFactFamily | CashflowFamily | MarginFamily | SettlementFamily | ValuationFamily | BrokerFamily
  datatype Identity = Identity(family: Family, id: Id)

  datatype State = State(
    cash: int, realized: real, roundingAdjustment: real, unrealized: real, fees: int, marketValue: int,
    reservations: map<Id, Reservation>, margin: map<Id, MarginRow>, marginOwner: Option<Json>,
    positionTrades: map<Id, PositionTrade>, receivables: map<Id, int>,
    receipts: map<Id, Command>, semantic: map<Identity, Body>,
    sequence: nat, economicVersion: nat, valuationVersion: nat,
    tradeSequence: Option<nat>, brokerSequence: Option<nat>, broker: Option<BrokerFact>,
    differences: seq<Figure>, flags: set<Flag>, now: Option<int>, positionEvidence: Option<Id>)

  /** The manager's whole value: state, journal of canonical commands, and the running byte count. */
  datatype Ledger = Ledger(state: State, journal: seq<Command>, journalBytes: nat)

  /** A journal entry as the dictionary format writes it: a valuation refers to its position body by digest. */
  datatype Encoded =
    | Plain(command: Command)
    | Compact(id: Id, owner: Owner, cause: Id, time: int, intent: Intent, positionRef: Id)

  /** A checkpoint record; the canonical bytes determine it and it determines them. */
  datatype Checkpoint =
    | Checkpoint4(config: Config, journal: seq<Command>, state: State)
    | Checkpoint5(config: Config, entries: seq<Encoded>, positions: map<Id, Json>, state: State)

  datatype MarginEffect = MarginEffect(before: Option<MarginRow>, after: MarginRow, owner: Json)
  datatype ValuationEffect = ValuationEffect(
    owner: Owner, currency: Json, configuration: Id, trades: map<Id, PositionTrade>,
    marketValue: Decimal, unrealized: Decimal)

  /** What stays fixed while a manager lives: its configuration and format, the margin and position producers it
      replays, the digest of a position body, the JSON forms that only matter by size, and the resource limits. */
  datatype Setup = Setup(
    config: Config, version: nat,
    margin: (MarginProof, Option<Json>) -> Result<MarginEffect, Error>,
    value: (Json, Intent) -> Result<ValuationEffect, Error>,
    digest: Json -> string,
    configJson: Config -> Json, stateJson: State -> Json,
    journalFits: (Ledger, Command) -> bool,
    admissionFits: State -> bool,
    checkpointFits: Checkpoint -> bool)

  // ----- amounts -----

  const MIN_SCALE := -64

  /** Minor units of an amount at the currency precision; more fractional digits than that are refused. */
  function Money(d: Decimal, p: nat): (r: Result<int, Error>) {
    if d.scale > p || d.scale < MIN_SCALE then Err(MoneyBoundOrPrecision) else Ok(Shift(d.coef, p - d.scale))
  }

  function Nonnegative(d: Decimal, p: nat): (r: Result<int, Error>) {
    var n :- Money(d, p);
    if n < 0 then Err(NegativeAmount) else Ok(n)
  }

  function Strip(d: Decimal): Decimal
    decreases if d.coef < 0 then -d.coef else d.coef
  {
    if d.coef == 0 then Decimal(0, 0)
    else if d.coef % 10 == 0 then Strip(Decimal(d.coef / 10, d.scale - 1))
    else d
  }

  function Rescale(d: Decimal, scale: int): Decimal
    requires d.scale <= scale
  {
    Decimal(Shift(d.coef, scale - d.scale), scale)
  }

  /** Canonical analytical value: no trailing zeros beyond the currency precision. */
  function AnalyticalRecord(d: Decimal, p: nat): Decimal {
    var n := Strip(d);
    Rescale(n, Max(n.scale, p))
  }

  /** The value of a decimal. */
  function Analytical(d: Decimal): real { Scale(d.coef as real, -d.scale) }

  function CanonicalMoney(d: Decimal, p: nat): Result<Decimal, Error> {
    var n :- Money(d, p);
    Ok(Decimal(n, p))
  }

  function NormalizeTrade(t: TradeFact, p: nat): Result<TradeFact, Error> {
    var notional :- CanonicalMoney(t.notional, p);
    var charges :- CanonicalMoney(t.charges, p);
    var rebates :- CanonicalMoney(t.rebates, p);
    var delta :- CanonicalMoney(t.marketValueDelta, p);
    if notional.coef < 0 || charges.coef < 0 || rebates.coef < 0 then Err(NegativeAmount)
    else
      Ok(t.(notional := notional, charges := charges, rebates := rebates, marketValueDelta := delta,
            realizedPnlDelta := AnalyticalRecord(t.realizedPnlDelta, p),
            unrealizedPnl := AnalyticalRecord(t.unrealizedPnl, p),
            roundingAdjustment := AnalyticalRecord(t.roundingAdjustment, p)))
  }

  function NormalizeBroker(b: BrokerFact, p: nat): Result<BrokerFact, Error> {
    var cash :- CanonicalMoney(b.cash, p);
    var reserved :- CanonicalMoney(b.reserved, p);
    var available :- CanonicalMoney(b.tradeAvailable, p);
    var withdrawable :- CanonicalMoney(b.withdrawable, p);
    var equity :- CanonicalMoney(b.equity, p);
    Ok(b.(cash := cash, reserved := reserved, tradeAvailable := available, withdrawable := withdrawable,
          equity := equity))
  }

  function NormalizePayload(q: Payload, p: nat): Result<Payload, Error> {
    match q
    case CashChange(c) =>
      var amount :- CanonicalMoney(c.amount, p);
      Ok(CashChange(c.(amount := amount)))
    case Economic(e) =>
      var amount :- CanonicalMoney(e.amount, p);
      Ok(Economic(e.(amount := amount)))
    case Reserve(h) =>
      var amount :- CanonicalMoney(h.amount, p);
      Ok(Reserve(h.(amount := amount)))
    case Settle(t) =>
      var amount :- CanonicalMoney(t.amount, p);
      Ok(Settle(t.(amount := amount)))
    case Trade(t) =>
      var fill :- NormalizeTrade(t, p);
      Ok(Trade(fill))
    case Broker(b) =>
      var observation :- NormalizeBroker(b, p);
      Ok(Broker(observation))
    case _ => Ok(q)
  }

  function Normalize(c: Command, p: nat): Result<Command, Error> {
    var payload :- NormalizePayload(c.body.payload, p);
    Ok(c.(body := c.body.(payload := payload)))
  }

  lemma {:induction false} MoneyCanonical(d: Decimal, p: nat)
    ensures CanonicalMoney(d, p).Ok? ==>
              && CanonicalMoney(d, p).value.scale == p
              && Money(CanonicalMoney(d, p).value, p) == Ok(CanonicalMoney(d, p).value.coef)
  {
  }

  predicate Stripped(d: Decimal) {
    if d.coef == 0 then d.scale == 0 else d.coef % 10 != 0
  }

  lemma {:induction false} StripStripped(d: Decimal)
    ensures Stripped(Strip(d))
    decreases if d.coef < 0 then -d.coef else d.coef
  {
    if d.coef != 0 && d.coef % 10 == 0 { StripStripped(Decimal(d.coef / 10, d.scale - 1)); }
  }

  lemma {:induction false} StripRescale(d: Decimal, extra: nat)
    requires Stripped(d)
    ensures Strip(Decimal(Shift(d.coef, extra), d.scale + extra)) == d
    decreases extra
  {
    ShiftZero(d.coef, extra);
    if d.coef != 0 && extra != 0 {
      var less := Shift(d.coef, extra - 1);
      assert Shift(d.coef, extra) == 10 * less && (10 * less) / 10 == less;
      StripRescale(d, extra - 1);
    }
  }

  lemma {:induction false} ShiftZero(n: int, k: nat)
    ensures Shift(n, k) == 0 <==> n == 0
  {
    if k != 0 { ShiftZero(n, k - 1); }
  }

  lemma {:induction false} AnalyticalRecordIdempotent(d: Decimal, p: nat)
    ensures AnalyticalRecord(AnalyticalRecord(d, p), p) == AnalyticalRecord(d, p)
  {
    var n := Strip(d);
    StripStripped(d);
    StripRescale(n, Max(n.scale, p) - n.scale);
  }

  /** Normalisation is a projection: a canonical command is its own normal form. */
  lemma {:induction false} NormalizeIdempotent(c: Command, p: nat)
    requires Normalize(c, p).Ok?
    ensures Normalize(Normalize(c, p).value, p) == Normalize(c, p)
  {
    match c.body.payload
    case CashChange(x) => MoneyCanonical(x.amount, p);
    case Economic(x) => MoneyCanonical(x.amount, p);
    case Reserve(x) => MoneyCanonical(x.amount, p);
    case Settle(x) => MoneyCanonical(x.amount, p);
    case Trade(t) => NormalizeTradeIdempotent(t, p);
    case Broker(b) =>
      MoneyCanonical(b.cash, p);
      MoneyCanonical(b.reserved, p);
      MoneyCanonical(b.tradeAvailable, p);
      MoneyCanonical(b.withdrawable, p);
      MoneyCanonical(b.equity, p);
    case _ =>
  }

  lemma {:induction false} NormalizeTradeIdempotent(t: TradeFact, p: nat)
    requires NormalizeTrade(t, p).Ok?
    ensures NormalizeTrade(NormalizeTrade(t, p).value, p) == NormalizeTrade(t, p)
  {
    MoneyCanonical(t.notional, p);
    MoneyCanonical(t.charges, p);
    MoneyCanonical(t.rebates, p);
    MoneyCanonical(t.marketValueDelta, p);
    AnalyticalRecordIdempotent(t.realizedPnlDelta, p);
    AnalyticalRecordIdempotent(t.unrealizedPnl, p);
    AnalyticalRecordIdempotent(t.roundingAdjustment, p);
  }

  /** A canonical fill carries non-negative minor units at the currency scale. */
  lemma {:induction false} CanonicalTrade(c: Command, p: nat)
    requires Normalize(c, p) == Ok(c) && c.body.payload.Trade?
    ensures var t := c.body.payload.fill;
            && Nonnegative(t.notional, p) == Ok(t.notional.coef)
            && Nonnegative(t.charges, p) == Ok(t.charges.coef)
            && Nonnegative(t.rebates, p) == Ok(t.rebates.coef)
            && Money(t.marketValueDelta, p) == Ok(t.marketValueDelta.coef)
  {
    var t := c.body.payload.fill;
    assert NormalizeTrade(t, p) == Ok(t);
    MoneyCanonical(t.notional, p);
    MoneyCanonical(t.charges, p);
    MoneyCanonical(t.rebates, p);
    MoneyCanonical(t.marketValueDelta, p);
  }

  // ----- identities -----

  /** The business identities that a payload claims; a redelivery claims the same ones. */
  function Aliases(q: Payload): set<Identity> {
    match q
    case Trade(t) => {
      Identity(TradeFamily, t.trade), Identity(ExecutionFamily, t.execution),
      Identity(VenueTradeFamily, t.venueTrade), Identity(FeeFamily, t.feeInstruction)}
    case Reserve(h) => {Identity(ReservationFamily, h.reservation)}
    case CashChange(c) => {Identity(ChangeFamily, c.change), Identity(SourceFactFamily, c.sourceFact)}
    case Economic(e) => {Identity(CashflowFamily, e.cashflow), Identity(SourceFactFamily, e.sourceFact)}
    case Margin(m) => {Identity(MarginFamily, m.command.id)}
    case Settle(s) => {Identity(SettlementFamily, s.instruction)}
    case Valuation(_, i) => {Identity(ValuationFamily, i.valuation)}
    case Broker(b) => {Identity(BrokerFamily, b.snapshot)}
    case Stage(_, _) => {}
    case Release(_, _) => {}
  }

  predicate Admission(q: Payload) {
    q.Reserve? || q.CashChange? || (q.Margin? && q.proof.command.action == ReserveMargin)
  }

  // ----- sums over maps and derived figures -----

  /** Sum of a finite map's values, in any order. */
  ghost function Total<K>(m: map<K, int>): int {
    if m == map[] then 0 else
      var k :| k in m;
      m[k] + Total(m - {k})
  }

  lemma {:induction false} TotalRemove<K>(m: map<K, int>, k: K)
    requires k in m
    ensures Total(m) == m[k] + Total(m - {k})
    decreases |m|
  {
    var j :| j in m && Total(m) == m[j] + Total(m - {j});
    if j != k {
      TotalRemove(m - {j}, k);
      TotalRemove(m - {k}, j);
      assert m - {j} - {k} == m - {k} - {j};
    }
  }

  lemma {:induction false} TotalUpdate<K>(m: map<K, int>, k: K, v: int)
    ensures Total(m[k := v]) == Total(m) - (if k in m then m[k] else 0) + v
  {
    TotalRemove(m[k := v], k);
    assert m[k := v] - {k} == m - {k};
    if k in m { TotalRemove(m, k); } else { assert m - {k} == m; }
  }

  lemma {:induction false} TotalNonnegative<K>(m: map<K, int>)
    requires forall k :: k in m ==> m[k] >= 0
    ensures Total(m) >= 0
    decreases |m|
  {
    if m != map[] {
      var k :| k in m && Total(m) == m[k] + Total(m - {k});
      TotalNonnegative(m - {k});
    }
  }

  function Remaining(rs: map<Id, Reservation>): map<Id, int> { map k | k in rs :: rs[k].remaining }
  function Consumed(rs: map<Id, Reservation>): map<Id, int> { map k | k in rs :: rs[k].consumed }
  function MarginReserved(ms: map<Id, MarginRow>): map<Id, int> { map k | k in ms :: ms[k].reserved }
  function MarginOccupied(ms: map<Id, MarginRow>): map<Id, int> { map k | k in ms :: ms[k].occupied }

  ghost function Reserved(s: State): int { Total(Remaining(s.reservations)) }
  ghost function Unsettled(s: State): int { Total(s.receivables) }
  ghost function Available(s: State): int {
    s.cash - Reserved(s) - Total(MarginReserved(s.margin)) - Total(MarginOccupied(s.margin))
  }
  ghost function Withdrawable(s: State): int { Available(s) - Unsettled(s) }
  function Equity(s: State): int { s.cash + s.marketValue }

  lemma {:induction false} RemainingUpdate(rs: map<Id, Reservation>, k: Id, r: Reservation)
    ensures Total(Remaining(rs[k := r]))
         == Total(Remaining(rs)) - (if k in rs then rs[k].remaining else 0) + r.remaining
    ensures Total(Consumed(rs[k := r]))
         == Total(Consumed(rs)) - (if k in rs then rs[k].consumed else 0) + r.consumed
  {
    assert Remaining(rs[k := r]) == Remaining(rs)[k := r.remaining];
    assert Consumed(rs[k := r]) == Consumed(rs)[k := r.consumed];
    TotalUpdate(Remaining(rs), k, r.remaining);
    TotalUpdate(Consumed(rs), k, r.consumed);
  }

  predicate Balanced(r: Reservation) {
    && r.original == r.remaining + r.consumed + r.released
    && r.original >= 0 && r.remaining >= 0 && r.consumed >= 0 && r.released >= 0
  }

  /** The last gate of every commit (digit-count bounds aside). */
  ghost function Validate(s: State): Option<Error> {
    if s.cash < 0 || s.marketValue < 0 || Withdrawable(s) < 0 then Some(CashConservation)
    else if exists k :: k in s.reservations && !Balanced(s.reservations[k]) then Some(ReservationConservation)
    else None
  }

  function Genesis(c: Config): State {
    State(c.initialCash, 0.0, 0.0, 0.0, 0, 0, map[], map[], None, map[], map[], map[], map[], 0, 0, 0,
          None, None, None, [], {}, None, None)
  }

  function Init(u: Setup): Ledger {
    Ledger(Genesis(u.config), [], 0)
  }
}
