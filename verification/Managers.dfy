/** The manager: an object that applies commands to a candidate copy and commits it only when every gate passes. */
module Managers {
  import opened Core
  import opened Model
  import opened Codec
  import opened Dictionaries
  import opened Transitions
  import opened Runs
  import opened Recovery
  import opened Rounding
  import opened Drawdown
  import opened Performance

  method SumValues(m: map<Id, int>) returns (total: int)
    ensures total == Total(m)
  {
    var rest := m;
    total := 0;
    while rest != map[]
      invariant total + Total(rest) == Total(m)
      decreases |rest|
    {
      var k :| k in rest;
      TotalRemove(rest, k);
      total := total + rest[k];
      rest := rest - {k};
    }
  }

  class Manager {
    const u: Setup
    var state: State
    var journal: seq<Command>
    var journalBytes: nat
    /** Memo of the canonical checkpoint of the current value. */
    var cache: Option<Checkpoint>
    /** The commands that led here. */
    ghost var inputs: seq<Command>

    ghost function Value(): Ledger
      reads this
    {
      Ledger(state, journal, journalBytes)
    }

    /** A filled memo is a fresh encoding of the current value. */
    ghost predicate Coherent()
      reads this
    {
      cache.Some? ==> CheckpointOf(u, Value()) == Ok(cache.value)
    }

    ghost predicate Valid()
      reads this
    {
      Coherent() && Value() == Execute(u, inputs).ledger
    }

    constructor (u: Setup)
      ensures this.u == u && Valid() && Value() == Init(u) && cache == None && inputs == []
    {
      this.u := u;
      state := Genesis(u.config);
      journal, journalBytes, cache, inputs := [], 0, None, [];
    }

    /** A clone shares the memo as well as the value. */
    constructor Clone(other: Manager)
      requires other.Valid()
      ensures u == other.u && Valid() && Value() == other.Value() && cache == other.cache && inputs == other.inputs
    {
      u := other.u;
      state, journal, journalBytes := other.state, other.journal, other.journalBytes;
      cache, inputs := other.cache, other.inputs;
    }

    /** A candidate starts from the same value with an empty memo. */
    constructor Candidate(other: Manager)
      ensures u == other.u && state == other.state && journal == other.journal && journalBytes == other.journalBytes
      ensures cache == None
    {
      u := other.u;
      state, journal, journalBytes := other.state, other.journal, other.journalBytes;
      cache, inputs := None, other.inputs;
    }

    // ----- derived figures -----

    method ReservedFunds() returns (r: int)
      ensures r == Reserved(state)
    {
      r := SumValues(Remaining(state.reservations));
    }

    method AvailableFunds() returns (r: int)
      ensures r == Available(state)
    {
      var held := ReservedFunds();
      var reserved := SumValues(MarginReserved(state.margin));
      var occupied := SumValues(MarginOccupied(state.margin));
      r := state.cash - held - reserved - occupied;
    }

    method WithdrawableFunds() returns (r: int)
      ensures r == Withdrawable(state)
    {
      var available := AvailableFunds();
      var unsettled := SumValues(state.receivables);
      r := available - unsettled;
    }

    // ----- reservations -----

    method Reserve(h: ReserveFact) returns (r: Result<Status, Error>)
      modifies this`state
      ensures match ReserveStep(old(state), u.config.precision, h)
              case Ok(s) => r == Ok(Applied) && state == s
              case Err(e) => r == Err(e)
    {
      var amount := Nonnegative(h.amount, u.config.precision);
      if amount.Err? { return Err(amount.error); }
      var free := WithdrawableFunds();
      if state.flags != {} || amount.value <= 0 || amount.value > free { return Err(ReserveBlockedOrInsufficient); }
      if h.reservation in state.reservations
         || exists k :: k in state.reservations && state.reservations[k].order == h.order
      {
        return Err(ReservationOrderConflict);
      }
      var hold := Reservation(h.order, amount.value, 0, amount.value, 0, false, false, false, false, None);
      state := state.(reservations := state.reservations[h.reservation := hold]);
      return Ok(Applied);
    }

    method Stage(id: Id, k: StageKind) returns (r: Result<Status, Error>)
      modifies this`state
      ensures match StageStep(old(state), id, k)
              case Ok(s) => r == Ok(Applied) && state == s
              case Err(e) => r == Err(e)
    {
      if id !in state.reservations { return Err(ReservationUnknown); }
      var hold := state.reservations[id];
      if hold.remaining == 0 { return Err(ReservationTerminal); }
      match k {
        case SentToBroker =>
          if hold.sent { return Err(StageRegression); }
          hold := hold.(sent := true);
        case SubmitUnknown =>
          hold := hold.(sent := true);
          hold := hold.(unknown := true);
        case BrokerAcknowledged =>
          hold := hold.(sent := true);
          hold := hold.(acknowledged := true);
          hold := hold.(unknown := false);
        case CancelRequested =>
          if !hold.sent { return Err(CancelBeforeSend); }
          hold := hold.(cancelPending := true);
        case OtherStage(_) => return Err(StageInvalid);
      }
      state := state.(reservations := state.reservations[id := hold]);
      return Ok(Applied);
    }

    method Release(id: Id, k: Closing) returns (r: Result<Status, Error>)
      modifies this`state
      ensures match ReleaseStep(old(state), id, k)
              case Ok(e) => r == Ok(e.status) && state == e.state
              case Err(e) => r == Err(e)
    {
      if id !in state.reservations { return Err(ReservationUnknown); }
      var hold := state.reservations[id];
      if hold.terminal.Some? {
        if hold.terminal.value == k { return Ok(Duplicate); }
        return Err(TerminalOutcomeConflict);
      }
      match k {
        case UnknownOutcome =>
          hold := hold.(sent := true, unknown := true, cancelPending := true);
        case NotSent =>
          if hold.sent { return Err(ReleaseOutcomeUnproven); }
          hold := hold.(released := hold.released + hold.remaining);
          hold := hold.(remaining := 0);
        case Filled => return Err(ReleaseOutcomeInvalid);
        case OtherOutcome(_) => return Err(ReleaseOutcomeInvalid);
        case _ =>
          hold := hold.(released := hold.released + hold.remaining);
          hold := hold.(remaining := 0, unknown := false, cancelPending := false);
      }
      if hold.remaining == 0 { hold := hold.(terminal := Some(k)); }
      state := state.(reservations := state.reservations[id := hold]);
      return Ok(Applied);
    }

    method Consume(t: TradeFact, debit: int) returns (r: Option<Error>)
      modifies this`state
      ensures match ConsumeStep(old(state), t, debit)
              case Ok(s) => r == None && state == s
              case Err(e) => r == Some(e)
    {
      if t.reservation.None? || t.reservation.value !in state.reservations { return Some(BuyRequiresReservation); }
      var id := t.reservation.value;
      var hold := state.reservations[id];
      if t.order != hold.order || hold.remaining == 0 { return Some(ReservationScopeOrTerminal); }
      if debit > hold.remaining || (!t.terminalFill && debit == hold.remaining) {
        return Some(ReservationInsufficient);
      }
      hold := hold.(sent := true);
      hold := hold.(remaining := hold.remaining - debit);
      hold := hold.(consumed := hold.consumed + debit);
      if t.terminalFill {
        hold := hold.(released := hold.released + hold.remaining);
        hold := hold.(remaining := 0, unknown := false, cancelPending := false, terminal := Some(Filled));
      }
      state := state.(reservations := state.reservations[id := hold]);
      return None;
    }

    // ----- trades -----

    method PayPurchase(t: TradeFact, notional: int, charges: int, fee: int) returns (r: Result<int, Error>)
      modifies this`state
      ensures match BuyLeg(old(state), t, notional, charges, fee)
              case Ok(leg) => r == Ok(leg.credit) && state == leg.state
              case Err(e) => r == Err(e)
    {
      if t.realizedPnlDelta.coef != 0 { return Err(BuyRealizedPnl); }
      var refusal := Consume(t, notional + charges);
      if refusal.Some? { return Err(refusal.value); }
      var debit := notional + fee;
      state := state.(cash := state.cash - debit, fees := state.fees + fee);
      return Ok(-debit);
    }

    method PayLeg(t: TradeFact) returns (r: Result<int, Error>)
      modifies this`state
      ensures match CashLeg(old(state), u.config.precision, t)
              case Ok(leg) => r == Ok(leg.credit) && state == leg.state
              case Err(e) => r == Err(e)
    {
      var p := u.config.precision;
      var notional := Nonnegative(t.notional, p);
      if notional.Err? { return Err(notional.error); }
      var charges := Nonnegative(t.charges, p);
      if charges.Err? { return Err(charges.error); }
      var rebates := Nonnegative(t.rebates, p);
      if rebates.Err? { return Err(rebates.error); }
      var fee := charges.value - rebates.value;
      if t.side == Buy {
        r := PayPurchase(t, notional.value, charges.value, fee);
      } else {
        if t.reservation.Some? { return Err(SellCashReservation); }
        var credit := notional.value - fee;
        state := state.(cash := state.cash + credit, fees := state.fees + fee);
        r := Ok(credit);
      }
    }

    method Trade(t: TradeFact, time: int) returns (r: Result<Status, Error>)
      modifies this`state
      ensures match TradeStep(old(state), u.config.precision, t, time)
              case Ok(e) => r == Ok(e.status) && state == e.state
              case Err(e) => r == Err(e)
    {
      if NotAfter(t.sequence, state.tradeSequence) || Before(time, state.now) {
        state := state.(flags := state.flags + {StaleTrade});
        return Ok(Stale);
      }
      var credit := PayLeg(t);
      if credit.Err? { return Err(credit.error); }
      var delta := Money(t.marketValueDelta, u.config.precision);
      if delta.Err? { return Err(delta.error); }
      ghost var paid := state;
      if !t.cashWithdrawable && credit.value > 0 {
        state := state.(receivables := state.receivables[t.trade := credit.value]);
      }
      state := state.(realized := state.realized + Analytical(t.realizedPnlDelta));
      state := state.(marketValue := state.marketValue + delta.value);
      state := state.(unrealized := Analytical(t.unrealizedPnl),
                      roundingAdjustment := Analytical(t.roundingAdjustment));
      state := state.(positionEvidence := Some(t.positionEvidence), tradeSequence := Some(t.sequence));
      state := state.(economicVersion := state.economicVersion + 1);
      assert state == BookFill(paid, t, credit.value, delta.value);
      return Ok(Applied);
    }

    // ----- cash, settlement, producers -----

    method ChangeCash(c: CashFact) returns (r: Result<Status, Error>)
      modifies this`state
      ensures match CashStep(old(state), u.config.precision, c)
              case Ok(s) => r == Ok(Applied) && state == s
              case Err(e) => r == Err(e)
    {
      var amount := Nonnegative(c.amount, u.config.precision);
      if amount.Err? { return Err(amount.error); }
      match c.kind {
        case Deposit => state := state.(cash := state.cash + amount.value);
        case Withdrawal =>
          var free := WithdrawableFunds();
          if state.flags != {} || amount.value > free { return Err(WithdrawalBlocked); }
          state := state.(cash := state.cash - amount.value);
        case OtherCash(_) => return Err(CashChangeKind);
      }
      state := state.(economicVersion := state.economicVersion + 1);
      return Ok(Applied);
    }

    method BookEconomic(f: EconomicFact) returns (r: Result<Status, Error>)
      modifies this`state
      ensures match EconomicStep(old(state), u.config.precision, f)
              case Ok(s) => r == Ok(Applied) && state == s
              case Err(e) => r == Err(e)
    {
      var amount := Money(f.amount, u.config.precision);
      if amount.Err? { return Err(amount.error); }
      match f.kind {
        case OtherEconomic(_) => return Err(EconomicKindInvalid);
        case Funding =>
        case _ => state := state.(realized := state.realized + Analytical(Decimal(amount.value, u.config.precision)));
      }
      assert f.kind == Funding ==> state.realized == state.realized + 0.0;
      state := state.(cash := state.cash + amount.value, economicVersion := state.economicVersion + 1);
      return Ok(Applied);
    }

    method Settle(f: SettleFact) returns (r: Result<Status, Error>)
      modifies this`state
      ensures match SettleStep(old(state), u.config.precision, f)
              case Ok(s) => r == Ok(Applied) && state == s
              case Err(e) => r == Err(e)
    {
      var amount := Nonnegative(f.amount, u.config.precision);
      if amount.Err? { return Err(amount.error); }
      if f.sourceTrade !in state.receivables { return Err(SettlementSourceUnknown); }
      var left := state.receivables[f.sourceTrade];
      if amount.value <= 0 || amount.value > left { return Err(SettlementAmount); }
      state := state.(receivables := state.receivables[f.sourceTrade := left - amount.value]);
      state := state.(economicVersion := state.economicVersion + 1);
      return Ok(Applied);
    }

    method InstallValuation(position: Json, i: Intent, time: int) returns (r: Result<Status, Error>)
      modifies this`state
      ensures match ValuationStep(u, old(state), position, i, time)
              case Ok(s) => r == Ok(Applied) && state == s
              case Err(e) => r == Err(e)
    {
      var v := u.value(position, i);
      if v.Err? { return Err(v.error); }
      if v.value.owner != u.config.owner || v.value.currency != u.config.currency { return Err(ValuationOwner); }
      if v.value.configuration != u.config.positionConfiguration || v.value.trades != state.positionTrades {
        return Err(ValuationSourceRelation);
      }
      if i.version <= state.valuationVersion || i.economicVersion != state.economicVersion || i.time != time {
        return Err(ValuationBasis);
      }
      var marketValue := Nonnegative(v.value.marketValue, u.config.precision);
      if marketValue.Err? { return Err(marketValue.error); }
      state := state.(marketValue := marketValue.value, unrealized := Analytical(v.value.unrealized));
      state := state.(valuationVersion := i.version, positionEvidence := Some(i.positionEvidence));
      return Ok(Applied);
    }

    method InstallMargin(proof: MarginProof) returns (r: Result<Status, Error>)
      modifies this`state
      ensures match MarginStep(u, old(state), proof)
              case Ok(s) => r == Ok(Applied) && state == s
              case Err(e) => r == Err(e)
    {
      var e := u.margin(proof, state.marginOwner);
      if e.Err? { return Err(e.error); }
      var row := e.value.after;
      if row.owner != u.config.owner { return Err(MarginOwner); }
      if row.currency != u.config.currency { return Err(MarginContext); }
      var before := if row.id in state.margin then Some(state.margin[row.id]) else None;
      if e.value.before != before { return Err(MarginBefore); }
      if before.None? {
        if state.flags != {} { return Err(MarginAdmission); }
        if row.reserved < 0 { return Err(NegativeAmount); }
        var free := WithdrawableFunds();
        if row.reserved > free { return Err(MarginAdmission); }
      }
      state := state.(margin := state.margin[row.id := row], economicVersion := state.economicVersion + 1);
      state := state.(marginOwner := Some(e.value.owner));
      return Ok(Applied);
    }

    // ----- reconciliation -----

    method CompareFigures(b: BrokerFact) returns (differences: seq<Figure>)
      ensures differences == Differences(state, u.config.precision, b)
    {
      var p := u.config.precision;
      var reserved := ReservedFunds();
      var available := AvailableFunds();
      var withdrawable := WithdrawableFunds();
      var rows := Rows(b, p, state.cash, reserved, available, withdrawable, Equity(state));
      differences := [];
      for i := 0 to |rows|
        invariant differences == Disagreeing(rows[..i])
      {
        assert rows[..i + 1][..i] == rows[..i];
        if rows[i].observed != rows[i].own { differences := differences + [rows[i].figure]; }
      }
      assert rows[..|rows|] == rows;
    }

    method ObserveBroker(b: BrokerFact, time: int) returns (r: Result<Status, Error>)
      modifies this`state
      ensures match BrokerStep(old(state), u.config.precision, b, time)
              case Ok(e) => r == Ok(e.status) && state == e.state
              case Err(e) => r == Err(e)
    {
      var amounts := BrokerAmounts(b, u.config.precision);
      if amounts.Err? { return Err(amounts.error); }
      if NotAfter(b.sequence, state.brokerSequence) || Before(time, state.now) { return Ok(Stale); }
      var differences := CompareFigures(b);
      state := state.(brokerSequence := Some(b.sequence), broker := Some(b));
      if b.quality != Verified || b.basisSequence != state.sequence {
        state := state.(flags := state.flags + {ProofUnavailable});
        return Ok(Applied);
      }
      state := state.(differences := differences);
      state := state.(flags := state.flags - {ProofUnavailable});
      if state.differences == [] {
        state := state.(flags := state.flags - {LocalConflict});
      } else {
        state := state.(flags := state.flags + {LocalConflict});
      }
      return Ok(Applied);
    }

    method Transit(b: Body) returns (r: Result<Status, Error>)
      modifies this`state
      ensures match Transition(u, old(state), b)
              case Ok(e) => r == Ok(e.status) && state == e.state
              case Err(e) => r == Err(e)
    {
      if !b.payload.Trade? && !b.payload.Broker? && Before(b.time, state.now) { return Err(TimeRegression); }
      match b.payload {
        case Margin(proof) => r := InstallMargin(proof);
        case Reserve(h) => r := Reserve(h);
        case Stage(id, k) => r := Stage(id, k);
        case Release(id, k) => r := Release(id, k);
        case Trade(t) => r := Trade(t, b.time);
        case Broker(o) => r := ObserveBroker(o, b.time);
        case CashChange(c) => r := ChangeCash(c);
        case Economic(f) => r := BookEconomic(f);
        case Settle(f) => r := Settle(f);
        case Valuation(position, i) => r := InstallValuation(position, i, b.time);
      }
    }

    // ----- checkpoints -----

    method EncodeDictionary() returns (r: Result<Dictionary, Error>)
      ensures r == Compress(journal)
    {
      var d := Dictionary([], map[]);
      for i := 0 to |journal|
        invariant Compress(journal[..i]) == Ok(d)
      {
        assert journal[..i + 1] == journal[..i] + [journal[i]];
        CompressSplit(journal[..i], journal[i]);
        var next := EncodeOne(d, journal[i]);
        if next.Err? {
          CompressFails(journal, i + 1);
          return Err(next.error);
        }
        d := next.value;
      }
      assert journal[..|journal|] == journal;
      return Ok(d);
    }

    /** The canonical record of the current value, encoded at most once while the value stands. */
    method CachedCheckpoint() returns (r: Result<Checkpoint, Error>)
      requires Coherent()
      modifies this`cache
      ensures Coherent()
      ensures r == CheckpointOf(u, Value())
      ensures r.Ok? ==> cache == Some(r.value)
      ensures r.Err? ==> cache == old(cache)
    {
      if cache.Some? { return Ok(cache.value); }
      if u.version == 4 {
        r := Ok(Checkpoint4(u.config, journal, state));
      } else if u.version == 5 {
        var d := EncodeDictionary();
        if d.Err? { return Err(d.error); }
        CompressLossless(journal);
        var refusal := ValidateDictionary(u, d.value.entries, d.value.positions, state);
        if refusal.Some? { return Err(refusal.value); }
        r := Ok(Checkpoint5(u.config, d.value.entries, d.value.positions, state));
      } else {
        return Err(CheckpointSchema);
      }
      cache := Some(r.value);
    }

    // ----- one command -----

    method Validated() returns (r: Option<Error>)
      ensures r == Validate(state)
    {
      var free := WithdrawableFunds();
      if state.cash < 0 || state.marketValue < 0 || free < 0 { return Some(CashConservation); }
      if exists k :: k in state.reservations && !Balanced(state.reservations[k]) {
        return Some(ReservationConservation);
      }
      return None;
    }

    /** Books of an accepted command, written on a candidate. */
    method Note(c: Command, status: Status)
      modifies this`state, this`journal, this`journalBytes
      ensures Value() == Append(old(Value()), c, Record(c, Effect(old(state), status)))
    {
      if c.body.payload.Trade? && status == Applied {
        state := state.(positionTrades := state.positionTrades[c.body.payload.fill.trade := PositionTradeOf(c.body)]);
      }
      if status != Duplicate {
        state := state.(sequence := state.sequence + 1, now := Later(state.now, c.body.time));
      }
      state := state.(receipts := state.receipts[c.id := c]);
      state := state.(semantic := state.semantic + map a | a in Aliases(c.body.payload) :: c.body);
      journalBytes := journalBytes + |Encode(CommandJson(c))| + (if journal == [] then 0 else 1);
      journal := journal + [c];
    }

    method Gated(admission: bool) returns (r: Option<Error>)
      requires cache == None
      modifies this`cache
      ensures r == Gates(u, Value(), admission)
      ensures Coherent()
    {
      r := Validated();
      if r.Some? { return; }
      if u.version == 5 && !ExpandedSizeFits(u, state, journalBytes) { return Some(CheckpointBound); }
      if admission {
        if !u.admissionFits(state) { return Some(ResourceBound); }
        var cp := CachedCheckpoint();
        if cp.Err? { return Some(cp.error); }
        if !u.checkpointFits(cp.value) { return Some(CheckpointBound); }
      }
      return None;
    }

    /** Runs a fresh command on a candidate copy and through the gates; the manager itself is untouched. */
    method Propose(c: Command) returns (r: Result<Status, Error>, candidate: Manager)
      ensures fresh(candidate) && candidate.u == u
      ensures match Decide(u, state, c.body)
              case Err(e) => r == Err(e)
              case Ok(e) =>
                && candidate.Value() == Append(Value(), c, Record(c, e)) && candidate.Coherent()
                && match Proposed(u, Value(), c, e)
                   case Err(x) => r == Err(x)
                   case Ok(reply) => r == Ok(reply.status)
    {
      candidate := new Manager.Candidate(this);
      var status := Duplicate;
      if !Known(state, c.body) {
        var outcome := candidate.Transit(c.body);
        if outcome.Err? { return Err(outcome.error), candidate; }
        status := outcome.value;
      }
      candidate.Note(c, status);
      var refusal := candidate.Gated(Admission(c.body.payload));
      r := if refusal.Some? then Err(refusal.value) else Ok(status);
    }

    /** The answer of a command that never reaches a candidate. */
    method Screened(c: Command) returns (r: Option<Result<Status, Error>>)
      ensures r == Screen(u, Value(), c)
    {
      if c.id in state.receipts { return Some(Ok(if state.receipts[c.id] == c then Duplicate else Conflict)); }
      if Admission(c.body.payload) && !u.journalFits(Ledger(state, journal, journalBytes), c) {
        return Some(Err(JournalBound));
      }
      if Conflicting(state, c.body) { return Some(Ok(Conflict)); }
      return None;
    }

    method Commit(candidate: Manager)
      modifies this`state, this`journal, this`journalBytes, this`cache
      ensures Value() == candidate.Value() && cache == candidate.cache
    {
      state, journal, journalBytes := candidate.state, candidate.journal, candidate.journalBytes;
      cache := candidate.cache;
    }

    /** Everything after normalisation; the manager changes only by the final commit. */
    method AcceptCanonical(c: Command) returns (r: Result<Status, Error>)
      requires Coherent()
      modifies this`state, this`journal, this`journalBytes, this`cache
      ensures Coherent()
      ensures match Accept(u, old(Value()), c)
              case Ok(reply) => r == Ok(reply.status) && Value() == reply.ledger
              case Err(e) => r == Err(e) && Value() == old(Value())
      ensures Value() == old(Value()) ==> cache == old(cache)
    {
      var answer := Screened(c);
      if answer.Some? { return answer.value; }
      var candidate;
      r, candidate := Propose(c);
      if r.Err? { return; }
      assert |candidate.journal| == |journal| + 1;
      Commit(candidate);
    }

    /** Refused commands change nothing, not even the memo; accepted ones take the specified step. */
    method ApplyInner(input: Command) returns (r: Result<Status, Error>)
      requires Valid()
      modifies this
      ensures Valid() && inputs == old(inputs) + [input]
      ensures match Step(u, old(Value()), input)
              case Ok(reply) => r == Ok(reply.status) && Value() == reply.ledger
              case Err(e) => r == Err(e) && Value() == old(Value())
      ensures Value() == old(Value()) ==> cache == old(cache)
    {
      ExecuteLedger(u, inputs, input);
      inputs := inputs + [input];
      if input.body.owner != u.config.owner { return Err(ContextConflict); }
      var c := Normalize(input, u.config.precision);
      if c.Err? { return Err(c.error); }
      r := AcceptCanonical(c.value);
    }

    // ----- recovery -----

    method CheckRecord(cp: Checkpoint, expected: Checkpoint) returns (r: Option<Error>)
      ensures r == None <==> Admissible(u, cp, expected)
    {
      if cp != expected { return Some(CheckpointDigest); }
      if !(u.version == 4 || u.version == 5) || (u.version == 4) != cp.Checkpoint4? { return Some(CheckpointSchema); }
      if cp.config != u.config { return Some(CheckpointContext); }
      if cp.Checkpoint5? {
        r := ValidateDictionary(u, cp.entries, cp.positions, cp.state);
      } else {
        r := None;
      }
    }

    method ReplayAll(commands: seq<Command>) returns (r: Option<Error>)
      requires Valid()
      modifies this
      ensures Valid()
      ensures r == None ==> Replay(u, old(Value()), commands) == Ok(Value())
      ensures r != None ==> Replay(u, old(Value()), commands).Err?
    {
      for i := 0 to |commands|
        invariant Valid()
        invariant Replay(u, old(Value()), commands[..i]) == Ok(Value())
      {
        FoldNext(Replayer(u), old(Value()), commands, i);
        var before := |journal|;
        var status := ApplyInner(commands[i]);
        if status.Err? || |journal| != before + 1 {
          FoldFails(Replayer(u), old(Value()), commands, i + 1);
          return Some(ReplayReceipt);
        }
      }
      assert commands[..|commands|] == commands;
      return None;
    }

    method Adopt(other: Manager)
      requires other.Valid() && other.u == u
      modifies this
      ensures Valid() && Value() == other.Value()
    {
      state, journal, journalBytes := other.state, other.journal, other.journalBytes;
      cache, inputs := other.cache, other.inputs;
    }

    method Agreement(cp: Checkpoint) returns (ok: bool)
      requires Valid()
      modifies this`cache
      ensures Valid()
      ensures ok <==> Agrees(u, Value(), cp)
    {
      if state != cp.state || (cp.Checkpoint4? && journal != cp.journal) { return false; }
      if cp.Checkpoint5? {
        var own := CachedCheckpoint();
        return own == Ok(cp);
      }
      return true;
    }

    /** A new account that has replayed the commands, and whether it agrees with the record. */
    method Rebuild(cp: Checkpoint, commands: seq<Command>) returns (r: Option<Error>, candidate: Manager)
      ensures fresh(candidate) && candidate.Valid() && candidate.u == u
      ensures match Rebuilt(u, cp, commands)
              case Some(m) => r == None && candidate.Value() == m
              case None => r != None
    {
      candidate := new Manager(u);
      r := candidate.ReplayAll(commands);
      if r.Some? { return; }
      var ok := candidate.Agreement(cp);
      r := if ok then None else Some(CheckpointState);
    }

    /** Cold recovery: all or nothing. */
    method Restore(cp: Checkpoint, expected: Checkpoint) returns (r: Option<Error>)
      requires Valid()
      modifies this
      ensures Valid()
      ensures match Restored(u, cp, expected)
              case Some(m) => r == None && Value() == m
              case None => r != None && Value() == old(Value()) && cache == old(cache) && inputs == old(inputs)
    {
      r := CheckRecord(cp, expected);
      if r.Some? { return; }
      var content := Commands(cp);
      var candidate;
      r, candidate := Rebuild(cp, content);
      if r.None? { Adopt(candidate); }
    }

    /** Only a valid record that strictly extends this very journal is worth replaying. */
    method CheckExtension(cp: Checkpoint, expected: Checkpoint) returns (r: Option<Error>)
      ensures r == None <==> Extends(u, Value(), cp, expected)
    {
      r := CheckRecord(cp, expected);
      if r.Some? { return; }
      var content := Commands(cp);
      if |content| <= |journal| { return Some(CheckpointPrefix); }
      var same := PrefixMatches(cp, journal);
      if !same { return Some(CheckpointPrefix); }
    }

    /** A clone that has replayed the commands, and whether it ends in the record. */
    method Continue(cp: Checkpoint, commands: seq<Command>) returns (r: Option<Error>, candidate: Manager)
      requires Valid()
      ensures fresh(candidate) && candidate.Valid() && candidate.u == u
      ensures match Continued(u, Value(), cp, commands)
              case Some(m) => r == None && candidate.Value() == m
              case None => r != None
    {
      candidate := new Manager.Clone(this);
      r := candidate.ReplayAll(commands);
      if r.Some? { return; }
      var own := candidate.CachedCheckpoint();
      r := if own == Ok(cp) then None else Some(CheckpointState);
    }

    /** Extension of this exact journal: all or nothing. */
    method RestoreExactExtension(cp: Checkpoint, expected: Checkpoint) returns (r: Option<Error>)
      requires Valid()
      modifies this
      ensures Valid()
      ensures match Extended(u, old(Value()), cp, expected)
              case Some(m) => r == None && Value() == m
              case None => r != None && Value() == old(Value()) && cache == old(cache) && inputs == old(inputs)
    {
      r := CheckExtension(cp, expected);
      if r.Some? { return; }
      var content := Commands(cp);
      var candidate;
      r, candidate := Continue(cp, content[|journal|..]);
      if r.None? { Adopt(candidate); }
    }

    // ----- performance -----

    /** A command whose outcome is known is answered so. */
    method ApplyKnown(c: Command, ghost next: Ledger, ghost known: Status) returns (status: Status)
      requires Valid() && Step(u, Value(), c) == Ok(Reply(next, known))
      modifies this
      ensures Valid() && Value() == next && status == known
    {
      var r := ApplyInner(c);
      status := r.value;
    }

    /** Replays one journal entry on the candidate and adds its point, unless it was a duplicate. */
    method WalkEntry(candidate: Manager, index: nat, w: Walk) returns (n: Walk)
      requires Valid() && candidate.Valid() && candidate.u == u && candidate != this
      requires 0 < index <= |journal| && Passed(u, inputs, index - 1, candidate.Value(), w)
      modifies candidate
      ensures candidate.Valid() && |candidate.journal| == index
      ensures Passed(u, inputs, index, candidate.Value(), n)
    {
      ghost var from := candidate.state;
      ghost var next, known := PassedNext(u, inputs, index - 1, candidate.Value(), w);
      var before := candidate.state.cash;
      var status := candidate.ApplyKnown(journal[index - 1], next, known);
      n := ExtendWalk(w, Entry(journal[index - 1], status), from, before, candidate.state, u.config.precision);
    }

    /** The first point of the walk, taken on a new account. */
    method StartWalk() returns (n: Walk, candidate: Manager)
      requires Valid() && |Execute(u, inputs).trace| == |journal|
      ensures fresh(candidate) && candidate.Valid() && candidate.u == u
      ensures Passed(u, inputs, 0, candidate.Value(), n)
    {
      candidate := new Manager(u);
      var initial := Equity(candidate.state);
      n := AddPoint(Walk([], initial, None, None, false, {}, 0, false), candidate.state, u.config.precision);
      PassedStart(u, inputs);
    }

    /** Replays the whole journal from genesis; the replayed account is this account. */
    method WalkJournal(genesis: int) returns (w: Option<Walk>, candidate: Manager)
      requires Valid() && |Execute(u, inputs).trace| == |journal|
      ensures fresh(candidate) && candidate.Valid() && candidate.u == u
      ensures w.Some? <==> AllSince(journal, genesis)
      ensures w.Some? ==> Passed(u, inputs, |journal|, candidate.Value(), w.value)
    {
      var n;
      n, candidate := StartWalk();
      for index := 1 to |journal| + 1
        invariant candidate.Valid() && candidate.u == u && fresh(candidate)
        invariant Passed(u, inputs, index - 1, candidate.Value(), n)
        invariant AllSince(journal[..index - 1], genesis)
      {
        AllSinceNext(journal, genesis, index - 1);
        if journal[index - 1].body.time < genesis {
          AllSinceFails(journal, genesis, index - 1);
          return None, candidate;
        }
        n := WalkEntry(candidate, index, n);
      }
      assert journal[..|journal|] == journal;
      w := Some(n);
    }

    /** Rebuilds the whole account path from the journal. The replay never disagrees with the account, so a report
        is refused only for a genesis after some command or for want of a checkpoint. */
    method MeasurePerformance(genesis: int) returns (r: Result<Report, Error>)
      requires Valid()
      modifies this`cache
      ensures Valid()
      ensures r.Ok? <==> (forall k :: 0 <= k < |journal| ==> journal[k].body.time >= genesis)
                         && CheckpointOf(u, Value()).Ok?
      ensures r.Ok? ==> Describes(u, Execute(u, inputs), r.value)
    {
      TraceLength(u, inputs);
      AllSinceMeans(journal, genesis);
      var walked, candidate := WalkJournal(genesis);
      if walked.None? { return Err(GenesisAfterSource); }
      PassedEnd(u, inputs, candidate.Value(), walked.value);
      var w := walked.value;
      var replayed := candidate.CachedCheckpoint();
      var own := CachedCheckpoint();
      if own.Err? || replayed != own { return Err(HistoryHead); }
      var report := Summarise(u, w, Equity(candidate.state));
      Summarised(u, inputs, w, report);
      return Ok(report);
    }
  }

  method Summarise(u: Setup, w: Walk, final: int) returns (report: Report)
    ensures Sums(u, w, final, report)
  {
    var initial, p := u.config.initialCash, u.config.precision;
    var growth := Ratio(Decimal(final - initial, p), Decimal(initial, p));
    if initial > 0 { RatioIsLoss(final, initial, p); }
    report := Report(initial, final, final - initial - w.external, w.external, w.occurred,
                     if w.occurred then None else growth, w.peak, w.current, w.maximum, w.path, FlagsOf(w, initial));
  }

  /** What one replayed entry adds: nothing for a duplicate, else a point and the external money it moved. */
  method ExtendWalk(w: Walk, x: Entry, ghost before: State, cash: int, after: State, p: nat) returns (n: Walk)
    requires cash == before.cash
    ensures n == WalkOn(w, x, before, after)
  {
    n := w;
    if x.status != Duplicate {
      n := AddPoint(n, after, p);
      if x.command.body.payload.CashChange? && x.status == Applied {
        n := n.(external := n.external + after.cash - cash, occurred := true);
      }
    }
  }

  /** One point of the walk: the peak first, then the loss against it. */
  method AddPoint(w: Walk, s: State, p: nat) returns (n: Walk)
    ensures var top := Max(w.peak, Equity(s));
            n == w.(path := w.path + [Equity(s)], peak := top, current := DrawdownAt(Equity(s), top),
                    maximum := NextMaximum(w.maximum, DrawdownAt(Equity(s), top)),
                    undefined := w.undefined || DrawdownAt(Equity(s), top).None?, raised := w.raised + s.flags)
  {
    var equity := Equity(s);
    var peak := Max(w.peak, equity);
    if peak > 0 { RatioIsLoss(equity, peak, p); }
    var current := Ratio(Decimal(equity - peak, p), Decimal(peak, p));
    var maximum, undefined := w.maximum, w.undefined;
    if current.Some? {
      maximum := if maximum.None? then current else Some(Min(maximum.value, current.value));
    } else {
      undefined := true;
    }
    n := w.(path := w.path + [equity], peak := peak, current := current, maximum := maximum,
            undefined := undefined, raised := w.raised + s.flags);
  }

  method Commands(cp: Checkpoint) returns (content: seq<Command>)
    requires cp.Checkpoint5? ==> AllResolvable(cp.entries, cp.positions)
    ensures content == Content(cp)
  {
    content := if cp.Checkpoint4? then cp.journal else Hydrate(cp.entries, cp.positions);
  }

  /** Compares an encoded entry with a full command, following its reference instead of hydrating it. */
  predicate OriginalMatches(e: Encoded, positions: map<Id, Json>, original: Command)
    requires Resolvable(e, positions)
    ensures OriginalMatches(e, positions, original) <==> HydrateOne(e, positions) == original
  {
    match e
    case Plain(c) => c == original
    case Compact(id, owner, cause, time, i, r) =>
      && original.body.payload.Valuation?
      && original.id == id && original.body.owner == owner && original.body.cause == cause && original.body.time == time
      && original.body.payload.intent == i && positions[r] == original.body.payload.position
  }

  method PrefixMatches(cp: Checkpoint, journal: seq<Command>) returns (same: bool)
    requires cp.Checkpoint5? ==> AllResolvable(cp.entries, cp.positions)
    requires |journal| < |Content(cp)|
    ensures same <==> Content(cp)[..|journal|] == journal
  {
    ghost var content := Content(cp);
    for i := 0 to |journal|
      invariant forall k :: 0 <= k < i ==> content[k] == journal[k]
    {
      var matches := if cp.Checkpoint4? then cp.journal[i] == journal[i]
                     else OriginalMatches(cp.entries[i], cp.positions, journal[i]);
      if !matches {
        assert content[i] != journal[i];
        assert content[..|journal|][i] == content[i];
        return false;
      }
    }
    return true;
  }
}
