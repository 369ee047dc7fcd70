/** Exactly which commands are journaled: the guards of every kind on the account's own figures, the final check, the
    caps, and what every run keeps of them. */
module Acceptance {
  import opened Core
  import opened Model
  import opened Codec
  import opened Transitions
  import opened Runs
  import opened Books
  import opened Identities
  import opened Performance

  // ----- guards, kind by kind -----

  ghost predicate MayReserve(s: State, h: ReserveFact) {
    && s.flags == {} && 0 < h.amount.coef <= Withdrawable(s)
    && h.reservation !in s.reservations
    && forall k | k in s.reservations :: s.reservations[k].order != h.order
  }

  predicate MayStage(s: State, id: Id, k: StageKind) {
    && id in s.reservations && s.reservations[id].remaining != 0
    && match k
       case SentToBroker => !s.reservations[id].sent
       case CancelRequested => s.reservations[id].sent
       case OtherStage(_) => false
       case _ => true
  }

  predicate MayRelease(s: State, id: Id, k: Closing) {
    && id in s.reservations
    && if s.reservations[id].terminal.Some? then s.reservations[id].terminal.value == k
       else match k
         case NotSent => !s.reservations[id].sent
         case Filled => false
         case OtherOutcome(_) => false
         case _ => true
  }

  /** A purchase needs a hold of its own order with enough left, and all of it only if it is the last fill. */
  predicate MayBuy(s: State, t: TradeFact) {
    && t.realizedPnlDelta.coef == 0 && t.reservation.Some? && t.reservation.value in s.reservations
    && var r, debit := s.reservations[t.reservation.value], t.notional.coef + t.charges.coef;
       && t.order == r.order && r.remaining != 0
       && (debit < r.remaining || (t.terminalFill && debit == r.remaining))
  }

  predicate InOrder(s: State, t: TradeFact, time: int) {
    && (s.tradeSequence.Some? ==> s.tradeSequence.value < t.sequence)
    && (s.now.Some? ==> s.now.value <= time)
  }

  /** A fill out of order is always taken, and only raises the flag. */
  predicate MayTrade(s: State, t: TradeFact, time: int) {
    InOrder(s, t, time) ==> if t.side == Buy then MayBuy(s, t) else t.reservation.None?
  }

  ghost predicate MayChangeCash(s: State, c: CashFact) {
    match c.kind
    case Deposit => c.amount.coef >= 0
    case Withdrawal => s.flags == {} && 0 <= c.amount.coef <= Withdrawable(s)
    case OtherCash(_) => false
  }

  predicate MaySettle(s: State, t: SettleFact) {
    t.sourceTrade in s.receivables && 0 < t.amount.coef <= s.receivables[t.sourceTrade]
  }

  predicate MayObserve(b: BrokerFact) {
    && b.cash.coef >= 0 && b.reserved.coef >= 0 && b.tradeAvailable.coef >= 0
    && b.withdrawable.coef >= 0 && b.equity.coef >= 0
  }

  /** A valuation must be of this account, on exactly its fills, newer than the last, and at its present version. */
  predicate MayValue(u: Setup, s: State, position: Json, i: Intent, time: int) {
    && u.value(position, i).Ok?
    && var v := u.value(position, i).value;
       && v.owner == u.config.owner && v.currency == u.config.currency
       && v.configuration == u.config.positionConfiguration && v.trades == s.positionTrades
       && s.valuationVersion < i.version && i.economicVersion == s.economicVersion && i.time == time
       && Money(v.marketValue, u.config.precision).Ok? && Money(v.marketValue, u.config.precision).value >= 0
  }

  /** A margin row must be of this account and start from the row on record; a first row must be free to be admitted. */
  ghost predicate MayMargin(u: Setup, s: State, proof: MarginProof) {
    && u.margin(proof, s.marginOwner).Ok?
    && var e := u.margin(proof, s.marginOwner).value;
       && e.after.owner == u.config.owner && e.after.currency == u.config.currency
       && (if e.after.id in s.margin then e.before == Some(s.margin[e.after.id])
           else e.before == None && s.flags == {} && 0 <= e.after.reserved <= Withdrawable(s))
  }

  ghost predicate Allowed(u: Setup, s: State, b: Body) {
    && (b.payload.Trade? || b.payload.Broker? || s.now.None? || s.now.value <= b.time)
    && match b.payload
       case Reserve(h) => MayReserve(s, h)
       case Stage(id, k) => MayStage(s, id, k)
       case Release(id, k) => MayRelease(s, id, k)
       case Trade(t) => MayTrade(s, t, b.time)
       case CashChange(c) => MayChangeCash(s, c)
       case Economic(e) => !e.kind.OtherEconomic?
       case Settle(t) => MaySettle(s, t)
       case Broker(o) => MayObserve(o)
       case Valuation(position, i) => MayValue(u, s, position, i, b.time)
       case Margin(proof) => MayMargin(u, s, proof)
  }

  lemma {:induction false} FillAllowed(s: State, c: Command, p: nat)
    requires c.body.payload.Trade? && Normalize(c, p) == Ok(c)
    ensures TradeStep(s, p, c.body.payload.fill, c.body.time).Ok? <==> MayTrade(s, c.body.payload.fill, c.body.time)
  {
    CanonicalTrade(c, p);
  }

  lemma {:induction false} HoldAllowed(u: Setup, s: State, c: Command)
    requires c.body.payload.Reserve? || c.body.payload.Stage? || c.body.payload.Release?
    requires Normalize(c, u.config.precision) == Ok(c)
    ensures Transition(u, s, c.body).Ok? <==> Allowed(u, s, c.body)
  {
    match c.body.payload
    case Reserve(h) => MoneyCanonical(h.amount, u.config.precision);
    case _ =>
  }

  lemma {:induction false} MoneyAllowed(u: Setup, s: State, c: Command)
    requires c.body.payload.CashChange? || c.body.payload.Economic? || c.body.payload.Settle?
    requires Normalize(c, u.config.precision) == Ok(c)
    ensures Transition(u, s, c.body).Ok? <==> Allowed(u, s, c.body)
  {
    match c.body.payload
    case CashChange(f) => MoneyCanonical(f.amount, u.config.precision);
    case Economic(f) => MoneyCanonical(f.amount, u.config.precision);
    case Settle(f) => MoneyCanonical(f.amount, u.config.precision);
  }

  lemma {:induction false} ObservationAllowed(s: State, p: nat, c: Command)
    requires c.body.payload.Broker? && Normalize(c, p) == Ok(c)
    ensures BrokerStep(s, p, c.body.payload.observation, c.body.time).Ok? <==> MayObserve(c.body.payload.observation)
  {
    var b := c.body.payload.observation;
    MoneyCanonical(b.cash, p);
    MoneyCanonical(b.reserved, p);
    MoneyCanonical(b.tradeAvailable, p);
    MoneyCanonical(b.withdrawable, p);
    MoneyCanonical(b.equity, p);
  }

  lemma {:induction false} ProducedAllowed(u: Setup, s: State, b: Body)
    requires b.payload.Valuation? || b.payload.Margin?
    ensures Transition(u, s, b).Ok? <==> Allowed(u, s, b)
  {
  }

  /** A canonical command takes effect on an account exactly when the account's own figures allow it. */
  lemma {:induction false} AllowedExactly(u: Setup, s: State, c: Command)
    requires Normalize(c, u.config.precision) == Ok(c)
    ensures Transition(u, s, c.body).Ok? <==> Allowed(u, s, c.body)
  {
    match c.body.payload
    case Trade(_) => FillAllowed(s, c, u.config.precision);
    case Broker(_) => ObservationAllowed(s, u.config.precision, c);
    case Valuation(_, _) => ProducedAllowed(u, s, c.body);
    case Margin(_) => ProducedAllowed(u, s, c.body);
    case Reserve(_) => HoldAllowed(u, s, c);
    case Stage(_, _) => HoldAllowed(u, s, c);
    case Release(_, _) => HoldAllowed(u, s, c);
    case _ => MoneyAllowed(u, s, c);
  }

  // ----- the final check and the caps -----

  /** No money is missing, and no hold leaks. */
  ghost predicate Solvent(s: State) {
    && s.cash >= 0 && s.marketValue >= 0
    && s.cash >= Total(Remaining(s.reservations)) + Total(MarginReserved(s.margin)) + Total(MarginOccupied(s.margin))
                 + Total(s.receivables)
    && forall k | k in s.reservations ::
         var r := s.reservations[k];
         && r.original == r.remaining + r.consumed + r.released
         && r.remaining >= 0 && r.consumed >= 0 && r.released >= 0
  }

  /** The kinds that let new money or risk in or out. */
  predicate Capped(q: Payload) {
    || q.Reserve? || q.CashChange?
    || (q.Margin? && q.proof.command.action == ReserveMargin)
  }

  ghost predicate Cleared(u: Setup, n: Ledger, q: Payload) {
    && Solvent(n.state)
    && (u.version == 5 ==> ExpandedSizeFits(u, n.state, n.journalBytes))
    && (Capped(q) ==> u.admissionFits(n.state) && CheckpointOf(u, n).Ok? && u.checkpointFits(CheckpointOf(u, n).value))
  }

  lemma {:induction false} SolventExactly(s: State)
    ensures Validate(s) == None <==> Solvent(s)
  {
    if Validate(s) == None {
      forall k | k in s.reservations ensures Balanced(s.reservations[k]) { }
    }
    if Solvent(s) {
      forall k | k in s.reservations ensures Balanced(s.reservations[k]) { }
    }
  }

  lemma {:induction false} ClearedExactly(u: Setup, n: Ledger, q: Payload)
    ensures Gates(u, n, Admission(q)) == None <==> Cleared(u, n, q)
  {
    SolventExactly(n.state);
  }

  // ----- whole runs -----

  /** No entry has this command id. */
  ghost predicate NewId(trace: seq<Entry>, id: Id) { forall k | 0 <= k < |trace| :: trace[k].command.id != id }

  /** A command is journaled exactly when its id is new, the journal has room for it, no entry contradicts it, it
      repeats an entry or the account allows it, and the account after it passes the final check and the caps. */
  lemma {:induction false} JournaledExactly(u: Setup, inputs: seq<Command>, input: Command, c: Command)
    requires input.body.owner == u.config.owner && Normalize(input, u.config.precision) == Ok(c)
    ensures var r := Execute(u, inputs);
            var s, e := r.ledger.state, Decide(u, r.ledger.state, c.body);
            Advance(u, r, input) != r <==>
              && NewId(r.trace, c.id)
              && (Capped(c.body.payload) ==> u.journalFits(r.ledger, c))
              && !Contradicts(r.trace, c.body)
              && (Repeats(r.trace, c.body) || Allowed(u, s, c.body))
              && e.Ok? && Cleared(u, Next(r.ledger, c, e.value), c.body.payload)
  {
    var r := Execute(u, inputs);
    var s, e := r.ledger.state, Decide(u, r.ledger.state, c.body);
    EveryRunKept(u, inputs);
    EveryRunRemembered(u, inputs);
    ReceiptsKnow(r.trace, s.receipts, c.id);
    MemoryMeans(r.trace, s, c.body);
    NormalizeIdempotent(input, u.config.precision);
    AllowedExactly(u, s, c);
    if e.Ok? { ClearedExactly(u, Next(r.ledger, c, e.value), c.body.payload); }
    Grown(u, r, input, c);
  }

  lemma {:induction false} ReceiptsKnow(trace: seq<Entry>, receipts: map<Id, Command>, id: Id)
    requires Receipted(trace, receipts)
    ensures id !in receipts <==> NewId(trace, id)
  {
    if id in receipts { assert HasId(trace, id); }
  }

  lemma {:induction false} Grown(u: Setup, r: Run, input: Command, c: Command)
    requires input.body.owner == u.config.owner && Normalize(input, u.config.precision) == Ok(c)
    ensures var s, e := r.ledger.state, Decide(u, r.ledger.state, c.body);
            Advance(u, r, input) != r <==>
              && c.id !in s.receipts && (Admission(c.body.payload) ==> u.journalFits(r.ledger, c))
              && !Conflicting(s, c.body) && e.Ok?
              && Gates(u, Next(r.ledger, c, e.value), Admission(c.body.payload)) == None
  {
    assert Step(u, r.ledger, input) == Accept(u, r.ledger, c);
  }

  /** Every account that a run passes through is solvent, and every entry of a capped kind was within the caps. */
  lemma {:induction false} EveryEntryCleared(u: Setup, inputs: seq<Command>, k: nat)
    requires k < |Execute(u, inputs).ledger.journal|
    ensures var journal := Execute(u, inputs).ledger.journal;
            var a, b := Execute(u, journal[..k]).ledger, Execute(u, journal[..k + 1]).ledger;
            && Cleared(u, b, journal[k].body.payload)
            && (Capped(journal[k].body.payload) ==> u.journalFits(a, journal[k]))
  {
    var journal := Execute(u, inputs).ledger.journal;
    var a := Execute(u, journal[..k]);
    PrefixRun(u, inputs, k);
    PrefixRun(u, inputs, k + 1);
    NextPrefix(u, journal, k);
    var c, e := AdvanceShape(u, a, journal[k]);
    assert journal[..k + 1][k] == journal[k];
    ClearedExactly(u, Next(a.ledger, c, e), c.body.payload);
  }
}
