/** A redelivery under a new command id is recorded and otherwise changes nothing, now or later. */
module Redelivery {
  import opened Core
  import opened Model
  import opened Codec
  import opened Transitions
  import opened Frames
  import opened Runs
  import opened Books

  /** The same account but for its receipts. */
  function With(s: State, receipts: map<Id, Command>): State { s.(receipts := receipts) }

  function Relabel(r: Result<State, Error>, receipts: map<Id, Command>): Result<State, Error> {
    match r case Ok(s) => Ok(With(s, receipts)) case Err(e) => Err(e)
  }

  function RelabelOutcome(r: Outcome, receipts: map<Id, Command>): Outcome {
    match r case Ok(e) => Ok(Effect(With(e.state, receipts), e.status)) case Err(e) => Err(e)
  }

  // ----- no transition reads or writes receipts -----

  lemma {:induction false} HoldsIgnoreReceipts(s: State, p: nat, h: ReserveFact, q: map<Id, Command>)
    ensures Done(ReserveStep(With(s, q), p, h)) == RelabelOutcome(Done(ReserveStep(s, p, h)), q)
  {
    assert Withdrawable(With(s, q)) == Withdrawable(s);
    assert OrderTaken(With(s, q), h.order) <==> OrderTaken(s, h.order);
  }

  lemma {:induction false} StageIgnoresReceipts(s: State, id: Id, k: StageKind, q: map<Id, Command>)
    ensures Done(StageStep(With(s, q), id, k)) == RelabelOutcome(Done(StageStep(s, id, k)), q)
  {
  }

  lemma {:induction false} ReleaseIgnoresReceipts(s: State, id: Id, k: Closing, q: map<Id, Command>)
    ensures ReleaseStep(With(s, q), id, k) == RelabelOutcome(ReleaseStep(s, id, k), q)
  {
  }

  lemma {:induction false} ConsumeIgnoresReceipts(s: State, t: TradeFact, debit: int, q: map<Id, Command>)
    ensures ConsumeStep(With(s, q), t, debit) == Relabel(ConsumeStep(s, t, debit), q)
  {
  }

  function RelabelLeg(r: Result<Leg, Error>, receipts: map<Id, Command>): Result<Leg, Error> {
    match r case Ok(leg) => Ok(Leg(With(leg.state, receipts), leg.credit)) case Err(e) => Err(e)
  }

  lemma {:induction false} BuyIgnoresReceipts(
    s: State, t: TradeFact, notional: int, charges: int, fee: int, q: map<Id, Command>)
    ensures BuyLeg(With(s, q), t, notional, charges, fee) == RelabelLeg(BuyLeg(s, t, notional, charges, fee), q)
  {
    ConsumeIgnoresReceipts(s, t, notional + charges, q);
  }

  lemma {:induction false} LegIgnoresReceipts(s: State, p: nat, t: TradeFact, q: map<Id, Command>)
    ensures CashLeg(With(s, q), p, t) == RelabelLeg(CashLeg(s, p, t), q)
  {
    var n, c, r := Nonnegative(t.notional, p), Nonnegative(t.charges, p), Nonnegative(t.rebates, p);
    if n.Ok? && c.Ok? && r.Ok? && t.side == Buy { BuyIgnoresReceipts(s, t, n.value, c.value, c.value - r.value, q); }
  }

  lemma {:induction false} BookIgnoresReceipts(s: State, t: TradeFact, credit: int, delta: int, q: map<Id, Command>)
    ensures BookFill(With(s, q), t, credit, delta) == With(BookFill(s, t, credit, delta), q)
  {
  }

  lemma {:induction false} TradeIgnoresReceipts(s: State, p: nat, t: TradeFact, time: int, q: map<Id, Command>)
    ensures TradeStep(With(s, q), p, t, time) == RelabelOutcome(TradeStep(s, p, t, time), q)
  {
    LegIgnoresReceipts(s, p, t, q);
    var leg, delta := CashLeg(s, p, t), Money(t.marketValueDelta, p);
    if leg.Ok? && delta.Ok? { BookIgnoresReceipts(leg.value.state, t, leg.value.credit, delta.value, q); }
  }

  lemma {:induction false} CashIgnoresReceipts(s: State, p: nat, c: CashFact, q: map<Id, Command>)
    ensures Done(CashStep(With(s, q), p, c)) == RelabelOutcome(Done(CashStep(s, p, c)), q)
  {
    WithdrawableIgnoresReceipts(s, q);
    var amount := Nonnegative(c.amount, p);
    if amount.Ok? {
      BookIgnoresCashReceipts(s, amount.value, q);
      BookIgnoresCashReceipts(s, -amount.value, q);
    }
  }

  lemma {:induction false} WithdrawableIgnoresReceipts(s: State, q: map<Id, Command>)
    ensures Withdrawable(With(s, q)) == Withdrawable(s)
  {
  }

  lemma {:induction false} BookIgnoresCashReceipts(s: State, amount: int, q: map<Id, Command>)
    ensures BookCash(With(s, q), amount) == With(BookCash(s, amount), q)
  {
  }

  lemma {:induction false} CashflowIgnoresReceipts(s: State, amount: int, gain: real, q: map<Id, Command>)
    ensures BookCashflow(With(s, q), amount, gain) == With(BookCashflow(s, amount, gain), q)
  {
  }

  lemma {:induction false} EconomicIgnoresReceipts(s: State, p: nat, f: EconomicFact, q: map<Id, Command>)
    ensures Done(EconomicStep(With(s, q), p, f)) == RelabelOutcome(Done(EconomicStep(s, p, f)), q)
  {
    var amount := Money(f.amount, p);
    if amount.Ok? {
      CashflowIgnoresReceipts(s, amount.value, 0.0, q);
      CashflowIgnoresReceipts(s, amount.value, Analytical(Decimal(amount.value, p)), q);
    }
  }

  lemma {:induction false} SettleIgnoresReceipts(s: State, p: nat, f: SettleFact, q: map<Id, Command>)
    ensures Done(SettleStep(With(s, q), p, f)) == RelabelOutcome(Done(SettleStep(s, p, f)), q)
  {
  }

  lemma {:induction false} ValuationIgnoresReceipts(
    u: Setup, s: State, position: Json, i: Intent, time: int, q: map<Id, Command>)
    ensures Done(ValuationStep(u, With(s, q), position, i, time))
         == RelabelOutcome(Done(ValuationStep(u, s, position, i, time)), q)
  {
  }

  lemma {:induction false} MarginIgnoresReceipts(u: Setup, s: State, proof: MarginProof, q: map<Id, Command>)
    ensures Done(MarginStep(u, With(s, q), proof)) == RelabelOutcome(Done(MarginStep(u, s, proof)), q)
  {
    assert Withdrawable(With(s, q)) == Withdrawable(s);
  }

  lemma {:induction false} DifferencesIgnoreReceipts(s: State, p: nat, b: BrokerFact, q: map<Id, Command>)
    ensures Differences(With(s, q), p, b) == Differences(s, p, b)
  {
    assert Withdrawable(With(s, q)) == Withdrawable(s) && Available(With(s, q)) == Available(s);
  }

  lemma {:induction false} ObservedIgnoresReceipts(s: State, p: nat, b: BrokerFact, q: map<Id, Command>)
    ensures Observed(With(s, q), p, b) == With(Observed(s, p, b), q)
  {
    DifferencesIgnoreReceipts(s, p, b, q);
    assert FlagsAfter(With(s, q), p, b) == FlagsAfter(s, p, b);
  }

  lemma {:induction false} BrokerIgnoresReceipts(s: State, p: nat, b: BrokerFact, time: int, q: map<Id, Command>)
    ensures BrokerStep(With(s, q), p, b, time) == RelabelOutcome(BrokerStep(s, p, b, time), q)
  {
    ObservedIgnoresReceipts(s, p, b, q);
  }

  lemma {:induction false} FactsIgnoreReceipts(u: Setup, s: State, b: Body, q: map<Id, Command>)
    requires b.payload.Trade? || b.payload.Broker? || b.payload.Release? || b.payload.Stage? || b.payload.Reserve?
    ensures Transition(u, With(s, q), b) == RelabelOutcome(Transition(u, s, b), q)
  {
    var p := u.config.precision;
    match b.payload
    case Reserve(h) => HoldsIgnoreReceipts(s, p, h, q);
    case Stage(id, k) => StageIgnoresReceipts(s, id, k, q);
    case Release(id, k) => ReleaseIgnoresReceipts(s, id, k, q);
    case Trade(t) => TradeIgnoresReceipts(s, p, t, b.time, q);
    case Broker(o) => BrokerIgnoresReceipts(s, p, o, b.time, q);
  }

  lemma {:induction false} MoneyIgnoresReceipts(u: Setup, s: State, b: Body, q: map<Id, Command>)
    requires b.payload.Margin? || b.payload.CashChange? || b.payload.Economic? || b.payload.Settle?
             || b.payload.Valuation?
    ensures Transition(u, With(s, q), b) == RelabelOutcome(Transition(u, s, b), q)
  {
    var p := u.config.precision;
    match b.payload
    case Margin(proof) => MarginIgnoresReceipts(u, s, proof, q);
    case CashChange(c) => CashIgnoresReceipts(s, p, c, q);
    case Economic(f) => EconomicIgnoresReceipts(s, p, f, q);
    case Settle(f) => SettleIgnoresReceipts(s, p, f, q);
    case Valuation(position, i) => ValuationIgnoresReceipts(u, s, position, i, b.time, q);
  }

  lemma {:induction false} TransitionIgnoresReceipts(u: Setup, s: State, b: Body, q: map<Id, Command>)
    ensures Transition(u, With(s, q), b) == RelabelOutcome(Transition(u, s, b), q)
  {
    if b.payload.Trade? || b.payload.Broker? || b.payload.Release? || b.payload.Stage? || b.payload.Reserve? {
      FactsIgnoreReceipts(u, s, b, q);
    } else {
      MoneyIgnoresReceipts(u, s, b, q);
    }
  }

  // ----- two accounts that differ by one receipt -----

  /** `t` is `s` with one more receipt, for `x`. */
  predicate Twin(s: State, t: State, x: Command) {
    x.id !in s.receipts && t == With(s, s.receipts[x.id := x])
  }

  /** Refusals that come from a resource limit and not from the command's economics. */
  predicate LimitError(e: Error) {
    e in {JournalBound, CheckpointBound, ResourceBound, CheckpointSchema, FingerprintInvalid, PositionConflict,
          PositionDigest}
  }

  predicate Limited<T>(r: Result<T, Error>) { r.Err? && LimitError(r.error) }

  lemma {:induction false} GatesBeyondValidate(u: Setup, m: Ledger, admission: bool)
    ensures Gates(u, m, admission).Some? ==>
              Gates(u, m, admission) == Validate(m.state) || LimitError(Gates(u, m, admission).value)
    ensures Validate(m.state).Some? ==> Gates(u, m, admission) == Validate(m.state)
  {
    CheckpointErrors(u, m);
  }

  lemma {:induction false} CheckpointErrors(u: Setup, m: Ledger)
    ensures CheckpointOf(u, m).Err? ==> LimitError(CheckpointOf(u, m).error)
  {
    if u.version == 5 { CompressErrors(m.journal); }
  }

  lemma {:induction false} CompressErrors(journal: seq<Command>)
    ensures Compress(journal).Err? ==> LimitError(Compress(journal).error)
  {
    if journal != [] { CompressErrors(journal[..|journal| - 1]); }
  }

  lemma {:induction false} ValidateTwin(s: State, q: map<Id, Command>)
    ensures Validate(With(s, q)) == Validate(s)
  {
    assert Withdrawable(With(s, q)) == Withdrawable(s);
  }

  lemma {:induction false} ClockIgnoresReceipts(s: State, time: int, status: Status, q: map<Id, Command>)
    ensures Clocked(With(s, q), time, status) == With(Clocked(s, time, status), q)
    ensures Clocked(s, time, status).receipts == s.receipts
  {
  }

  lemma {:induction false} EvidenceIgnoresReceipts(s: State, c: Command, status: Status, q: map<Id, Command>)
    ensures WithEvidence(With(s, q), c, status) == With(WithEvidence(s, c, status), q)
    ensures WithEvidence(s, c, status).receipts == s.receipts
  {
  }

  lemma {:induction false} TickedTwin(c: Command, e: Effect, q: map<Id, Command>)
    ensures Ticked(c, Effect(With(e.state, q), e.status)) == With(Ticked(c, e), q)
    ensures Ticked(c, e).receipts == e.state.receipts
  {
    EvidenceIgnoresReceipts(e.state, c, e.status, q);
    ClockIgnoresReceipts(WithEvidence(e.state, c, e.status), c.body.time, e.status, q);
  }

  lemma {:induction false} RecordTwin(c: Command, e: Effect, x: Command)
    requires x.id !in e.state.receipts && c.id != x.id
    ensures Twin(Record(c, e), Record(c, Effect(With(e.state, e.state.receipts[x.id := x]), e.status)), x)
  {
    var q := e.state.receipts;
    TickedTwin(c, e, q[x.id := x]);
    assert q[x.id := x][c.id := c] == q[c.id := c][x.id := x];
  }

  lemma {:induction false} DecideTwin(u: Setup, s: State, t: State, x: Command, b: Body)
    requires Twin(s, t, x)
    ensures Decide(u, t, b) == RelabelOutcome(Decide(u, s, b), t.receipts)
    ensures Conflicting(t, b) <==> Conflicting(s, b)
    ensures Decide(u, s, b).Ok? ==> Decide(u, s, b).value.state.receipts == s.receipts
  {
    TransitionIgnoresReceipts(u, s, b, t.receipts);
    if Transition(u, s, b).Ok? { TransitionFrame(u, s, b); }
  }

  /** What a command did to two ledgers: nothing to either, or the same entry appended to both. */
  ghost predicate SameMove(m: Ledger, m': Ledger, n: Ledger, n': Ledger, x: Command, c: Command) {
    && Twin(m'.state, n'.state, x)
    && ((m' == m && n' == n) || (m'.journal == m.journal + [c] && n'.journal == n.journal + [c]))
  }

  /** A command meets the same fate on twins as long as no limit is hit. */
  lemma {:induction false} AcceptTwin(u: Setup, m: Ledger, n: Ledger, x: Command, c: Command)
    requires Twin(m.state, n.state, x) && c.id != x.id
    requires !Limited(Accept(u, m, c)) && !Limited(Accept(u, n, c))
    ensures Accept(u, m, c).Ok? <==> Accept(u, n, c).Ok?
    ensures Accept(u, m, c).Ok? ==>
              && Accept(u, m, c).value.status == Accept(u, n, c).value.status
              && SameMove(m, Accept(u, m, c).value.ledger, n, Accept(u, n, c).value.ledger, x, c)
  {
    DecideTwin(u, m.state, n.state, x, c.body);
    var d := Decide(u, m.state, c.body);
    if c.id !in m.state.receipts && !Conflicting(m.state, c.body) && d.Ok? {
      var e := d.value;
      var f := Decide(u, n.state, c.body).value;
      RecordTwin(c, e, x);
      var a, b := Append(m, c, Record(c, e)), Append(n, c, Record(c, f));
      ValidateTwin(a.state, b.state.receipts);
      GatesBeyondValidate(u, a, Admission(c.body.payload));
      GatesBeyondValidate(u, b, Admission(c.body.payload));
    }
  }

  // ----- runs -----

  /** Two runs that differ by one recorded redelivery, the `k`-th entry of the second. */
  ghost predicate TwinRuns(a: Run, b: Run, x: Command, k: nat) {
    && Twin(a.ledger.state, b.ledger.state, x)
    && k <= |a.trace|
    && b.trace == a.trace[..k] + [Entry(x, Duplicate)] + a.trace[k..]
  }

  lemma {:induction false} InsertEarlier(s: seq<Entry>, k: nat, x: Entry, y: Entry)
    requires k <= |s|
    ensures s[..k] + [x] + s[k..] + [y] == (s + [y])[..k] + [x] + (s + [y])[k..]
  {
  }

  lemma {:induction false} AdvanceByAccept(u: Setup, r: Run, input: Command, c: Command)
    requires input.body.owner == u.config.owner && Normalize(input, u.config.precision) == Ok(c)
    ensures var a := Accept(u, r.ledger, c);
            && (a.Err? || a.value.ledger == r.ledger ==> Advance(u, r, input) == r)
            && (a.Ok? && a.value.ledger.journal == r.ledger.journal + [c] ==>
                  Advance(u, r, input) == Run(a.value.ledger, r.trace + [Entry(c, a.value.status)]))
  {
    assert Step(u, r.ledger, input) == Accept(u, r.ledger, c);
  }

  lemma {:induction false} AdvanceTwin(u: Setup, a: Run, b: Run, x: Command, k: nat, input: Command)
    requires TwinRuns(a, b, x, k) && input.id != x.id
    requires !Limited(Step(u, a.ledger, input)) && !Limited(Step(u, b.ledger, input))
    ensures TwinRuns(Advance(u, a, input), Advance(u, b, input), x, k)
  {
    if input.body.owner == u.config.owner && Normalize(input, u.config.precision).Ok? {
      var c := Normalize(input, u.config.precision).value;
      AcceptTwin(u, a.ledger, b.ledger, x, c);
      AdvanceByAccept(u, a, input, c);
      AdvanceByAccept(u, b, input, c);
      var p := Accept(u, a.ledger, c);
      if p.Ok? { InsertEarlier(a.trace, k, Entry(x, Duplicate), Entry(c, p.value.status)); }
    }
  }

  /** No step of `inputs`, continued from `r`, is refused by a resource limit. */
  ghost predicate WithinLimits(u: Setup, r: Run, inputs: seq<Command>) {
    inputs == [] ||
    (var n := |inputs| - 1;
     WithinLimits(u, r, inputs[..n]) && !Limited(Step(u, Continue(u, r, inputs[..n]).ledger, inputs[n])))
  }

  lemma {:induction false} ContinueTwin(u: Setup, a: Run, b: Run, x: Command, k: nat, rest: seq<Command>)
    requires TwinRuns(a, b, x, k)
    requires forall i :: 0 <= i < |rest| ==> rest[i].id != x.id
    requires WithinLimits(u, a, rest) && WithinLimits(u, b, rest)
    ensures TwinRuns(Continue(u, a, rest), Continue(u, b, rest), x, k)
    decreases |rest|
  {
    if rest != [] {
      var n := |rest| - 1;
      ContinueTwin(u, a, b, x, k, rest[..n]);
      AdvanceTwin(u, Continue(u, a, rest[..n]), Continue(u, b, rest[..n]), x, k, rest[n]);
    }
  }

  /** `x` carries, under its own command id, the content of an identity-bearing command already journaled. */
  ghost predicate Redelivers(u: Setup, r: Run, x: Command, k: nat) {
    && Normalize(x, u.config.precision).Ok? && x.id !in r.ledger.state.receipts
    && k < |r.trace| && r.trace[k].command.body == Normalize(x, u.config.precision).value.body
    && !r.trace[k].command.body.payload.Stage? && !r.trace[k].command.body.payload.Release?
  }

  lemma {:induction false} RedeliveryKnown(s: State, b: Body)
    requires Aliases(b.payload) != {}
    requires forall a :: a in Aliases(b.payload) ==> a in s.semantic && s.semantic[a] == b
    ensures Known(s, b) && !Conflicting(s, b)
    ensures s.semantic + (map a | a in Aliases(b.payload) :: b) == s.semantic
  {
    var a :| a in Aliases(b.payload);
    assert a in s.semantic;
  }

  lemma {:induction false} RedeliveryAccept(u: Setup, m: Ledger, c: Command)
    requires c.id !in m.state.receipts && Validate(m.state) == None && Aliases(c.body.payload) != {}
    requires forall a :: a in Aliases(c.body.payload) ==> a in m.state.semantic && m.state.semantic[a] == c.body
    requires !Limited(Accept(u, m, c))
    ensures Record(c, Effect(m.state, Duplicate)) == With(m.state, m.state.receipts[c.id := c])
    ensures Accept(u, m, c) == Ok(Reply(Append(m, c, With(m.state, m.state.receipts[c.id := c])), Duplicate))
  {
    RedeliveryKnown(m.state, c.body);
    var s := With(m.state, m.state.receipts[c.id := c]);
    assert Record(c, Effect(m.state, Duplicate)) == s;
    ValidateTwin(m.state, s.receipts);
    GatesBeyondValidate(u, Append(m, c, s), Admission(c.body.payload));
  }

  lemma {:induction false} BoundAt(trace: seq<Entry>, semantic: map<Identity, Body>, k: nat)
    requires Bound(trace, semantic) && k < |trace|
    ensures forall a :: a in Claims(trace[k]) ==> a in semantic && semantic[a] == trace[k].command.body
  {
  }

  lemma {:induction false} KeptParts(u: Setup, r: Run)
    requires Kept(u, r)
    ensures Bound(r.trace, r.ledger.state.semantic) && Validate(r.ledger.state) == None
  {
  }

  lemma {:induction false} KeptOwner(u: Setup, r: Run, k: nat)
    requires Kept(u, r) && k < |r.trace|
    ensures r.trace[k].command.body.owner == u.config.owner
  {
    assert Canonical(u, r.trace[k].command);
  }

  lemma {:induction false} StepAccepts(u: Setup, m: Ledger, x: Command, c: Command)
    requires x.body.owner == u.config.owner && Normalize(x, u.config.precision) == Ok(c)
    ensures Step(u, m, x) == Accept(u, m, c)
  {
  }

  lemma {:induction false} TwinAppended(r: Run, n: Run, c: Command)
    requires Twin(r.ledger.state, n.ledger.state, c) && n.trace == r.trace + [Entry(c, Duplicate)]
    ensures TwinRuns(r, n, c, |r.trace|)
  {
    assert r.trace[..|r.trace|] + [Entry(c, Duplicate)] + r.trace[|r.trace|..] == r.trace + [Entry(c, Duplicate)];
  }

  /** The redelivery itself: answered Duplicate, recorded, and nothing else. */
  lemma {:induction false} RedeliveryStep(u: Setup, r: Run, x: Command, k: nat)
    requires Bound(r.trace, r.ledger.state.semantic) && Validate(r.ledger.state) == None
    requires Redelivers(u, r, x, k) && r.trace[k].command.body.owner == u.config.owner
    requires !Limited(Step(u, r.ledger, x))
    ensures TwinRuns(r, Advance(u, r, x), Normalize(x, u.config.precision).value, |r.trace|)
  {
    var c := Normalize(x, u.config.precision).value;
    BoundAt(r.trace, r.ledger.state.semantic, k);
    StepAccepts(u, r.ledger, x, c);
    RedeliveryAccept(u, r.ledger, c);
    AdvanceByAccept(u, r, x, c);
    TwinAppended(r, Advance(u, r, x), c);
  }

  /** Inserting a redelivery anywhere after its first acceptance changes one receipt and one journal entry; the rest
      of the run gets the same answers and reaches the same account, while no limit is hit. */
  lemma {:induction false} RedeliveryInsensitive(
    u: Setup, before: seq<Command>, x: Command, k: nat, rest: seq<Command>)
    requires Redelivers(u, Execute(u, before), x, k)
    requires forall i :: 0 <= i < |rest| ==> rest[i].id != x.id
    requires WithinLimits(u, Execute(u, before), [x] + rest) && WithinLimits(u, Execute(u, before), rest)
    ensures TwinRuns(Execute(u, before + rest), Execute(u, before + [x] + rest),
                     Normalize(x, u.config.precision).value, |Execute(u, before).trace|)
  {
    var r := Execute(u, before);
    var c := Normalize(x, u.config.precision).value;
    EveryRunKept(u, before);
    KeptParts(u, r);
    KeptOwner(u, r, k);
    FirstWithin(u, r, x, rest);
    RedeliveryStep(u, r, x, k);
    var s := Advance(u, r, x);
    ContinueTwin(u, r, s, c, |r.trace|, rest);
    ExecuteContinues(u, before, rest);
    ExecuteContinues(u, before + [x], rest);
    ExecuteOne(u, before, x);
  }

  lemma {:induction false} FirstWithin(u: Setup, r: Run, x: Command, rest: seq<Command>)
    requires WithinLimits(u, r, [x] + rest)
    ensures !Limited(Step(u, r.ledger, x)) && WithinLimits(u, Advance(u, r, x), rest)
    ensures Continue(u, r, [x] + rest) == Continue(u, Advance(u, r, x), rest)
    decreases |rest|
  {
    var all := [x] + rest;
    if rest == [] {
      assert all[..0] == [] && all[0] == x;
    } else {
      var n := |rest| - 1;
      assert all[..|all| - 1] == [x] + rest[..n];
      FirstWithin(u, r, x, rest[..n]);
    }
  }
}
