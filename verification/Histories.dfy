/** Every figure of an account, told by its journal. */
module Histories {
  import opened Core
  import opened Model
  import opened Transitions
  import opened Frames
  import opened Runs
  import opened Conservation

  // ----- what an entry says -----

  predicate Traded(x: Entry) { Moved(x) && x.command.body.payload.Trade? }
  predicate Valued(x: Entry) { Moved(x) && x.command.body.payload.Valuation? }
  predicate Witnessed(x: Entry) { Moved(x) && x.command.body.payload.Broker? }

  function FillOf(x: Entry): TradeFact
    requires Traded(x)
  {
    x.command.body.payload.fill
  }

  /** Realised result: of a fill, what it says; of a realised or variation margin flow, its amount. */
  function Gain(x: Entry): real {
    if Traded(x) then Analytical(FillOf(x).realizedPnlDelta)
    else if Moved(x) && x.command.body.payload.Economic? && x.command.body.payload.flow.kind != Funding
    then Analytical(x.command.body.payload.flow.amount)
    else 0.0
  }

  /** The entry counts as an economic event. */
  predicate Economical(x: Entry) {
    var q := x.command.body.payload;
    Moved(x) && (q.Trade? || q.CashChange? || q.Economic? || q.Settle? || q.Margin?)
  }

  function TradeSequenceOf(x: Entry): Option<nat> { if Traded(x) then Some(FillOf(x).sequence) else None }
  function RoundingOf(x: Entry): Option<real> {
    if Traded(x) then Some(Analytical(FillOf(x).roundingAdjustment)) else None
  }
  function EvidenceOf(x: Entry): Option<Id> {
    if Traded(x) then Some(FillOf(x).positionEvidence)
    else if Valued(x) then Some(x.command.body.payload.intent.positionEvidence)
    else None
  }
  function VersionOf(x: Entry): Option<nat> {
    if Valued(x) then Some(x.command.body.payload.intent.version) else None
  }
  function ObservationOf(x: Entry): Option<BrokerFact> {
    if Witnessed(x) then Some(x.command.body.payload.observation) else None
  }
  function ObservedSequenceOf(x: Entry): Option<nat> {
    if Witnessed(x) then Some(x.command.body.payload.observation.sequence) else None
  }

  /** What a valuation entry produced. */
  function Produced(u: Setup, x: Entry): Option<ValuationEffect> {
    if Valued(x) && u.value(x.command.body.payload.position, x.command.body.payload.intent).Ok?
    then Some(u.value(x.command.body.payload.position, x.command.body.payload.intent).value)
    else None
  }
  function UnrealizedOf(u: Setup, x: Entry): Option<real> {
    if Traded(x) then Some(Analytical(FillOf(x).unrealizedPnl))
    else if Produced(u, x).Some? then Some(Analytical(Produced(u, x).value.unrealized))
    else None
  }

  /** The market value after an entry: a valuation sets it, a fill moves it. */
  function Worth(u: Setup, x: Entry, before: int): int {
    if Traded(x) then before + FillOf(x).marketValueDelta.coef
    else if Produced(u, x).Some? && Money(Produced(u, x).value.marketValue, u.config.precision).Ok?
    then Money(Produced(u, x).value.marketValue, u.config.precision).value
    else before
  }

  function Or<T>(news: Option<T>, was: Option<T>): Option<T> { if news.Some? then news else was }
  function Last<T>(news: Option<T>, was: T): T { if news.Some? then news.value else was }

  // ----- one entry -----

  /** What each kind of command writes besides cash, claims, holds and margin rows. */
  ghost predicate Effected(u: Setup, s: State, b: Body, e: Effect) {
    var t := e.state;
    match b.payload
    case Trade(f) =>
      if e.status == Applied then
        t == s.(cash := t.cash, fees := t.fees, reservations := t.reservations, receivables := t.receivables,
                realized := s.realized + Analytical(f.realizedPnlDelta),
                marketValue := s.marketValue + f.marketValueDelta.coef, unrealized := Analytical(f.unrealizedPnl),
                roundingAdjustment := Analytical(f.roundingAdjustment), positionEvidence := Some(f.positionEvidence),
                tradeSequence := Some(f.sequence), economicVersion := s.economicVersion + 1)
        && (s.tradeSequence.Some? ==> s.tradeSequence.value < f.sequence) && !Before(b.time, s.now)
      else
        e.status == Stale && t == s.(flags := s.flags + {StaleTrade})
        && ((s.tradeSequence.Some? && f.sequence <= s.tradeSequence.value) || Before(b.time, s.now))
    case Broker(o) =>
      if e.status == Applied then
        t == s.(brokerSequence := Some(o.sequence), broker := Some(o), differences := t.differences, flags := t.flags)
        && (s.brokerSequence.Some? ==> s.brokerSequence.value < o.sequence) && !Before(b.time, s.now)
      else
        e.status == Stale && t == s
        && ((s.brokerSequence.Some? && o.sequence <= s.brokerSequence.value) || Before(b.time, s.now))
    case _ =>
      && !Before(b.time, s.now) && (e.status == Applied || (b.payload.Release? && e.status == Duplicate))
      && QuietlyEffected(u, s, b, e)
  }

  ghost predicate QuietlyEffected(u: Setup, s: State, b: Body, e: Effect) {
    var t := e.state;
    match b.payload
    case CashChange(_) => t == s.(cash := t.cash, economicVersion := s.economicVersion + 1)
    case Economic(f) =>
      t == s.(cash := t.cash, economicVersion := s.economicVersion + 1,
              realized := s.realized + (if f.kind == Funding then 0.0 else Analytical(f.amount)))
    case Settle(_) => t == s.(receivables := t.receivables, economicVersion := s.economicVersion + 1)
    case Margin(_) =>
      t == s.(margin := t.margin, marginOwner := t.marginOwner, economicVersion := s.economicVersion + 1)
    case Valuation(position, i) =>
      && u.value(position, i).Ok? && Money(u.value(position, i).value.marketValue, u.config.precision).Ok?
      && s.valuationVersion < i.version
      && t == s.(marketValue := Money(u.value(position, i).value.marketValue, u.config.precision).value,
                 unrealized := Analytical(u.value(position, i).value.unrealized), valuationVersion := i.version,
                 positionEvidence := Some(i.positionEvidence))
    case _ => t == s.(reservations := t.reservations)
  }

  lemma {:induction false} FillEffected(u: Setup, s: State, c: Command, e: Effect)
    requires c.body.payload.Trade? && Normalize(c, u.config.precision) == Ok(c)
    requires TradeStep(s, u.config.precision, c.body.payload.fill, c.body.time) == Ok(e)
    ensures Effected(u, s, c.body, e)
  {
    var p, f := u.config.precision, c.body.payload.fill;
    CommandFill(c, p);
    if !(NotAfter(f.sequence, s.tradeSequence) || Before(c.body.time, s.now)) { CashLegFrame(s, p, f); }
  }

  lemma {:induction false} ObservationEffected(u: Setup, s: State, b: Body, e: Effect)
    requires b.payload.Broker? && BrokerStep(s, u.config.precision, b.payload.observation, b.time) == Ok(e)
    ensures Effected(u, s, b, e)
  {
    ObservedFrame(s, u.config.precision, b.payload.observation);
  }

  lemma {:induction false} CashEffected(s: State, p: nat, f: CashFact)
    requires CashStep(s, p, f).Ok?
    ensures var t := CashStep(s, p, f).value; t == s.(cash := t.cash, economicVersion := s.economicVersion + 1)
  {
    match f.kind
    case Deposit =>
    case _ =>
  }

  lemma {:induction false} BooksFlow(s: State, amount: int, gain: real)
    ensures var t := BookCashflow(s, amount, gain);
            t == s.(cash := t.cash, economicVersion := s.economicVersion + 1, realized := s.realized + gain)
  {
  }

  lemma {:induction false} FlowEffected(s: State, p: nat, f: EconomicFact)
    requires EconomicStep(s, p, f).Ok? && CanonicalMoney(f.amount, p) == Ok(f.amount)
    ensures var t := EconomicStep(s, p, f).value;
            t == s.(cash := t.cash, economicVersion := s.economicVersion + 1,
                    realized := s.realized + (if f.kind == Funding then 0.0 else Analytical(f.amount)))
  {
    var amount := Money(f.amount, p).value;
    assert Decimal(amount, p) == f.amount;
    BooksFlow(s, amount, if f.kind == Funding then 0.0 else Analytical(f.amount));
  }

  lemma {:induction false} ClaimEffected(s: State, p: nat, f: SettleFact)
    requires SettleStep(s, p, f).Ok?
    ensures var t := SettleStep(s, p, f).value;
            t == s.(receivables := t.receivables, economicVersion := s.economicVersion + 1)
  {
  }

  lemma {:induction false} MoneyEffected(u: Setup, s: State, c: Command, e: Effect)
    requires c.body.payload.CashChange? || c.body.payload.Economic? || c.body.payload.Settle?
    requires Normalize(c, u.config.precision) == Ok(c) && Transition(u, s, c.body) == Ok(e)
    ensures QuietlyEffected(u, s, c.body, e)
  {
    match c.body.payload
    case CashChange(f) => CashEffected(s, u.config.precision, f);
    case Economic(f) => FlowEffected(s, u.config.precision, f);
    case Settle(f) => ClaimEffected(s, u.config.precision, f);
  }

  lemma {:induction false} OthersEffected(u: Setup, s: State, b: Body, e: Effect)
    requires !b.payload.CashChange? && !b.payload.Economic? && !b.payload.Settle?
    requires !b.payload.Trade? && !b.payload.Broker? && Transition(u, s, b) == Ok(e)
    ensures QuietlyEffected(u, s, b, e)
  {
  }

  lemma {:induction false} TransitionEffected(u: Setup, s: State, c: Command, e: Effect)
    requires Normalize(c, u.config.precision) == Ok(c) && Transition(u, s, c.body) == Ok(e)
    ensures Effected(u, s, c.body, e)
  {
    var q := c.body.payload;
    if q.Trade? {
      FillEffected(u, s, c, e);
    } else if q.Broker? {
      ObservationEffected(u, s, c.body, e);
    } else {
      TransitionFrame(u, s, c.body);
      if q.CashChange? || q.Economic? || q.Settle? {
        MoneyEffected(u, s, c, e);
      } else {
        OthersEffected(u, s, c.body, e);
      }
    }
  }

  /** Only the books, the clock and the evidence of fills differ. */
  predicate BooksOnly(s: State, t: State) {
    t == s.(receipts := t.receipts, semantic := t.semantic, sequence := t.sequence, now := t.now,
            positionTrades := t.positionTrades)
  }

  lemma {:induction false} BooksOnlyThrough(s: State, t: State, v: State)
    requires BooksOnly(s, t) && BooksOnly(t, v)
    ensures BooksOnly(s, v)
  {
  }

  lemma {:induction false} EvidenceBooks(s: State, c: Command, status: Status)
    ensures BooksOnly(s, WithEvidence(s, c, status))
  {
  }

  lemma {:induction false} ClockBooks(s: State, time: int, status: Status)
    ensures BooksOnly(s, Clocked(s, time, status))
  {
  }

  lemma {:induction false} IdentityBooks(s: State, receipts: map<Id, Command>, semantic: map<Identity, Body>)
    ensures BooksOnly(s, s.(receipts := receipts, semantic := semantic))
  {
  }

  lemma {:induction false} RecordWritesBooks(c: Command, e: Effect)
    ensures BooksOnly(e.state, Record(c, e))
  {
    var s, t := WithEvidence(e.state, c, e.status), Ticked(c, e);
    EvidenceBooks(e.state, c, e.status);
    ClockBooks(s, c.body.time, e.status);
    BooksOnlyThrough(e.state, s, t);
    IdentityBooks(t, Record(c, e).receipts, Record(c, e).semantic);
    BooksOnlyThrough(e.state, t, Record(c, e));
  }

  ghost predicate FiguresMove(u: Setup, s: State, x: Entry, t: State) {
    && t.realized == s.realized + Gain(x)
    && t.economicVersion == s.economicVersion + Economic1(x)
    && t.roundingAdjustment == Last(RoundingOf(x), s.roundingAdjustment)
    && t.unrealized == Last(UnrealizedOf(u, x), s.unrealized)
    && t.positionEvidence == Or(EvidenceOf(x), s.positionEvidence)
    && t.marketValue == Worth(u, x, s.marketValue)
  }

  function Economic1(x: Entry): int { if Economical(x) then 1 else 0 }

  ghost predicate SequencesMove(s: State, x: Entry, t: State) {
    && t.tradeSequence == Or(TradeSequenceOf(x), s.tradeSequence)
    && t.brokerSequence == Or(ObservedSequenceOf(x), s.brokerSequence)
    && t.broker == Or(ObservationOf(x), s.broker)
    && t.valuationVersion == Last(VersionOf(x), s.valuationVersion)
    && (TradeSequenceOf(x).Some? && s.tradeSequence.Some? ==> s.tradeSequence.value < TradeSequenceOf(x).value)
    && (ObservedSequenceOf(x).Some? && s.brokerSequence.Some? ==> s.brokerSequence.value < ObservedSequenceOf(x).value)
    && (VersionOf(x).Some? ==> s.valuationVersion < VersionOf(x).value)
  }

  ghost predicate EntryMoves(u: Setup, s: State, x: Entry, t: State) {
    FiguresMove(u, s, x, t) && SequencesMove(s, x, t)
  }

  lemma {:induction false} FillEntry(u: Setup, s: State, c: Command, e: Effect)
    requires c.body.payload.Trade? && Effected(u, s, c.body, e)
    ensures EntryMoves(u, s, Entry(c, e.status), e.state)
  {
  }

  lemma {:induction false} ObservationEntry(u: Setup, s: State, c: Command, e: Effect)
    requires c.body.payload.Broker? && Effected(u, s, c.body, e)
    ensures EntryMoves(u, s, Entry(c, e.status), e.state)
  {
  }

  lemma {:induction false} ValuationEntry(u: Setup, s: State, c: Command, e: Effect)
    requires c.body.payload.Valuation? && Effected(u, s, c.body, e)
    ensures EntryMoves(u, s, Entry(c, e.status), e.state)
  {
  }

  lemma {:induction false} FlowEntry(u: Setup, s: State, c: Command, e: Effect)
    requires c.body.payload.Economic? && Effected(u, s, c.body, e)
    ensures EntryMoves(u, s, Entry(c, e.status), e.state)
  {
  }

  lemma {:induction false} EventEntry(u: Setup, s: State, c: Command, e: Effect)
    requires c.body.payload.CashChange? || c.body.payload.Settle? || c.body.payload.Margin?
    requires Effected(u, s, c.body, e)
    ensures EntryMoves(u, s, Entry(c, e.status), e.state)
  {
  }

  lemma {:induction false} HoldEntry(u: Setup, s: State, c: Command, e: Effect)
    requires c.body.payload.Reserve? || c.body.payload.Stage? || c.body.payload.Release?
    requires Effected(u, s, c.body, e)
    ensures EntryMoves(u, s, Entry(c, e.status), e.state)
  {
  }

  lemma {:induction false} DuplicateEntry(u: Setup, s: State, c: Command)
    ensures EntryMoves(u, s, Entry(c, Duplicate), s)
  {
  }

  /** A released hold that answers as a duplicate is left as it was. */
  lemma {:induction false} UnappliedStill(u: Setup, s: State, b: Body, e: Effect)
    requires Transition(u, s, b) == Ok(e) && e.status == Duplicate
    ensures e.state == s
  {
    TransitionFrame(u, s, b);
  }

  lemma {:induction false} EffectMoves(u: Setup, s: State, c: Command, e: Effect)
    requires Effected(u, s, c.body, e)
    requires e.status == Applied || e.status == Stale || (e.status == Duplicate && e.state == s)
    ensures EntryMoves(u, s, Entry(c, e.status), e.state)
  {
    if e.status == Duplicate {
      DuplicateEntry(u, s, c);
    } else if c.body.payload.Trade? {
      FillEntry(u, s, c, e);
    } else if c.body.payload.Broker? {
      ObservationEntry(u, s, c, e);
    } else if c.body.payload.Valuation? {
      ValuationEntry(u, s, c, e);
    } else if c.body.payload.Economic? {
      FlowEntry(u, s, c, e);
    } else if c.body.payload.Reserve? || c.body.payload.Stage? || c.body.payload.Release? {
      HoldEntry(u, s, c, e);
    } else {
      EventEntry(u, s, c, e);
    }
  }

  lemma {:induction false} RecordedMoves(u: Setup, s: State, c: Command, e: Effect)
    requires EntryMoves(u, s, Entry(c, e.status), e.state)
    ensures EntryMoves(u, s, Entry(c, e.status), Record(c, e))
  {
    RecordWritesBooks(c, e);
  }

  lemma {:induction false} CommitMoves(u: Setup, s: State, c: Command, e: Effect)
    requires Commits(u, s, c, e)
    ensures EntryMoves(u, s, Entry(c, e.status), Record(c, e))
  {
    if Known(s, c.body) {
      DuplicateEntry(u, s, c);
    } else {
      TransitionFrame(u, s, c.body);
      TransitionEffected(u, s, c, e);
      if e.status == Duplicate { UnappliedStill(u, s, c.body, e); }
      EffectMoves(u, s, c, e);
    }
    RecordedMoves(u, s, c, e);
  }

  // ----- whole runs -----

  ghost function Gained(trace: seq<Entry>): real {
    if trace == [] then 0.0 else Gained(trace[..|trace| - 1]) + Gain(trace[|trace| - 1])
  }

  ghost function MarketValue(u: Setup, trace: seq<Entry>): int {
    if trace == [] then 0 else Worth(u, trace[|trace| - 1], MarketValue(u, trace[..|trace| - 1]))
  }

  ghost function Unrealizing(u: Setup): Entry -> Option<real> { (x: Entry) => UnrealizedOf(u, x) }

  /** Realised results and economic events add up; the other figures are what was said last, and the market value is
      the last valuation's, moved by the fills since. */
  ghost predicate FiguresTold(u: Setup, trace: seq<Entry>, s: State) {
    && s.realized == Gained(trace)
    && s.economicVersion == Sum(trace, Economic1)
    && s.roundingAdjustment == Last(Latest(trace, RoundingOf), 0.0)
    && s.unrealized == Last(Latest(trace, Unrealizing(u)), 0.0)
    && s.positionEvidence == Latest(trace, EvidenceOf)
    && s.marketValue == MarketValue(u, trace)
  }

  lemma {:induction false} FiguresGrow(u: Setup, trace: seq<Entry>, s: State, x: Entry, t: State)
    requires FiguresTold(u, trace, s) && FiguresMove(u, s, x, t)
    ensures FiguresTold(u, trace + [x], t)
  {
    assert (trace + [x])[..|trace|] == trace;
    SumAppend(trace, x, Economic1);
    LatestAppend(trace, x, RoundingOf);
    LatestAppend(trace, x, Unrealizing(u));
    LatestAppend(trace, x, EvidenceOf);
  }

  lemma {:induction false} CommitFigures(u: Setup, r: Run, c: Command, e: Effect)
    requires FiguresTold(u, r.trace, r.ledger.state) && Grows(u, r.ledger, c, e)
    ensures var n := NextRun(r, c, e); FiguresTold(u, n.trace, n.ledger.state)
  {
    GrowthCommits(u, r.ledger, c, e);
    CommitMoves(u, r.ledger.state, c, e);
    FiguresGrow(u, r.trace, r.ledger.state, Entry(c, e.status), Record(c, e));
  }

  /** Every figure of a reachable account is told by its journal. */
  lemma {:induction false} EveryFigureTold(u: Setup, inputs: seq<Command>)
    ensures var r := Execute(u, inputs); FiguresTold(u, r.trace, r.ledger.state)
  {
    var law := (r: Run) => FiguresTold(u, r.trace, r.ledger.state);
    forall r, c, e | law(r) && Grows(u, r.ledger, c, e) ensures law(NextRun(r, c, e)) {
      CommitFigures(u, r, c, e);
    }
    EveryRun(u, inputs, law);
  }

  /** Each entry that has a number has a greater one than all before it. */
  ghost predicate Rising(trace: seq<Entry>, key: Entry -> Option<nat>) {
    forall i, j | 0 <= i < j < |trace| && key(trace[i]).Some? && key(trace[j]).Some? ::
      key(trace[i]).value < key(trace[j]).value
  }

  lemma {:induction false} LatestTops(trace: seq<Entry>, key: Entry -> Option<nat>, i: nat)
    requires Rising(trace, key) && i < |trace| && key(trace[i]).Some?
    ensures Latest<nat>(trace, key).Some? && key(trace[i]).value <= Latest<nat>(trace, key).value
  {
    var n := |trace| - 1;
    if key(trace[n]).None? {
      assert trace[..n][i] == trace[i];
      LatestTops(trace[..n], key, i);
    }
  }

  lemma {:induction false} RisingAppend(trace: seq<Entry>, x: Entry, key: Entry -> Option<nat>)
    requires Rising(trace, key)
    requires key(x).Some? && Latest<nat>(trace, key).Some? ==> Latest<nat>(trace, key).value < key(x).value
    ensures Rising(trace + [x], key)
  {
    var n := trace + [x];
    forall i, j | 0 <= i < j < |n| && key(n[i]).Some? && key(n[j]).Some?
      ensures key(n[i]).value < key(n[j]).value
    {
      if j == |trace| { LatestTops(trace, key, i); }
    }
  }

  /** Sequences and versions are the last ones applied, and each kind only ever rises. */
  ghost predicate SequencesTold(trace: seq<Entry>, s: State) {
    && s.tradeSequence == Latest<nat>(trace, TradeSequenceOf) && Rising(trace, TradeSequenceOf)
    && s.brokerSequence == Latest<nat>(trace, ObservedSequenceOf) && Rising(trace, ObservedSequenceOf)
    && s.broker == Latest(trace, ObservationOf)
    && s.valuationVersion == Last(Latest<nat>(trace, VersionOf), 0) && Rising(trace, VersionOf)
  }

  lemma {:induction false} SequencesGrow(trace: seq<Entry>, s: State, x: Entry, t: State)
    requires SequencesTold(trace, s) && SequencesMove(s, x, t)
    ensures SequencesTold(trace + [x], t)
  {
    LatestAppend<nat>(trace, x, TradeSequenceOf);
    LatestAppend<nat>(trace, x, ObservedSequenceOf);
    LatestAppend(trace, x, ObservationOf);
    LatestAppend<nat>(trace, x, VersionOf);
    RisingAppend(trace, x, TradeSequenceOf);
    RisingAppend(trace, x, ObservedSequenceOf);
    RisingAppend(trace, x, VersionOf);
  }

  lemma {:induction false} CommitSequences(u: Setup, r: Run, c: Command, e: Effect)
    requires SequencesTold(r.trace, r.ledger.state) && Grows(u, r.ledger, c, e)
    ensures var n := NextRun(r, c, e); SequencesTold(n.trace, n.ledger.state)
  {
    GrowthCommits(u, r.ledger, c, e);
    CommitMoves(u, r.ledger.state, c, e);
    SequencesGrow(r.trace, r.ledger.state, Entry(c, e.status), Record(c, e));
  }

  lemma {:induction false} EverySequenceTold(u: Setup, inputs: seq<Command>)
    ensures var r := Execute(u, inputs); SequencesTold(r.trace, r.ledger.state)
  {
    var law := (r: Run) => SequencesTold(r.trace, r.ledger.state);
    forall r, c, e | law(r) && Grows(u, r.ledger, c, e) ensures law(NextRun(r, c, e)) {
      CommitSequences(u, r, c, e);
    }
    EveryRun(u, inputs, law);
  }
}
