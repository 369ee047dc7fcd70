/** Reconciliation gating: a conflict or a stale trade freezes new risk until it is provably cleared, if ever. */
module Reconciliation {
  import opened Core
  import opened Model
  import opened Transitions
  import opened Frames
  import opened Runs
  import opened Conservation

  /** The conflict flag says exactly that the last comparison found differences. */
  predicate FlagMeaning(s: State) { LocalConflict in s.flags <==> s.differences != [] }

  /** A verified observation, taken at the account's own sequence, that agrees on all five figures. */
  ghost predicate Clears(u: Setup, s: State, b: BrokerFact) {
    && b.quality == Verified && b.basisSequence == s.sequence
    && b.cash == Decimal(s.cash, u.config.precision)
    && b.reserved == Decimal(Reserved(s), u.config.precision)
    && b.tradeAvailable == Decimal(Available(s), u.config.precision)
    && b.withdrawable == Decimal(Withdrawable(s), u.config.precision)
    && b.equity == Decimal(Equity(s), u.config.precision)
  }

  lemma {:induction false} NoneDisagree(rows: seq<Row>)
    ensures Disagreeing(rows) == [] <==> forall i :: 0 <= i < |rows| ==> rows[i].observed == rows[i].own
  {
    if rows != [] {
      var n := |rows| - 1;
      NoneDisagree(rows[..n]);
      assert forall i :: 0 <= i < n ==> rows[..n][i] == rows[i];
    }
  }

  lemma {:induction false} RowsAgree(
    b: BrokerFact, p: nat, cash: int, reserved: int, available: int, withdrawable: int, equity: int)
    ensures Disagreeing(Rows(b, p, cash, reserved, available, withdrawable, equity)) == [] <==>
              && b.cash == Decimal(cash, p) && b.reserved == Decimal(reserved, p)
              && b.tradeAvailable == Decimal(available, p) && b.withdrawable == Decimal(withdrawable, p)
              && b.equity == Decimal(equity, p)
  {
    var rows := Rows(b, p, cash, reserved, available, withdrawable, equity);
    NoneDisagree(rows);
    assert |rows| == 5;
    assert rows[0].figure == CashFigure && rows[1].figure == ReservedFigure && rows[2].figure == TradeAvailableFigure;
    assert rows[3].figure == WithdrawableFigure && rows[4].figure == EquityFigure;
  }

  lemma {:induction false} NoDifferences(u: Setup, s: State, b: BrokerFact)
    ensures Differences(s, u.config.precision, b) == [] && Proven(s, b) <==> Clears(u, s, b)
  {
    RowsAgree(b, u.config.precision, s.cash, Reserved(s), Available(s), Withdrawable(s), Equity(s));
  }

  /** How one transition may move the flags. */
  ghost predicate FlagMoves(u: Setup, s: State, b: Body, e: Effect) {
    && FlagMeaning(e.state)
    && (StaleTrade in s.flags ==> StaleTrade in e.state.flags)
    && (b.payload.Trade? && e.status == Stale ==> StaleTrade in e.state.flags)
    && (LocalConflict in s.flags && LocalConflict !in e.state.flags ==>
          b.payload.Broker? && e.status == Applied && Clears(u, s, b.payload.observation))
  }

  lemma {:induction false} TradeFlags(u: Setup, s: State, b: Body, e: Effect)
    requires FlagMeaning(s) && b.payload.Trade? && TradeStep(s, u.config.precision, b.payload.fill, b.time) == Ok(e)
    ensures FlagMoves(u, s, b, e)
  {
    TradeFrame(s, u.config.precision, b.payload.fill, b.time);
  }

  lemma {:induction false} BrokerFlags(u: Setup, s: State, b: Body, e: Effect)
    requires FlagMeaning(s) && b.payload.Broker?
    requires BrokerStep(s, u.config.precision, b.payload.observation, b.time) == Ok(e)
    ensures FlagMoves(u, s, b, e)
  {
    NoDifferences(u, s, b.payload.observation);
  }

  lemma {:induction false} TransitionFlags(u: Setup, s: State, b: Body, e: Effect)
    requires FlagMeaning(s) && Transition(u, s, b) == Ok(e)
    ensures FlagMoves(u, s, b, e)
  {
    match b.payload
    case Trade(t) => TradeFlags(u, s, b, e);
    case Broker(o) => BrokerFlags(u, s, b, e);
    case _ => TransitionFrame(u, s, b);
  }

  /** What new risk there is: holds, margin rows and money taken out. */
  ghost predicate NoNewRisk(s: State, t: State) {
    t.reservations.Keys == s.reservations.Keys && t.margin.Keys == s.margin.Keys
  }

  /** An applied hold or withdrawal. */
  predicate AddsRisk(x: Entry) { Moved(x) && (x.command.body.payload.Reserve? || Changed(x, Withdrawal)) }

  lemma {:induction false} FlaggedHolds(s: State, p: nat, h: ReserveFact)
    requires s.flags != {}
    ensures ReserveStep(s, p, h).Err?
  {
  }

  lemma {:induction false} FlaggedMargin(u: Setup, s: State, proof: MarginProof)
    requires s.flags != {} && MarginStep(u, s, proof).Ok?
    ensures MarginStep(u, s, proof).value.margin.Keys == s.margin.Keys
  {
  }

  lemma {:induction false} FlaggedCash(s: State, p: nat, c: CashFact)
    requires s.flags != {} && CashStep(s, p, c).Ok?
    ensures c.kind == Deposit
  {
  }

  lemma {:induction false} HoldKeys(s: State, p: nat, t: TradeFact, time: int)
    requires TradeStep(s, p, t, time).Ok?
    ensures TradeStep(s, p, t, time).value.state.reservations.Keys == s.reservations.Keys
  {
    if !(NotAfter(t.sequence, s.tradeSequence) || Before(time, s.now)) { CashLegFrame(s, p, t); }
  }

  lemma {:induction false} OwnHoldKeys(s: State, id: Id, k: StageKind, z: Closing)
    ensures StageStep(s, id, k).Ok? ==> StageStep(s, id, k).value.reservations.Keys == s.reservations.Keys
    ensures ReleaseStep(s, id, z).Ok? ==> ReleaseStep(s, id, z).value.state.reservations.Keys == s.reservations.Keys
  {
  }

  /** While any flag is up nothing that adds risk is applied. */
  lemma {:induction false} FlaggedTransition(u: Setup, s: State, b: Body, e: Effect)
    requires s.flags != {} && Transition(u, s, b) == Ok(e)
    ensures NoNewRisk(s, e.state)
    ensures !b.payload.Reserve? && (b.payload.CashChange? ==> b.payload.cash.kind == Deposit)
  {
    var p := u.config.precision;
    TransitionFrame(u, s, b);
    match b.payload
    case Reserve(h) => FlaggedHolds(s, p, h);
    case Margin(proof) => FlaggedMargin(u, s, proof);
    case CashChange(c) => FlaggedCash(s, p, c);
    case Trade(t) => HoldKeys(s, p, t, b.time);
    case Stage(id, k) => OwnHoldKeys(s, id, k, NotSent);
    case Release(id, k) => OwnHoldKeys(s, id, SentToBroker, k);
    case _ =>
  }

  /** One committed command, seen from the flags. */
  ghost predicate FlagStep(u: Setup, s: State, t: State, x: Entry) {
    && (StaleTrade in s.flags ==> StaleTrade in t.flags)
    && (x.command.body.payload.Trade? && x.status == Stale ==> StaleTrade in t.flags)
    && (LocalConflict in s.flags && LocalConflict !in t.flags ==>
          x.command.body.payload.Broker? && x.status == Applied && Clears(u, s, x.command.body.payload.observation))
    && (s.flags != {} ==> NoNewRisk(s, t) && !AddsRisk(x))
  }

  lemma {:induction false} CommitFlags(u: Setup, s: State, c: Command, e: Effect)
    requires FlagMeaning(s) && Commits(u, s, c, e)
    ensures FlagMeaning(Record(c, e)) && FlagStep(u, s, Record(c, e), Entry(c, e.status))
  {
    RecordFrame(c, e);
    if !Known(s, c.body) {
      TransitionFlags(u, s, c.body, e);
      if s.flags != {} { FlaggedTransition(u, s, c.body, e); }
    }
  }

  lemma {:induction false} AdvanceFlags(u: Setup, r: Run, input: Command)
    requires FlagMeaning(r.ledger.state)
    ensures var n := Advance(u, r, input);
            && FlagMeaning(n.ledger.state)
            && (n == r || (|n.trace| == |r.trace| + 1 && n.trace == r.trace + [n.trace[|r.trace|]]
                           && FlagStep(u, r.ledger.state, n.ledger.state, n.trace[|r.trace|])))
  {
    var c, e := AdvanceShape(u, r, input);
    if Advance(u, r, input) != r {
      GrowthCommits(u, r.ledger, c, e);
      CommitFlags(u, r.ledger.state, c, e);
    }
  }

  /** In every reachable account the conflict flag is up exactly when differences are on record. */
  lemma {:induction false} EveryRunFlags(u: Setup, inputs: seq<Command>)
    ensures FlagMeaning(Execute(u, inputs).ledger.state)
  {
    if inputs != [] {
      var n := |inputs| - 1;
      EveryRunFlags(u, inputs[..n]);
      AdvanceFlags(u, Execute(u, inputs[..n]), inputs[n]);
    }
  }

  /** Nothing that adds risk happened between two points of a run. */
  ghost predicate Frozen(a: Run, b: Run) {
    && NoNewRisk(a.ledger.state, b.ledger.state)
    && a.trace <= b.trace && forall k :: |a.trace| <= k < |b.trace| ==> !AddsRisk(b.trace[k])
  }

  lemma {:induction false} FrozenStep(u: Setup, a: Run, b: Run, input: Command)
    requires Frozen(a, b) && b.ledger.state.flags != {} && FlagMeaning(b.ledger.state)
    ensures Frozen(a, Advance(u, b, input))
  {
    AdvanceFlags(u, b, input);
    var n := Advance(u, b, input);
    if n != b { assert forall k :: 0 <= k < |b.trace| ==> n.trace[k] == b.trace[k]; }
  }

  lemma {:induction false} StaleStep(u: Setup, a: Run, b: Run, input: Command)
    requires StaleTrade in b.ledger.state.flags && Frozen(a, b) && FlagMeaning(b.ledger.state)
    ensures StaleTrade in Advance(u, b, input).ledger.state.flags && Frozen(a, Advance(u, b, input))
  {
    AdvanceFlags(u, b, input);
    FrozenStep(u, a, b, input);
  }

  /** The flag is up after `more` too, and nothing risky was applied meanwhile. */
  ghost predicate StaleFrozen(u: Setup, inputs: seq<Command>, more: seq<Command>) {
    && StaleTrade in Execute(u, inputs + more).ledger.state.flags
    && Frozen(Execute(u, inputs), Execute(u, inputs + more))
  }

  lemma {:induction false} StaleExtends(u: Setup, inputs: seq<Command>, more: seq<Command>, input: Command)
    requires StaleFrozen(u, inputs, more)
    ensures StaleFrozen(u, inputs, more + [input])
  {
    var front := inputs + more;
    assert inputs + (more + [input]) == front + [input];
    EveryRunFlags(u, front);
    StaleStep(u, Execute(u, inputs), Execute(u, front), input);
    ExecuteOne(u, front, input);
  }

  /** After a stale trade no hold, withdrawal or new margin is ever applied again. */
  lemma {:induction false} StaleTradeFreezesForever(u: Setup, inputs: seq<Command>, more: seq<Command>)
    requires StaleTrade in Execute(u, inputs).ledger.state.flags
    ensures StaleTrade in Execute(u, inputs + more).ledger.state.flags
    ensures Frozen(Execute(u, inputs), Execute(u, inputs + more))
  {
    var holds := (part: seq<Command>) => StaleFrozen(u, inputs, part);
    assert inputs + [] == inputs;
    forall part, c | holds(part) ensures holds(part + [c]) { StaleExtends(u, inputs, part, c); }
    Along(holds, more);
    assert StaleFrozen(u, inputs, more);
  }

  predicate StaleFill(x: Entry) { x.command.body.payload.Trade? && x.status == Stale }

  /** A stale fill leaves its flag up in the account right after it. */
  lemma {:induction false} StaleFillFlags(u: Setup, inputs: seq<Command>, k: nat) returns (n: nat)
    requires k < |Execute(u, inputs).trace| && StaleFill(Execute(u, inputs).trace[k])
    ensures n <= |inputs| && |Execute(u, inputs[..n]).trace| == k + 1
    ensures StaleTrade in Execute(u, inputs[..n]).ledger.state.flags
  {
    var last := |inputs| - 1;
    var before := Execute(u, inputs[..last]);
    EveryRunFlags(u, inputs[..last]);
    AdvanceFlags(u, before, inputs[last]);
    if k < |before.trace| {
      n := StaleFillFlags(u, inputs[..last], k);
      assert inputs[..last][..n] == inputs[..n];
    } else {
      n := |inputs|;
      assert inputs[..n] == inputs;
    }
  }

  /** A stale fill anywhere in a run: from the account right after it on, the flag is up and no hold, withdrawal or new
      margin row is applied. */
  lemma {:induction false} StaleFillFreezes(u: Setup, inputs: seq<Command>, k: nat) returns (n: nat)
    requires k < |Execute(u, inputs).trace| && StaleFill(Execute(u, inputs).trace[k])
    ensures n <= |inputs| && |Execute(u, inputs[..n]).trace| == k + 1
    ensures StaleTrade in Execute(u, inputs).ledger.state.flags
    ensures Frozen(Execute(u, inputs[..n]), Execute(u, inputs))
  {
    n := StaleFillFlags(u, inputs, k);
    assert inputs[..n] + inputs[n..] == inputs;
    StaleTradeFreezesForever(u, inputs[..n], inputs[n..]);
  }

  /** The step between two runs is a matching observation at the exact sequence. */
  ghost predicate Matched(u: Setup, before: Run, after: Run) {
    && |after.trace| == |before.trace| + 1
    && var x := after.trace[|before.trace|];
       x.command.body.payload.Broker? && x.status == Applied
       && Clears(u, before.ledger.state, x.command.body.payload.observation)
  }

  /** Some step of `more` cleared the conflict. */
  ghost predicate Cleared(u: Setup, inputs: seq<Command>, more: seq<Command>) {
    more != [] &&
    var n := |more| - 1;
    Cleared(u, inputs, more[..n]) || Matched(u, Execute(u, inputs + more[..n]), Execute(u, inputs + more))
  }

  ghost predicate StillFrozen(a: Run, b: Run) {
    LocalConflict in b.ledger.state.flags && Frozen(a, b)
  }

  lemma {:induction false} ConflictStep(u: Setup, a: Run, b: Run, input: Command)
    requires StillFrozen(a, b) && FlagMeaning(b.ledger.state)
    ensures Matched(u, b, Advance(u, b, input)) || StillFrozen(a, Advance(u, b, input))
  {
    AdvanceFlags(u, b, input);
    FrozenStep(u, a, b, input);
  }

  ghost predicate ClearedOrFrozen(u: Setup, inputs: seq<Command>, more: seq<Command>) {
    Cleared(u, inputs, more) || StillFrozen(Execute(u, inputs), Execute(u, inputs + more))
  }

  lemma {:induction false} ConflictExtends(u: Setup, inputs: seq<Command>, more: seq<Command>, input: Command)
    requires ClearedOrFrozen(u, inputs, more)
    ensures ClearedOrFrozen(u, inputs, more + [input])
  {
    var all, front := more + [input], inputs + more;
    assert all[..|all| - 1] == more && inputs + all == front + [input];
    if !Cleared(u, inputs, more) {
      EveryRunFlags(u, front);
      ConflictStep(u, Execute(u, inputs), Execute(u, front), input);
      ExecuteOne(u, front, input);
    }
  }

  /** After a conflict no hold, withdrawal or new margin is applied until a verified observation at the account's
      exact sequence matches all five figures. */
  lemma {:induction false} ConflictFreezesUntilCleared(u: Setup, inputs: seq<Command>, more: seq<Command>)
    requires LocalConflict in Execute(u, inputs).ledger.state.flags
    ensures ClearedOrFrozen(u, inputs, more)
  {
    var holds := (part: seq<Command>) => ClearedOrFrozen(u, inputs, part);
    assert inputs + [] == inputs;
    forall part, c | holds(part) ensures holds(part + [c]) { ConflictExtends(u, inputs, part, c); }
    Along(holds, more);
    assert ClearedOrFrozen(u, inputs, more);
  }
}
