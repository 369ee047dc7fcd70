/** The standing of an account, told by its journal: flags, recorded differences, evidence of fills, margin rows,
    solvency and the caps on what is admitted. */
module Verdicts {
  import opened Core
  import opened Model
  import opened Transitions
  import opened Frames
  import opened Runs
  import opened Books
  import opened Histories
  import opened Recovery

  // ----- flags -----

  predicate StaleFill(x: Entry) { x.command.body.payload.Trade? && x.status == Stale }

  /** A verified observation, taken at the number of new entries that the account had. */
  predicate ProvenAt(sequence: nat, x: Entry) {
    && Witnessed(x) && x.command.body.payload.observation.quality == Verified
    && x.command.body.payload.observation.basisSequence == sequence
  }

  ghost predicate Proved(trace: seq<Entry>, k: nat)
    requires k < |trace|
  {
    ProvenAt(CountNew(trace[..k]), trace[k])
  }

  /** The last applied observation was not proven. */
  ghost predicate LastUnproven(trace: seq<Entry>) {
    exists k :: 0 <= k < |trace| && Witnessed(trace[k]) && !Proved(trace, k)
                && forall j | k < j < |trace| :: !Witnessed(trace[j])
  }

  ghost predicate FlagsTold(trace: seq<Entry>, flags: set<Flag>) {
    && (StaleTrade in flags <==> Sometime(trace, StaleFill))
    && (ProofUnavailable in flags <==> LastUnproven(trace))
  }

  /** What an entry does to the flags and to the recorded differences. */
  ghost predicate FlagsMove(p: nat, s: State, x: Entry, t: State) {
    && (StaleTrade in t.flags <==> StaleTrade in s.flags || StaleFill(x))
    && (ProofUnavailable in t.flags <==>
          if Witnessed(x) then !ProvenAt(s.sequence, x) else ProofUnavailable in s.flags)
    && t.differences == (if ProvenAt(s.sequence, x) then Differences(s, p, x.command.body.payload.observation)
                         else s.differences)
  }

  lemma {:induction false} FillFlags(s: State, p: nat, c: Command, e: Effect)
    requires c.body.payload.Trade? && TradeStep(s, p, c.body.payload.fill, c.body.time) == Ok(e)
    ensures FlagsMove(p, s, Entry(c, e.status), e.state)
  {
    TradeFrame(s, p, c.body.payload.fill, c.body.time);
  }

  lemma {:induction false} ObservedFlags(s: State, p: nat, c: Command)
    requires c.body.payload.Broker?
    ensures FlagsMove(p, s, Entry(c, Applied), Observed(s, p, c.body.payload.observation))
  {
  }

  lemma {:induction false} ObservationFlags(s: State, p: nat, c: Command, e: Effect)
    requires c.body.payload.Broker? && BrokerStep(s, p, c.body.payload.observation, c.body.time) == Ok(e)
    ensures FlagsMove(p, s, Entry(c, e.status), e.state)
  {
    if e.status == Applied { ObservedFlags(s, p, c); }
  }

  lemma {:induction false} CommitFlags(u: Setup, s: State, c: Command, e: Effect)
    requires Commits(u, s, c, e)
    ensures FlagsMove(u.config.precision, s, Entry(c, e.status), Record(c, e))
  {
    RecordFrame(c, e);
    if !Known(s, c.body) {
      TransitionFrame(u, s, c.body);
      if c.body.payload.Trade? { FillFlags(s, u.config.precision, c, e); }
      if c.body.payload.Broker? { ObservationFlags(s, u.config.precision, c, e); }
    }
  }

  lemma {:induction false} UnprovenGrows(trace: seq<Entry>, x: Entry)
    ensures LastUnproven(trace + [x])
            <==> if Witnessed(x) then !ProvenAt(CountNew(trace), x) else LastUnproven(trace)
  {
    var n := trace + [x];
    assert n[..|trace|] == trace && n[|trace|] == x;
    assert forall k: nat | k < |trace| :: n[..k] == trace[..k] && n[k] == trace[k];
    if LastUnproven(n) {
      var k :| 0 <= k < |n| && Witnessed(n[k]) && !Proved(n, k)
               && forall j | k < j < |n| :: !Witnessed(n[j]);
      if k < |trace| { assert !Proved(trace, k) && !Witnessed(n[|trace|]); }
    }
    if Witnessed(x) {
      assert Proved(n, |trace|) <==> ProvenAt(CountNew(trace), x);
    } else if LastUnproven(trace) {
      var k :| 0 <= k < |trace| && Witnessed(trace[k]) && !Proved(trace, k)
               && forall j | k < j < |trace| :: !Witnessed(trace[j]);
      assert Witnessed(n[k]) && !Proved(n, k);
    }
  }

  lemma {:induction false} FlagsGrow(p: nat, trace: seq<Entry>, s: State, x: Entry, t: State)
    requires FlagsTold(trace, s.flags) && s.sequence == CountNew(trace) && FlagsMove(p, s, x, t)
    ensures FlagsTold(trace + [x], t.flags)
  {
    SometimeAppend(trace, x, StaleFill);
    UnprovenGrows(trace, x);
  }

  /** Over every run the stale trade flag is up exactly when some fill was stale, and the missing proof flag exactly
      when the last observation was not proven. */
  lemma {:induction false} EveryFlagTold(u: Setup, inputs: seq<Command>)
    ensures var r := Execute(u, inputs); FlagsTold(r.trace, r.ledger.state.flags)
  {
    if inputs != [] {
      var n := |inputs| - 1;
      var r := Execute(u, inputs[..n]);
      EveryFlagTold(u, inputs[..n]);
      EveryRunKept(u, inputs[..n]);
      var c, e := AdvanceShape(u, r, inputs[n]);
      if Advance(u, r, inputs[n]) != r {
        GrowthCommits(u, r.ledger, c, e);
        CommitFlags(u, r.ledger.state, c, e);
        FlagsGrow(u.config.precision, r.trace, r.ledger.state, Entry(c, e.status), Record(c, e));
      }
    }
  }

  // ----- differences -----

  /** The observed figures, and the account's own. */
  function Seen(b: BrokerFact, f: Figure): Decimal {
    match f
    case CashFigure => b.cash
    case ReservedFigure => b.reserved
    case TradeAvailableFigure => b.tradeAvailable
    case WithdrawableFigure => b.withdrawable
    case EquityFigure => b.equity
  }
  ghost function Own(s: State, f: Figure): int {
    match f
    case CashFigure => s.cash
    case ReservedFigure => Reserved(s)
    case TradeAvailableFigure => Available(s)
    case WithdrawableFigure => Withdrawable(s)
    case EquityFigure => Equity(s)
  }
  function Rank(f: Figure): nat {
    match f
    case CashFigure => 0
    case ReservedFigure => 1
    case TradeAvailableFigure => 2
    case WithdrawableFigure => 3
    case EquityFigure => 4
  }

  predicate Ranked(figures: seq<Figure>) { forall i, j | 0 <= i < j < |figures| :: Rank(figures[i]) < Rank(figures[j]) }

  lemma {:induction false} DisagreeingMeans(rows: seq<Row>, f: Figure)
    ensures f in Disagreeing(rows) <==> exists row :: row in rows && Differs(row, f)
  {
    if rows != [] {
      var n := |rows| - 1;
      DisagreeingMeans(rows[..n], f);
      assert rows == rows[..n] + [rows[n]];
      if row :| row in rows[..n] && Differs(row, f) { assert row in rows; }
      if Differs(rows[n], f) { assert rows[n] in rows; }
    }
  }

  predicate Differs(row: Row, f: Figure) { row.figure == f && row.observed != row.own }

  lemma {:induction false} DisagreeingRanked(rows: seq<Row>)
    requires forall i, j | 0 <= i < j < |rows| :: Rank(rows[i].figure) < Rank(rows[j].figure)
    ensures Ranked(Disagreeing(rows))
  {
    if rows != [] {
      var n := |rows| - 1;
      DisagreeingRanked(rows[..n]);
      forall f | f in Disagreeing(rows[..n]) ensures Rank(f) < Rank(rows[n].figure) { DisagreeingMeans(rows[..n], f); }
    }
  }

  /** An observation differs on a figure exactly when it names another amount; differing figures are listed once each,
      in a fixed order. */
  lemma {:induction false} DifferencesExactly(s: State, p: nat, b: BrokerFact)
    ensures forall f :: f in Differences(s, p, b) <==> Seen(b, f) != Decimal(Own(s, f), p)
    ensures Ranked(Differences(s, p, b))
  {
    var rows := Rows(b, p, s.cash, Reserved(s), Available(s), Withdrawable(s), Equity(s));
    assert forall i | 0 <= i < 5 :: Rank(rows[i].figure) == i;
    forall f ensures f in Differences(s, p, b) <==> Seen(b, f) != Decimal(Own(s, f), p) {
      DisagreeingMeans(rows, f);
      assert rows[Rank(f)].figure == f && rows[Rank(f)].observed == Seen(b, f);
      assert rows[Rank(f)].own == Decimal(Own(s, f), p);
      assert forall i | 0 <= i < 5 && rows[i].figure == f :: i == Rank(f);
      assert rows[Rank(f)] in rows;
    }
    DisagreeingRanked(rows);
  }

  /** The account as it was before entry `k`. */
  ghost function Past(u: Setup, journal: seq<Command>, k: nat): State
    requires k <= |journal|
  {
    Execute(u, journal[..k]).ledger.state
  }

  ghost predicate LastProved(trace: seq<Entry>, k: nat)
    requires k < |trace|
  {
    Proved(trace, k) && forall j | k < j < |trace| :: !Proved(trace, j)
  }

  /** What is on record is the comparison made by the last proven observation, with the account as it was then. */
  ghost predicate DifferencesTold(u: Setup, r: Run) {
    && |r.trace| == |r.ledger.journal|
    && (r.ledger.state.differences != [] ==> exists k :: 0 <= k < |r.trace| && Proved(r.trace, k))
    && forall k | 0 <= k < |r.trace| && LastProved(r.trace, k) ::
         r.ledger.state.differences
         == Differences(Past(u, r.ledger.journal, k), u.config.precision, r.trace[k].command.body.payload.observation)
  }

  lemma {:induction false} ProvedBefore(trace: seq<Entry>, x: Entry, k: nat)
    requires k < |trace|
    ensures Proved(trace + [x], k) == Proved(trace, k)
  {
    assert (trace + [x])[..k] == trace[..k];
  }

  lemma {:induction false} PastStays(u: Setup, journal: seq<Command>, c: Command, k: nat)
    requires k <= |journal|
    ensures Past(u, journal + [c], k) == Past(u, journal, k)
  {
    assert (journal + [c])[..k] == journal[..k];
  }

  lemma {:induction false} DifferencesGrow(u: Setup, r: Run, x: Entry, n: Run)
    requires DifferencesTold(u, r) && r.ledger.state.sequence == CountNew(r.trace)
    requires Execute(u, r.ledger.journal) == r
    requires n.trace == r.trace + [x] && n.ledger.journal == r.ledger.journal + [x.command]
    requires FlagsMove(u.config.precision, r.ledger.state, x, n.ledger.state)
    ensures DifferencesTold(u, n)
  {
    var trace, journal := r.trace, r.ledger.journal;
    assert journal[..|journal|] == journal;
    ProvedAfter(trace, x);
    if n.ledger.state.differences != [] && !Proved(n.trace, |trace|) {
      var k :| 0 <= k < |trace| && Proved(trace, k);
      assert Proved(n.trace, k);
    }
    forall k | 0 <= k < |n.trace| && LastProved(n.trace, k)
      ensures n.ledger.state.differences
              == Differences(Past(u, n.ledger.journal, k), u.config.precision,
                             n.trace[k].command.body.payload.observation)
    {
      PastStays(u, journal, x.command, k);
      if k < |trace| { LastBefore(trace, x, k); }
    }
  }

  lemma {:induction false} ProvedAfter(trace: seq<Entry>, x: Entry)
    ensures Proved(trace + [x], |trace|) == ProvenAt(CountNew(trace), x)
    ensures forall k: nat | k < |trace| :: Proved(trace + [x], k) == Proved(trace, k)
  {
    assert (trace + [x])[..|trace|] == trace;
    forall k: nat | k < |trace| ensures Proved(trace + [x], k) == Proved(trace, k) { ProvedBefore(trace, x, k); }
  }

  lemma {:induction false} LastBefore(trace: seq<Entry>, x: Entry, k: nat)
    requires k < |trace| && LastProved(trace + [x], k)
    ensures LastProved(trace, k) && !ProvenAt(CountNew(trace), x)
  {
    ProvedAfter(trace, x);
    assert !Proved(trace + [x], |trace|);
    forall j | k < j < |trace| ensures !Proved(trace, j) { assert !Proved(trace + [x], j); }
  }

  lemma {:induction false} EveryDifferenceTold(u: Setup, inputs: seq<Command>)
    ensures DifferencesTold(u, Execute(u, inputs))
  {
    if inputs != [] {
      var n := |inputs| - 1;
      var r := Execute(u, inputs[..n]);
      EveryDifferenceTold(u, inputs[..n]);
      EveryRunKept(u, inputs[..n]);
      ReplayRebuilds(u, inputs[..n]);
      var c, e := AdvanceShape(u, r, inputs[n]);
      if Advance(u, r, inputs[n]) != r {
        GrowthCommits(u, r.ledger, c, e);
        CommitFlags(u, r.ledger.state, c, e);
        DifferencesGrow(u, r, Entry(c, e.status), NextRun(r, c, e));
      }
    }
  }
}
