/** What the performance report says about a reachable account. */
module Performance {
  import opened Core
  import opened Model
  import opened Transitions
  import opened Runs
  import opened Books
  import opened Conservation
  import opened Recovery
  import opened Rounding
  import opened Drawdown

  datatype QualityFlag =
    | AccountFlag(flag: Flag) | NonPositiveHighWaterMark | ZeroInitialEquity | ExternalFlowRequiresTwr

  datatype Report = Report(
    initialEquity: int, finalEquity: int, netPnl: int, external: int, externalOccurred: bool,
    returnSinceStart: Option<int>, highWaterMark: int, currentDrawdown: Option<int>, maximumDrawdown: Option<int>,
    path: seq<int>, flags: set<QualityFlag>)

  lemma {:induction false} TraceLength(u: Setup, inputs: seq<Command>)
    ensures |Execute(u, inputs).trace| == |Execute(u, inputs).ledger.journal|
  {
    EveryRunKept(u, inputs);
  }

  lemma {:induction false} PrefixGrows(u: Setup, r: Run, input: Command, k: nat)
    requires |r.trace| == |r.ledger.journal| && k < |Advance(u, r, input).ledger.journal|
    ensures var n := Advance(u, r, input);
            && k <= |r.ledger.journal| && k <= |n.trace|
            && n.ledger.journal[..k] == r.ledger.journal[..k] && n.trace[..k] == r.trace[..k]
  {
    var c, e := AdvanceShape(u, r, input);
  }

  lemma {:induction false} WholeRun(u: Setup, inputs: seq<Command>)
    ensures var r := Execute(u, inputs);
            Execute(u, r.ledger.journal[..|r.ledger.journal|]) == r && r.trace[..|r.trace|] == r.trace
  {
    var r := Execute(u, inputs);
    assert r.ledger.journal[..|r.ledger.journal|] == r.ledger.journal;
    ReplayRebuilds(u, inputs);
  }

  /** Prefixes of a journal replay to prefixes of its run. */
  lemma {:induction false} PrefixRun(u: Setup, inputs: seq<Command>, k: nat)
    requires k <= |Execute(u, inputs).ledger.journal|
    ensures |Execute(u, inputs).trace| == |Execute(u, inputs).ledger.journal|
    ensures Execute(u, Execute(u, inputs).ledger.journal[..k]).trace == Execute(u, inputs).trace[..k]
    ensures Execute(u, Execute(u, inputs).ledger.journal[..k]).ledger.journal == Execute(u, inputs).ledger.journal[..k]
    decreases |inputs|
  {
    TraceLength(u, inputs);
    if k == |Execute(u, inputs).ledger.journal| {
      WholeRun(u, inputs);
    } else {
      var n := |inputs| - 1;
      TraceLength(u, inputs[..n]);
      PrefixGrows(u, Execute(u, inputs[..n]), inputs[n], k);
      PrefixRun(u, inputs[..n], k);
    }
  }

  /** The states after each prefix of a journal. */
  ghost function States(u: Setup, journal: seq<Command>): (s: seq<State>)
    ensures |s| == |journal| + 1
    ensures forall k :: 0 <= k <= |journal| ==> s[k] == Execute(u, journal[..k]).ledger.state
  {
    seq(|journal| + 1, k requires 0 <= k <= |journal| => Execute(u, journal[..k]).ledger.state)
  }

  lemma {:induction false} NextPrefix(u: Setup, journal: seq<Command>, k: nat)
    requires k < |journal|
    ensures Execute(u, journal[..k + 1]) == Advance(u, Execute(u, journal[..k]), journal[k])
  {
    assert journal[..k + 1] == journal[..k] + [journal[k]];
    ExecuteOne(u, journal[..k], journal[k]);
  }

  lemma {:induction false} GrownStep(u: Setup, a: Run, input: Command)
    requires |Advance(u, a, input).trace| == |a.trace| + 1
    ensures var b := Advance(u, a, input);
            && Step(u, a.ledger, input) == Ok(Reply(b.ledger, b.trace[|a.trace|].status))
            && Balances(a.ledger.state, b.ledger.state, b.trace[|a.trace|])
  {
    var c, e := AdvanceShape(u, a, input);
    AdvanceLedger(u, a, input);
    GrowthCommits(u, a.ledger, c, e);
    CommitBalances(u, a.ledger.state, c, e);
  }

  /** Replaying the next journal entry appends it and answers as it did the first time. */
  lemma {:induction false} ReplayedPoint(u: Setup, inputs: seq<Command>, k: nat)
    requires k < |Execute(u, inputs).ledger.journal| == |Execute(u, inputs).trace|
    ensures var r := Execute(u, inputs);
            var a, b := Execute(u, r.ledger.journal[..k]), Execute(u, r.ledger.journal[..k + 1]);
            && Step(u, a.ledger, r.ledger.journal[k]) == Ok(Reply(b.ledger, r.trace[k].status))
            && |b.ledger.journal| == k + 1
            && Balances(a.ledger.state, b.ledger.state, r.trace[k])
  {
    var r := Execute(u, inputs);
    PrefixRun(u, inputs, k);
    PrefixRun(u, inputs, k + 1);
    NextPrefix(u, r.ledger.journal, k);
    GrownStep(u, Execute(u, r.ledger.journal[..k]), r.ledger.journal[k]);
  }

  lemma {:induction false} EntryCommand(u: Setup, inputs: seq<Command>, k: nat)
    requires k < |Execute(u, inputs).ledger.journal| == |Execute(u, inputs).trace|
    ensures Execute(u, inputs).trace[k].command == Execute(u, inputs).ledger.journal[k]
  {
    EveryRunKept(u, inputs);
  }

  /** The equities that the report walks through: the start and every entry that was not a duplicate. */
  ghost function Path(trace: seq<Entry>, states: seq<State>, k: nat): (path: seq<int>)
    requires k <= |trace| && |states| == |trace| + 1
    ensures path != []
  {
    if k == 0 then [Equity(states[0])]
    else
      Path(trace, states, k - 1) + (if trace[k - 1].status == Duplicate then [] else [Equity(states[k])])
  }

  /** The account flags seen at any point of the path. */
  ghost function Raised(trace: seq<Entry>, states: seq<State>, k: nat): set<Flag>
    requires k <= |trace| && |states| == |trace| + 1
  {
    if k == 0 then states[0].flags
    else Raised(trace, states, k - 1) + (if trace[k - 1].status == Duplicate then {} else states[k].flags)
  }

  ghost predicate HasFlow(trace: seq<Entry>) {
    exists k :: 0 <= k < |trace| && Moved(trace[k]) && trace[k].command.body.payload.CashChange?
  }

  /** Net result: what trading and economic events made, plus the position's value; external money is left out. */
  ghost function TradingResult(trace: seq<Entry>, s: State): int {
    Sum(trace, EconomicAmount) + Sum(trace, SellNotional) - Sum(trace, BuyNotional) - Sum(trace, Fees) + s.marketValue
  }

  ghost predicate Describes(u: Setup, r: Run, report: Report) {
    && |r.trace| == |r.ledger.journal|
    && report.initialEquity == u.config.initialCash
    && report.finalEquity == Equity(r.ledger.state)
    && report.external == Sum(r.trace, Deposited) - Sum(r.trace, Withdrawn)
    && report.netPnl == TradingResult(r.trace, r.ledger.state)
    && (report.externalOccurred <==> HasFlow(r.trace))
    && report.returnSinceStart == (if report.externalOccurred then None
                                   else DrawdownAt(report.finalEquity, report.initialEquity))
    && report.path == Path(r.trace, States(u, r.ledger.journal), |r.trace|)
    && Tracks(report.path, report.highWaterMark, report.maximumDrawdown)
    && report.currentDrawdown == DrawdownAt(report.path[|report.path| - 1], report.highWaterMark)
    && Flagged(report, Raised(r.trace, States(u, r.ledger.journal), |r.trace|))
  }

  /** Both equity flags say the same: an account that starts with money always has a positive peak. */
  ghost predicate Flagged(report: Report, raised: set<Flag>) {
    && (ExternalFlowRequiresTwr in report.flags <==> report.externalOccurred)
    && (ZeroInitialEquity in report.flags <==> report.initialEquity <= 0)
    && (NonPositiveHighWaterMark in report.flags <==> report.initialEquity <= 0)
    && (forall f :: AccountFlag(f) in report.flags <==> f in raised)
  }

  datatype Walk = Walk(
    path: seq<int>, peak: int, current: Option<int>, maximum: Option<int>, undefined: bool, raised: set<Flag>,
    external: int, occurred: bool)

  /** What the walk has accumulated after `k` journal entries. */
  ghost predicate Walked(trace: seq<Entry>, states: seq<State>, k: nat, w: Walk) {
    && k <= |trace| && |states| == |trace| + 1
    && PathWalked(trace, states, k, w) && FlowWalked(trace[..k], w) && w.raised == Raised(trace, states, k)
  }

  ghost predicate PathWalked(trace: seq<Entry>, states: seq<State>, k: nat, w: Walk)
    requires k <= |trace| && |states| == |trace| + 1
  {
    && w.path == Path(trace, states, k)
    && Tracks(w.path, w.peak, w.maximum)
    && w.current == DrawdownAt(w.path[|w.path| - 1], w.peak)
    && (w.undefined <==> w.path[0] <= 0) && w.path[0] == Equity(states[0])
  }

  ghost predicate FlowWalked(trace: seq<Entry>, w: Walk) {
    && w.external == Sum(trace, Deposited) - Sum(trace, Withdrawn)
    && (w.occurred <==> HasFlow(trace))
  }

  lemma {:induction false} EquityNonnegative(u: Setup, inputs: seq<Command>)
    ensures Equity(Execute(u, inputs).ledger.state) >= 0
  {
    EveryRunKept(u, inputs);
  }

  ghost function FirstWalk(s: State): Walk {
    var e := Equity(s);
    Walk([e], e, DrawdownAt(e, e), NextMaximum(None, DrawdownAt(e, e)), DrawdownAt(e, e).None?, s.flags, 0, false)
  }

  /** The values after one more point that is not a duplicate. */
  ghost function NextWalk(w: Walk, x: Entry, before: State, after: State): Walk {
    var flow := Moved(x) && x.command.body.payload.CashChange?;
    var equity := Equity(after);
    var top := Max(w.peak, equity);
    Walk(w.path + [equity], top, DrawdownAt(equity, top), NextMaximum(w.maximum, DrawdownAt(equity, top)),
         w.undefined || DrawdownAt(equity, top).None?, w.raised + after.flags,
         w.external + (if flow then after.cash - before.cash else 0), w.occurred || flow)
  }

  ghost function WalkOn(w: Walk, x: Entry, before: State, after: State): Walk {
    if x.status == Duplicate then w else NextWalk(w, x, before, after)
  }

  lemma {:induction false} FlowGrows(trace: seq<Entry>, x: Entry)
    ensures HasFlow(trace + [x]) <==> HasFlow(trace) || (Moved(x) && x.command.body.payload.CashChange?)
  {
    var n := trace + [x];
    if HasFlow(trace) {
      var k :| 0 <= k < |trace| && Moved(trace[k]) && trace[k].command.body.payload.CashChange?;
      assert n[k] == trace[k];
    }
    if Moved(x) && x.command.body.payload.CashChange? { assert n[|trace|] == x; }
    if HasFlow(n) {
      var k :| 0 <= k < |n| && Moved(n[k]) && n[k].command.body.payload.CashChange?;
      if k < |trace| { assert n[k] == trace[k]; }
    }
  }

  lemma {:induction false} ExternalGrows(trace: seq<Entry>, x: Entry, s: State, t: State)
    requires Balances(s, t, x)
    ensures Sum(trace + [x], Deposited) - Sum(trace + [x], Withdrawn)
         == Sum(trace, Deposited) - Sum(trace, Withdrawn)
            + (if Moved(x) && x.command.body.payload.CashChange? then t.cash - s.cash else 0)
  {
    SumAppend(trace, x, Deposited);
    SumAppend(trace, x, Withdrawn);
  }

  lemma {:induction false} FlowStep(trace: seq<Entry>, x: Entry, s: State, t: State, w: Walk)
    requires FlowWalked(trace, w) && Balances(s, t, x)
    ensures x.status == Duplicate ==> FlowWalked(trace + [x], w)
    ensures FlowWalked(trace + [x], NextWalk(w, x, s, t))
  {
    ExternalGrows(trace, x, s, t);
    FlowGrows(trace, x);
  }

  lemma {:induction false} PathStep(trace: seq<Entry>, states: seq<State>, k: nat, w: Walk)
    requires k < |trace| && |states| == |trace| + 1 && PathWalked(trace, states, k, w) && Equity(states[k + 1]) >= 0
    ensures trace[k].status == Duplicate ==> PathWalked(trace, states, k + 1, w)
    ensures trace[k].status != Duplicate ==>
              PathWalked(trace, states, k + 1, NextWalk(w, trace[k], states[k], states[k + 1]))
  {
    TracksStep(w.path, Equity(states[k + 1]), w.peak, w.maximum);
  }

  /** One more entry of the walk, duplicate or not. */
  lemma {:induction false} WalkStep(trace: seq<Entry>, states: seq<State>, k: nat, w: Walk)
    requires Walked(trace, states, k, w) && k < |trace|
    requires Balances(states[k], states[k + 1], trace[k]) && Equity(states[k + 1]) >= 0
    ensures Walked(trace, states, k + 1, WalkOn(w, trace[k], states[k], states[k + 1]))
  {
    assert trace[..k + 1] == trace[..k] + [trace[k]];
    FlowStep(trace[..k], trace[k], states[k], states[k + 1], w);
    PathStep(trace, states, k, w);
  }

  lemma {:induction false} WalkStart(trace: seq<Entry>, states: seq<State>)
    requires |states| == |trace| + 1 && Equity(states[0]) >= 0
    ensures Walked(trace, states, 0, FirstWalk(states[0]))
  {
    assert trace[..0] == [];
    TracksOne(Equity(states[0]));
  }

  /** The walk after `k` entries. */
  ghost function WalkAt(trace: seq<Entry>, states: seq<State>, k: nat): Walk
    requires k <= |trace| && |states| == |trace| + 1
  {
    if k == 0 then FirstWalk(states[0])
    else WalkOn(WalkAt(trace, states, k - 1), trace[k - 1], states[k - 1], states[k])
  }

  ghost predicate PointHolds(trace: seq<Entry>, states: seq<State>, i: nat)
    requires i < |trace| && |states| == |trace| + 1
  {
    Balances(states[i], states[i + 1], trace[i]) && Equity(states[i + 1]) >= 0
  }

  ghost predicate WalkSound(trace: seq<Entry>, states: seq<State>, k: nat)
    requires k <= |trace| && |states| == |trace| + 1
  {
    Walked(trace, states, k, WalkAt(trace, states, k))
  }

  lemma {:induction false} WalkSoundNext(trace: seq<Entry>, states: seq<State>, k: nat)
    requires k < |trace| && |states| == |trace| + 1 && PointHolds(trace, states, k) && WalkSound(trace, states, k)
    ensures WalkSound(trace, states, k + 1)
  {
    WalkStep(trace, states, k, WalkAt(trace, states, k));
  }

  lemma {:induction false} CountUp(holds: nat -> bool, n: nat)
    requires holds(0) && forall k: nat | k < n && holds(k) :: holds(k + 1)
    ensures holds(n)
  {
    if n > 0 {
      CountUp(holds, n - 1);
      assert holds(n - 1);
    }
  }

  lemma {:induction false} WalkAtWalked(trace: seq<Entry>, states: seq<State>)
    requires |states| == |trace| + 1 && Equity(states[0]) >= 0
    requires forall i :: 0 <= i < |trace| ==> PointHolds(trace, states, i)
    ensures WalkSound(trace, states, |trace|)
  {
    var holds := (k: nat) => k <= |trace| && WalkSound(trace, states, k);
    WalkStart(trace, states);
    forall k: nat | k < |trace| && holds(k) ensures holds(k + 1) { WalkSoundNext(trace, states, k); }
    CountUp(holds, |trace|);
    assert holds(|trace|);
  }

  lemma {:induction false} StateAt(u: Setup, journal: seq<Command>, k: nat)
    requires k <= |journal|
    ensures States(u, journal)[k] == Execute(u, journal[..k]).ledger.state
    ensures States(u, journal)[0] == Init(u).state
  {
    assert journal[..0] == [];
  }

  /** Replaying entry `k` on the ledger before it gives its recorded answer and the ledger after it. */
  lemma {:induction false} EntryReplays(u: Setup, inputs: seq<Command>, k: nat)
    requires k < |Execute(u, inputs).ledger.journal| == |Execute(u, inputs).trace|
    ensures var r := Execute(u, inputs);
            var a, b := Execute(u, r.ledger.journal[..k]).ledger, Execute(u, r.ledger.journal[..k + 1]).ledger;
            && r.trace[k].command == r.ledger.journal[k]
            && Step(u, a, r.ledger.journal[k]) == Ok(Reply(b, r.trace[k].status))
            && |b.journal| == k + 1
  {
    ReplayedPoint(u, inputs, k);
    EntryCommand(u, inputs, k);
  }

  lemma {:induction false} EntryWalks(u: Setup, trace: seq<Entry>, journal: seq<Command>, k: nat)
    requires k < |journal| == |trace|
    ensures WalkAt(trace, States(u, journal), k + 1)
            == WalkOn(WalkAt(trace, States(u, journal), k), trace[k],
                      Execute(u, journal[..k]).ledger.state, Execute(u, journal[..k + 1]).ledger.state)
  {
    StateAt(u, journal, k);
    StateAt(u, journal, k + 1);
  }

  /** After `k` entries the replay stands where the run stood, with the values accumulated so far. */
  ghost predicate Passed(u: Setup, inputs: seq<Command>, k: nat, m: Ledger, w: Walk) {
    var r := Execute(u, inputs);
    && k <= |r.ledger.journal| == |r.trace|
    && m == Execute(u, r.ledger.journal[..k]).ledger
    && w == WalkAt(r.trace, States(u, r.ledger.journal), k)
  }

  lemma {:induction false} PassedStart(u: Setup, inputs: seq<Command>)
    requires |Execute(u, inputs).trace| == |Execute(u, inputs).ledger.journal|
    ensures Passed(u, inputs, 0, Init(u), FirstWalk(Init(u).state))
  {
    StateAt(u, Execute(u, inputs).ledger.journal, 0);
    assert Execute(u, inputs).ledger.journal[..0] == [];
  }

  /** The next entry is answered as it was the first time, and leads on. */
  lemma {:induction false} PassedNext(u: Setup, inputs: seq<Command>, k: nat, m: Ledger, w: Walk)
    returns (next: Ledger, known: Status)
    requires Passed(u, inputs, k, m, w) && k < |Execute(u, inputs).ledger.journal|
    ensures var c := Execute(u, inputs).ledger.journal[k];
            && Step(u, m, c) == Ok(Reply(next, known)) && |next.journal| == k + 1
            && Passed(u, inputs, k + 1, next, WalkOn(w, Entry(c, known), m.state, next.state))
  {
    var r := Execute(u, inputs);
    next, known := Execute(u, r.ledger.journal[..k + 1]).ledger, r.trace[k].status;
    EntryReplays(u, inputs, k);
    EntryWalks(u, r.trace, r.ledger.journal, k);
  }

  lemma {:induction false} PassedEnd(u: Setup, inputs: seq<Command>, m: Ledger, w: Walk)
    requires Passed(u, inputs, |Execute(u, inputs).ledger.journal|, m, w)
    ensures m == Execute(u, inputs).ledger
    ensures var r := Execute(u, inputs); w == WalkAt(r.trace, States(u, r.ledger.journal), |r.ledger.journal|)
  {
    WholeRun(u, inputs);
  }

  lemma {:induction false} WalkBalances(u: Setup, inputs: seq<Command>, k: nat)
    requires k < |Execute(u, inputs).ledger.journal| == |Execute(u, inputs).trace|
    ensures var r := Execute(u, inputs);
            PointHolds(r.trace, States(u, r.ledger.journal), k)
  {
    var journal := Execute(u, inputs).ledger.journal;
    ReplayedPoint(u, inputs, k);
    EquityNonnegative(u, journal[..k + 1]);
    StateAt(u, journal, k);
    StateAt(u, journal, k + 1);
  }

  lemma {:induction false} RunWalked(u: Setup, inputs: seq<Command>)
    requires |Execute(u, inputs).trace| == |Execute(u, inputs).ledger.journal|
    ensures var r := Execute(u, inputs);
            WalkSound(r.trace, States(u, r.ledger.journal), |r.trace|)
  {
    var r := Execute(u, inputs);
    var states := States(u, r.ledger.journal);
    forall k | 0 <= k < |r.trace| ensures PointHolds(r.trace, states, k) {
      WalkBalances(u, inputs, k);
    }
    StateAt(u, r.ledger.journal, 0);
    WalkAtWalked(r.trace, states);
  }

  /** No command is dated before genesis. */
  predicate AllSince(journal: seq<Command>, genesis: int) {
    journal == [] ||
    (AllSince(journal[..|journal| - 1], genesis) && journal[|journal| - 1].body.time >= genesis)
  }

  lemma {:induction false} AllSinceMeans(journal: seq<Command>, genesis: int)
    ensures AllSince(journal, genesis) <==> forall k :: 0 <= k < |journal| ==> journal[k].body.time >= genesis
  {
    if journal != [] {
      var n := |journal| - 1;
      AllSinceMeans(journal[..n], genesis);
      if AllSince(journal[..n], genesis) {
        assert forall k :: 0 <= k < n ==> journal[k] == journal[..n][k];
      } else {
        var k :| 0 <= k < n && journal[..n][k].body.time < genesis;
        assert journal[k].body.time < genesis;
      }
    }
  }

  lemma {:induction false} AllSinceNext(journal: seq<Command>, genesis: int, n: nat)
    requires n < |journal|
    ensures AllSince(journal[..n + 1], genesis) <==> AllSince(journal[..n], genesis) && journal[n].body.time >= genesis
  {
    assert journal[..n + 1][..n] == journal[..n];
  }

  lemma {:induction false} AllSinceFails(journal: seq<Command>, genesis: int, n: nat)
    requires n < |journal| && journal[n].body.time < genesis
    ensures !AllSince(journal, genesis)
  {
    AllSinceMeans(journal, genesis);
  }

  function FlagsOf(w: Walk, initial: int): set<QualityFlag> {
    (set f | f in w.raised :: AccountFlag(f))
    + (if w.undefined then {NonPositiveHighWaterMark} else {})
    + (if initial <= 0 then {ZeroInitialEquity} else {})
    + (if w.occurred then {ExternalFlowRequiresTwr} else {})
  }

  lemma {:induction false} FlagsSay(w: Walk, report: Report)
    requires report.flags == FlagsOf(w, report.initialEquity) && report.externalOccurred == w.occurred
    requires w.undefined <==> report.initialEquity <= 0
    ensures Flagged(report, w.raised)
  {
  }

  /** The report that the final values of the walk and the final equity give. */
  ghost predicate Sums(u: Setup, w: Walk, final: int, report: Report) {
    && report.initialEquity == u.config.initialCash && report.finalEquity == final
    && report.netPnl == final - report.initialEquity - w.external
    && report.external == w.external && report.externalOccurred == w.occurred && report.path == w.path
    && report.returnSinceStart == (if w.occurred then None else DrawdownAt(final, report.initialEquity))
    && report.highWaterMark == w.peak && report.currentDrawdown == w.current && report.maximumDrawdown == w.maximum
    && report.flags == FlagsOf(w, report.initialEquity)
  }

  lemma {:induction false} Summarised(u: Setup, inputs: seq<Command>, w: Walk, report: Report)
    requires var r := Execute(u, inputs);
             && |r.trace| == |r.ledger.journal| && w == WalkAt(r.trace, States(u, r.ledger.journal), |r.trace|)
             && Sums(u, w, Equity(r.ledger.state), report)
    ensures Describes(u, Execute(u, inputs), report)
  {
    RunWalked(u, inputs);
    var states := States(u, Execute(u, inputs).ledger.journal);
    StateAt(u, Execute(u, inputs).ledger.journal, 0);
    WalkEnd(u, inputs, states, w);
    FlagsSay(w, report);
  }

  lemma {:induction false} WalkEnd(u: Setup, inputs: seq<Command>, states: seq<State>, w: Walk)
    requires Walked(Execute(u, inputs).trace, states, |Execute(u, inputs).trace|, w)
    requires states[0] == Init(u).state
    ensures var r := Execute(u, inputs);
            && w.external == Sum(r.trace, Deposited) - Sum(r.trace, Withdrawn)
            && (w.occurred <==> HasFlow(r.trace)) && (w.undefined <==> u.config.initialCash <= 0)
            && Equity(r.ledger.state) - u.config.initialCash - w.external == TradingResult(r.trace, r.ledger.state)
  {
    var r := Execute(u, inputs);
    assert r.trace[..|r.trace|] == r.trace;
    EveryRunConserved(u, inputs);
  }

  /** The reported maximum drawdown is the all-pairs minimum of rounded losses along the path, within [-1, 0]. */
  lemma {:induction false} ReportedDrawdown(u: Setup, r: Run, report: Report)
    requires Describes(u, r, report) && report.maximumDrawdown.Some?
    ensures forall i, j :: Pair(report.path, i, j) ==>
              report.maximumDrawdown.value <= HalfEven(Loss(report.path[i], report.path[j]))
    ensures exists i, j :: Worst(report.path, i, j) &&
              report.maximumDrawdown.value == HalfEven(Loss(report.path[i], report.path[j]))
    ensures -100000000 <= report.maximumDrawdown.value <= 0
  {
    TracksAllPairs(report.path, report.highWaterMark, report.maximumDrawdown);
  }
}
