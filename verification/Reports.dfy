/** Which points and which flags a performance report shows, told by the journal. */
module Reports {
  import opened Model
  import opened Transitions
  import opened Frames
  import opened Runs
  import opened Books
  import opened Histories
  import opened Verdicts
  import opened Performance

  /** The account after entry `k` comes from the account before it by committing that entry. */
  lemma {:induction false} PointCommits(u: Setup, inputs: seq<Command>, k: nat) returns (c: Command, e: Effect)
    requires k < |Execute(u, inputs).trace|
    ensures var r := Execute(u, inputs);
            && |r.trace| == |r.ledger.journal| && r.trace[k] == Entry(c, e.status)
            && Commits(u, States(u, r.ledger.journal)[k], c, e)
            && States(u, r.ledger.journal)[k + 1] == Record(c, e)
  {
    TraceLength(u, inputs);
    var journal := Execute(u, inputs).ledger.journal;
    var a := Execute(u, journal[..k]);
    PrefixRun(u, inputs, k);
    PrefixRun(u, inputs, k + 1);
    NextPrefix(u, journal, k);
    c, e := AdvanceShape(u, a, journal[k]);
    GrowthCommits(u, a.ledger, c, e);
    assert Execute(u, inputs).trace[..k + 1][k] == Execute(u, inputs).trace[k];
  }

  // ----- points -----

  lemma {:induction false} CountNext(trace: seq<Entry>, k: nat)
    requires k < |trace|
    ensures CountNew(trace[..k + 1]) == CountNew(trace[..k]) + (if trace[k].status == Duplicate then 0 else 1)
  {
    assert trace[..k + 1][..k] == trace[..k];
  }

  lemma {:induction false} PathLength(trace: seq<Entry>, states: seq<State>, k: nat)
    requires k <= |trace| && |states| == |trace| + 1
    ensures |Path(trace, states, k)| == 1 + CountNew(trace[..k])
    ensures Path(trace, states, k)[0] == Equity(states[0])
  {
    if k > 0 {
      PathLength(trace, states, k - 1);
      CountNext(trace, k - 1);
    }
  }

  lemma {:induction false} PathPoint(trace: seq<Entry>, states: seq<State>, k: nat, n: nat)
    requires k < n <= |trace| && |states| == |trace| + 1 && trace[k].status != Duplicate
    ensures CountNew(trace[..k + 1]) < |Path(trace, states, n)|
    ensures Path(trace, states, n)[CountNew(trace[..k + 1])] == states[k + 1].cash + states[k + 1].marketValue
    decreases n
  {
    PathLength(trace, states, n);
    PathLength(trace, states, n - 1);
    CountNext(trace, n - 1);
    if n > k + 1 { PathPoint(trace, states, k, n - 1); } else { CountNext(trace, k); }
  }

  // ----- flags -----

  lemma {:induction false} DuplicateKeepsFlags(u: Setup, s: State, c: Command, e: Effect)
    requires Commits(u, s, c, e) && e.status == Duplicate
    ensures Record(c, e).flags == s.flags
  {
    RecordFrame(c, e);
    if !Known(s, c.body) { TransitionFrame(u, s, c.body); }
  }

  ghost predicate RaisedBy(states: seq<State>, k: nat, f: Flag)
    requires k < |states|
  {
    exists j :: 0 <= j <= k && f in states[j].flags
  }

  /** Duplicates leave the flags alone. */
  ghost predicate Calm(trace: seq<Entry>, states: seq<State>) {
    && |states| == |trace| + 1
    && forall j | 0 <= j < |trace| && trace[j].status == Duplicate :: states[j + 1].flags == states[j].flags
  }

  lemma {:induction false} RaisedAny(trace: seq<Entry>, states: seq<State>, k: nat, f: Flag)
    requires Calm(trace, states) && k <= |trace|
    ensures f in Raised(trace, states, k) <==> RaisedBy(states, k, f)
  {
    if k == 0 {
      assert RaisedBy(states, 0, f) <==> f in states[0].flags;
    } else {
      RaisedAny(trace, states, k - 1, f);
      RaisedNext(states, k, f);
      if f in states[k - 1].flags { assert RaisedBy(states, k - 1, f); }
    }
  }

  lemma {:induction false} RaisedNext(states: seq<State>, k: nat, f: Flag)
    requires 0 < k < |states|
    ensures RaisedBy(states, k, f) <==> RaisedBy(states, k - 1, f) || f in states[k].flags
  {
  }

  lemma {:induction false} EveryRunCalm(u: Setup, inputs: seq<Command>)
    requires |Execute(u, inputs).trace| == |Execute(u, inputs).ledger.journal|
    ensures var r := Execute(u, inputs); Calm(r.trace, States(u, r.ledger.journal))
  {
    var r := Execute(u, inputs);
    var states := States(u, r.ledger.journal);
    forall j | 0 <= j < |r.trace| && r.trace[j].status == Duplicate ensures states[j + 1].flags == states[j].flags {
      var c, e := PointCommits(u, inputs, j);
      DuplicateKeepsFlags(u, states[j], c, e);
    }
  }

  lemma {:induction false} PointFlags(u: Setup, inputs: seq<Command>, k: nat)
    requires |Execute(u, inputs).trace| == |Execute(u, inputs).ledger.journal| && k <= |Execute(u, inputs).trace|
    ensures var r := Execute(u, inputs); FlagsTold(r.trace[..k], States(u, r.ledger.journal)[k].flags)
  {
    var journal := Execute(u, inputs).ledger.journal;
    PrefixRun(u, inputs, k);
    EveryFlagTold(u, journal[..k]);
  }

  /** Some applied observation was not proven. */
  ghost predicate EverUnproven(trace: seq<Entry>) {
    exists k :: 0 <= k < |trace| && Witnessed(trace[k]) && !Proved(trace, k)
  }

  lemma {:induction false} UnprovenSometime(trace: seq<Entry>)
    ensures EverUnproven(trace) <==> exists k :: 0 <= k <= |trace| && LastUnproven(trace[..k])
  {
    if k :| 0 <= k <= |trace| && LastUnproven(trace[..k]) {
      var p := trace[..k];
      var j :| 0 <= j < |p| && Witnessed(p[j]) && !Proved(p, j)
               && forall i | j < i < |p| :: !Witnessed(p[i]);
      assert p[..j] == trace[..j];
      assert Witnessed(trace[j]) && !Proved(trace, j);
    }
    if j :| 0 <= j < |trace| && Witnessed(trace[j]) && !Proved(trace, j) {
      var p := trace[..j + 1];
      assert p[..j] == trace[..j] && p[j] == trace[j];
      assert !Proved(p, j) && LastUnproven(p);
    }
  }

  lemma {:induction false} StaleSometime(trace: seq<Entry>)
    ensures Sometime(trace, StaleFill) <==> exists k :: 0 <= k <= |trace| && Sometime(trace[..k], StaleFill)
  {
    assert trace[..|trace|] == trace;
    if k :| 0 <= k <= |trace| && Sometime(trace[..k], StaleFill) {
      var i :| 0 <= i < k && StaleFill(trace[..k][i]);
      assert StaleFill(trace[i]);
    }
  }

  /** A report shows one point for genesis and one for each new entry, its equity being cash plus market value at that
      moment; it shows the stale trade flag exactly when some fill was stale, the missing proof flag exactly when some
      observation was not proven, and the conflict flag exactly when the account was in conflict at some point. */
  lemma {:induction false} ReportTold(u: Setup, inputs: seq<Command>, report: Report)
    requires Describes(u, Execute(u, inputs), report)
    ensures var r := Execute(u, inputs);
            var states := States(u, r.ledger.journal);
            && |report.path| == 1 + CountNew(r.trace) && report.path[0] == u.config.initialCash
            && (forall k | 0 <= k < |r.trace| && r.trace[k].status != Duplicate ::
                  PointShown(report, r.trace, states, k))
            && (AccountFlag(StaleTrade) in report.flags <==> Sometime(r.trace, StaleFill))
            && (AccountFlag(ProofUnavailable) in report.flags <==> EverUnproven(r.trace))
            && (AccountFlag(LocalConflict) in report.flags <==> RaisedBy(states, |r.trace|, LocalConflict))
  {
    var r := Execute(u, inputs);
    var states := States(u, r.ledger.journal);
    StateAt(u, r.ledger.journal, 0);
    PathLength(r.trace, states, |r.trace|);
    assert r.trace[..|r.trace|] == r.trace;
    forall k | 0 <= k < |r.trace| && r.trace[k].status != Duplicate ensures PointShown(report, r.trace, states, k) {
      PathPoint(r.trace, states, k, |r.trace|);
    }
    FlagsShown(u, inputs);
  }

  ghost predicate PointShown(report: Report, trace: seq<Entry>, states: seq<State>, k: nat)
    requires k < |trace| && |states| == |trace| + 1
  {
    var n := CountNew(trace[..k + 1]);
    n < |report.path| && report.path[n] == states[k + 1].cash + states[k + 1].marketValue
  }

  lemma {:induction false} FlagsShown(u: Setup, inputs: seq<Command>)
    requires |Execute(u, inputs).trace| == |Execute(u, inputs).ledger.journal|
    ensures var r := Execute(u, inputs);
            var states := States(u, r.ledger.journal);
            var raised := Raised(r.trace, states, |r.trace|);
            && (StaleTrade in raised <==> Sometime(r.trace, StaleFill))
            && (ProofUnavailable in raised <==> EverUnproven(r.trace))
            && (LocalConflict in raised <==> RaisedBy(states, |r.trace|, LocalConflict))
  {
    var r := Execute(u, inputs);
    var states := States(u, r.ledger.journal);
    var n := |r.trace|;
    EveryRunCalm(u, inputs);
    forall f ensures f in Raised(r.trace, states, n) <==> RaisedBy(states, n, f) { RaisedAny(r.trace, states, n, f); }
    StaleSometime(r.trace);
    UnprovenSometime(r.trace);
    forall k | 0 <= k <= n ensures FlagsTold(r.trace[..k], states[k].flags) { PointFlags(u, inputs, k); }
  }
}
