/** Time, order and standing of an account, told by its journal: the clock, what came too late, the flags, the evidence
    of fills and the margin rows. */
module Clocks {
  import opened Core
  import opened Model
  import opened Transitions
  import opened Frames
  import opened Runs
  import opened Conservation
  import opened Histories

  // ----- the clock -----

  /** An entry that moves the sequence and the clock. */
  predicate New(x: Entry) { x.status != Duplicate }

  /** The clock shows the latest time of all entries that were not duplicates. */
  ghost predicate ClockTold(trace: seq<Entry>, now: Option<int>) {
    && (forall i | 0 <= i < |trace| && New(trace[i]) :: now.Some? && trace[i].command.body.time <= now.value)
    && (now.Some? ==> exists i :: 0 <= i < |trace| && New(trace[i]) && trace[i].command.body.time == now.value)
  }

  /** Nothing is applied that is older than an entry before it. */
  ghost predicate Orderly(trace: seq<Entry>) {
    forall i, j | 0 <= i < j < |trace| && New(trace[i]) && Moved(trace[j]) ::
      trace[i].command.body.time <= trace[j].command.body.time
  }

  lemma {:induction false} ClockGrows(trace: seq<Entry>, now: Option<int>, x: Entry, next: Option<int>)
    requires ClockTold(trace, now)
    requires next == (if New(x) then Later(now, x.command.body.time) else now)
    ensures ClockTold(trace + [x], next)
  {
    var n := trace + [x];
    assert forall i | 0 <= i < |trace| :: n[i] == trace[i];
    if New(x) {
      if now.Some? && now.value > x.command.body.time {
        var i :| 0 <= i < |trace| && New(trace[i]) && trace[i].command.body.time == now.value;
        assert n[i].command.body.time == next.value;
      } else {
        assert n[|trace|] == x;
      }
    } else if now.Some? {
      var i :| 0 <= i < |trace| && New(trace[i]) && trace[i].command.body.time == now.value;
      assert n[i].command.body.time == next.value;
    }
  }

  lemma {:induction false} OrderlyGrows(trace: seq<Entry>, now: Option<int>, x: Entry)
    requires ClockTold(trace, now) && Orderly(trace) && (Moved(x) ==> !Before(x.command.body.time, now))
    ensures Orderly(trace + [x])
  {
  }

  // ----- what came too late -----

  /** A fill or an observation that is out of sequence, or older than the clock. */
  ghost predicate Late(trace: seq<Entry>, x: Entry) {
    || Overtaken(trace, x.command.body.time)
    || (x.command.body.payload.Trade? && Passed(trace, TradeSequenceOf, x.command.body.payload.fill.sequence))
    || (x.command.body.payload.Broker?
        && Passed(trace, ObservedSequenceOf, x.command.body.payload.observation.sequence))
  }

  ghost predicate Overtaken(trace: seq<Entry>, time: int) {
    exists i :: 0 <= i < |trace| && New(trace[i]) && time < trace[i].command.body.time
  }

  /** An applied entry already had this number or a greater one. */
  ghost predicate Passed(trace: seq<Entry>, key: Entry -> Option<nat>, sequence: nat) {
    exists i :: 0 <= i < |trace| && key(trace[i]).Some? && sequence <= key(trace[i]).value
  }

  predicate Timely(x: Entry) { x.command.body.payload.Trade? || x.command.body.payload.Broker? }

  /** A new fill or observation is stale exactly when it comes too late; nothing else ever is. */
  ghost predicate StaleTold(trace: seq<Entry>) {
    forall k | 0 <= k < |trace| && New(trace[k]) ::
      trace[k].status == Stale <==> Timely(trace[k]) && Late(trace[..k], trace[k])
  }

  lemma {:induction false} OvertakenMeans(trace: seq<Entry>, now: Option<int>, time: int)
    requires ClockTold(trace, now)
    ensures Overtaken(trace, time) <==> Before(time, now)
  {
    if Before(time, now) {
      var i :| 0 <= i < |trace| && New(trace[i]) && trace[i].command.body.time == now.value;
      assert time < trace[i].command.body.time;
    }
  }

  lemma {:induction false} PassedMeans(trace: seq<Entry>, key: Entry -> Option<nat>, sequence: nat)
    requires Rising(trace, key)
    ensures Passed(trace, key, sequence) <==> Latest<nat>(trace, key).Some? && sequence <= Latest<nat>(trace, key).value
  {
    LatestFound(trace, key);
    if i :| 0 <= i < |trace| && key(trace[i]).Some? && sequence <= key(trace[i]).value { LatestTops(trace, key, i); }
    if Latest<nat>(trace, key).Some? && sequence <= Latest<nat>(trace, key).value {
      var i :| 0 <= i < |trace| && key(trace[i]) == Latest<nat>(trace, key);
      assert key(trace[i]).Some?;
    }
  }

  lemma {:induction false} LatestFound(trace: seq<Entry>, key: Entry -> Option<nat>)
    ensures Latest<nat>(trace, key).Some? ==> exists i :: 0 <= i < |trace| && key(trace[i]) == Latest<nat>(trace, key)
  {
    if trace != [] {
      var n := |trace| - 1;
      if key(trace[n]).None? && Latest<nat>(trace, key).Some? {
        LatestFound(trace[..n], key);
        var i :| 0 <= i < n && key(trace[..n][i]) == Latest<nat>(trace[..n], key);
        assert key(trace[i]) == Latest<nat>(trace, key);
      }
    }
  }

  // ----- one entry -----

  /** How an entry's answer follows from the time and the sequences before it. */
  ghost predicate Answered(s: State, x: Entry) {
    && x.status != Conflict
    && (Moved(x) ==> !Before(x.command.body.time, s.now))
    && (New(x) ==> (x.status == Stale <==> Timely(x) && TooLate(s, x)))
  }

  predicate TooLate(s: State, x: Entry) {
    || Before(x.command.body.time, s.now)
    || (x.command.body.payload.Trade? && s.tradeSequence.Some?
        && x.command.body.payload.fill.sequence <= s.tradeSequence.value)
    || (x.command.body.payload.Broker? && s.brokerSequence.Some?
        && x.command.body.payload.observation.sequence <= s.brokerSequence.value)
  }

  lemma {:induction false} CommitAnswered(u: Setup, s: State, c: Command, e: Effect)
    requires Commits(u, s, c, e)
    ensures Answered(s, Entry(c, e.status))
  {
    if !Known(s, c.body) {
      TransitionFrame(u, s, c.body);
      TransitionEffected(u, s, c, e);
    }
  }

  lemma {:induction false} CommitClock(u: Setup, s: State, c: Command, e: Effect)
    requires Commits(u, s, c, e)
    ensures Record(c, e).now == (if e.status != Duplicate then Later(s.now, c.body.time) else s.now)
  {
    RecordFrame(c, e);
    if !Known(s, c.body) { TransitionFrame(u, s, c.body); }
  }

  lemma {:induction false} StaleGrows(trace: seq<Entry>, s: State, x: Entry)
    requires StaleTold(trace) && ClockTold(trace, s.now) && SequencesTold(trace, s) && Answered(s, x)
    ensures StaleTold(trace + [x])
  {
    var n := trace + [x];
    OvertakenMeans(trace, s.now, x.command.body.time);
    if x.command.body.payload.Trade? {
      PassedMeans(trace, TradeSequenceOf, x.command.body.payload.fill.sequence);
    }
    if x.command.body.payload.Broker? {
      PassedMeans(trace, ObservedSequenceOf, x.command.body.payload.observation.sequence);
    }
    assert Late(trace, x) <==> TooLate(s, x);
    forall k | 0 <= k < |n| && New(n[k]) ensures n[k].status == Stale <==> Timely(n[k]) && Late(n[..k], n[k]) {
      if k < |trace| {
        assert n[..k] == trace[..k] && n[k] == trace[k];
      } else {
        assert n[..k] == trace && n[k] == x;
      }
    }
  }

  ghost predicate TimesTold(trace: seq<Entry>, s: State) {
    ClockTold(trace, s.now) && Orderly(trace) && StaleTold(trace)
  }

  lemma {:induction false} CommitTimes(u: Setup, r: Run, c: Command, e: Effect)
    requires TimesTold(r.trace, r.ledger.state) && SequencesTold(r.trace, r.ledger.state)
    requires Grows(u, r.ledger, c, e)
    ensures var n := NextRun(r, c, e); TimesTold(n.trace, n.ledger.state)
  {
    var s, x := r.ledger.state, Entry(c, e.status);
    GrowthCommits(u, r.ledger, c, e);
    CommitAnswered(u, s, c, e);
    CommitClock(u, s, c, e);
    ClockGrows(r.trace, s.now, x, Record(c, e).now);
    OrderlyGrows(r.trace, s.now, x);
    StaleGrows(r.trace, s, x);
  }

  /** Over every run the clock is the latest time of what was not a duplicate, nothing older than an earlier entry is
      applied, and a fill or observation is stale exactly when its number or its time has been passed. */
  lemma {:induction false} EveryTimeTold(u: Setup, inputs: seq<Command>)
    ensures var r := Execute(u, inputs); TimesTold(r.trace, r.ledger.state)
  {
    var law := (r: Run) => TimesTold(r.trace, r.ledger.state) && SequencesTold(r.trace, r.ledger.state);
    forall r, c, e | law(r) && Grows(u, r.ledger, c, e) ensures law(NextRun(r, c, e)) {
      CommitTimes(u, r, c, e);
      CommitSequences(u, r, c, e);
    }
    EveryRun(u, inputs, law);
  }
}
