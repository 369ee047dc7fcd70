/** Whole runs: any sequence of commands against a new account, with the status each journaled command got. */
module Runs {
  import opened Core
  import opened Model
  import opened Transitions

  datatype Entry = Entry(command: Command, status: Status)
  datatype Run = Run(ledger: Ledger, trace: seq<Entry>)

  ghost function Advance(u: Setup, r: Run, input: Command): Run {
    match Step(u, r.ledger, input)
    case Err(_) => r
    case Ok(reply) =>
      var n := |r.ledger.journal|;
      if |reply.ledger.journal| <= n then r
      else Run(reply.ledger, r.trace + [Entry(reply.ledger.journal[n], reply.status)])
  }

  /** The account after a run; refused and merely answered commands leave it as it was. */
  ghost function Execute(u: Setup, inputs: seq<Command>): Run {
    if inputs == [] then Run(Init(u), [])
    else Advance(u, Execute(u, inputs[..|inputs| - 1]), inputs[|inputs| - 1])
  }

  /** The canonical command `c` is appended to `m` with effect `e`. */
  ghost predicate Grows(u: Setup, m: Ledger, c: Command, e: Effect) {
    && c.body.owner == u.config.owner
    && Normalize(c, u.config.precision) == Ok(c)
    && c.id !in m.state.receipts
    && (Admission(c.body.payload) ==> u.journalFits(m, c))
    && !Conflicting(m.state, c.body)
    && Decide(u, m.state, c.body) == Ok(e)
    && Gates(u, Next(m, c, e), Admission(c.body.payload)) == None
  }

  /** The part of growth that concerns the state alone. */
  ghost predicate Commits(u: Setup, s: State, c: Command, e: Effect) {
    && Normalize(c, u.config.precision) == Ok(c)
    && c.id !in s.receipts
    && !Conflicting(s, c.body)
    && Decide(u, s, c.body) == Ok(e)
    && Validate(Record(c, e)) == None
  }

  lemma {:induction false} GrowthCommits(u: Setup, m: Ledger, c: Command, e: Effect)
    requires Grows(u, m, c, e)
    ensures Commits(u, m.state, c, e)
  {
  }

  function Next(m: Ledger, c: Command, e: Effect): Ledger { Append(m, c, Record(c, e)) }

  function NextRun(r: Run, c: Command, e: Effect): Run {
    Run(Next(r.ledger, c, e), r.trace + [Entry(c, e.status)])
  }

  /** Every accepted step either leaves the ledger alone or appends one canonical command; replaying that command
      takes the same step. */
  lemma {:induction false} StepShape(u: Setup, m: Ledger, input: Command) returns (c: Command, e: Effect)
    requires Step(u, m, input).Ok?
    ensures var reply := Step(u, m, input).value;
            || reply.ledger == m
            || (Grows(u, m, c, e) && reply == Reply(Next(m, c, e), e.status))
    ensures c == Normalize(input, u.config.precision).value
  {
    c := Normalize(input, u.config.precision).value;
    NormalizeIdempotent(input, u.config.precision);
    assert Step(u, m, input) == Accept(u, m, c);
    if c.id in m.state.receipts || Conflicting(m.state, c.body) {
      e := Effect(m.state, Duplicate);
    } else {
      e := Decide(u, m.state, c.body).value;
    }
  }

  lemma {:induction false} GrowingStep(u: Setup, m: Ledger, c: Command, e: Effect)
    requires Grows(u, m, c, e)
    ensures Step(u, m, c) == Ok(Reply(Next(m, c, e), e.status))
  {
  }

  lemma {:induction false} AdvanceShape(u: Setup, r: Run, input: Command) returns (c: Command, e: Effect)
    ensures || Advance(u, r, input) == r
            || (Grows(u, r.ledger, c, e) && Advance(u, r, input) == NextRun(r, c, e))
  {
    var step := Step(u, r.ledger, input);
    if step.Ok? {
      c, e := StepShape(u, r.ledger, input);
    } else {
      c, e := input, Effect(r.ledger.state, Duplicate);
    }
  }

  lemma {:induction false} AdvanceLedger(u: Setup, r: Run, input: Command)
    ensures Advance(u, r, input).ledger
         == (if Step(u, r.ledger, input).Ok? then Step(u, r.ledger, input).value.ledger else r.ledger)
  {
    if Step(u, r.ledger, input).Ok? { var c, e := StepShape(u, r.ledger, input); }
  }

  lemma {:induction false} ExecuteLedger(u: Setup, inputs: seq<Command>, input: Command)
    ensures Execute(u, inputs + [input]).ledger
         == (if Step(u, Execute(u, inputs).ledger, input).Ok?
             then Step(u, Execute(u, inputs).ledger, input).value.ledger else Execute(u, inputs).ledger)
  {
    ExecuteOne(u, inputs, input);
    AdvanceLedger(u, Execute(u, inputs), input);
  }

  lemma {:induction false} ExecuteOne(u: Setup, inputs: seq<Command>, input: Command)
    ensures Execute(u, inputs + [input]) == Advance(u, Execute(u, inputs), input)
  {
    assert (inputs + [input])[..|inputs|] == inputs;
  }

  /** Continuing a run from where it stands. */
  ghost function Continue(u: Setup, r: Run, inputs: seq<Command>): Run {
    if inputs == [] then r else Advance(u, Continue(u, r, inputs[..|inputs| - 1]), inputs[|inputs| - 1])
  }

  lemma {:induction false} ExecuteContinues(u: Setup, inputs: seq<Command>, more: seq<Command>)
    ensures Execute(u, inputs + more) == Continue(u, Execute(u, inputs), more)
    decreases |more|
  {
    if more == [] {
      assert inputs + more == inputs;
    } else {
      var n := |more| - 1;
      var front := inputs + more[..n];
      assert inputs + more == front + [more[n]];
      ExecuteOne(u, front, more[n]);
      ExecuteContinues(u, inputs, more[..n]);
    }
  }

  // ----- sums over a run -----

  ghost function Sum(trace: seq<Entry>, f: Entry -> int): int {
    if trace == [] then 0 else Sum(trace[..|trace| - 1], f) + f(trace[|trace| - 1])
  }

  lemma {:induction false} SumAppend(trace: seq<Entry>, x: Entry, f: Entry -> int)
    ensures Sum(trace + [x], f) == Sum(trace, f) + f(x)
  {
    assert (trace + [x])[..|trace|] == trace;
  }

  // ----- what a journal says -----

  ghost predicate Sometime(trace: seq<Entry>, did: Entry -> bool) {
    exists i :: 0 <= i < |trace| && did(trace[i])
  }

  /** Some entry raised it, and no later one took it down. */
  ghost predicate Stands(trace: seq<Entry>, up: Entry -> bool, down: Entry -> bool) {
    exists i :: 0 <= i < |trace| && up(trace[i]) && forall j :: i < j < |trace| ==> !down(trace[j])
  }

  lemma {:induction false} SometimeAppend(trace: seq<Entry>, x: Entry, did: Entry -> bool)
    ensures Sometime(trace + [x], did) <==> Sometime(trace, did) || did(x)
  {
    var n := trace + [x];
    if i :| 0 <= i < |trace| && did(trace[i]) { assert n[i] == trace[i]; }
    if did(x) { assert n[|trace|] == x; }
  }

  lemma {:induction false} StandsAppend(trace: seq<Entry>, x: Entry, up: Entry -> bool, down: Entry -> bool)
    ensures Stands(trace + [x], up, down) <==> up(x) || (Stands(trace, up, down) && !down(x))
  {
    var n := trace + [x];
    assert forall i | 0 <= i < |trace| :: n[i] == trace[i];
    assert n[|trace|] == x;
    if Stands(n, up, down) {
      var i :| 0 <= i < |n| && up(n[i]) && forall j :: i < j < |n| ==> !down(n[j]);
      if i < |trace| { StandsAt(trace, up, down, i); }
    }
    if Stands(trace, up, down) && !down(x) {
      var i :| 0 <= i < |trace| && up(trace[i]) && forall j :: i < j < |trace| ==> !down(trace[j]);
      StandsAt(n, up, down, i);
    }
    if up(x) { StandsAt(n, up, down, |trace|); }
  }

  lemma {:induction false} StandsAt(trace: seq<Entry>, up: Entry -> bool, down: Entry -> bool, i: nat)
    requires i < |trace| && up(trace[i]) && forall j :: i < j < |trace| ==> !down(trace[j])
    ensures Stands(trace, up, down)
  {
  }

  lemma {:induction false} NotStanding(trace: seq<Entry>, up: Entry -> bool, down: Entry -> bool)
    ensures Stands(trace, up, down) ==> Sometime(trace, up)
  {
  }

  /** What the last entry that has something to say says. */
  ghost function Latest<T>(trace: seq<Entry>, key: Entry -> Option<T>): Option<T> {
    if trace == [] then None
    else
      var n := |trace| - 1;
      if key(trace[n]).Some? then key(trace[n]) else Latest(trace[..n], key)
  }

  lemma {:induction false} LatestAppend<T>(trace: seq<Entry>, x: Entry, key: Entry -> Option<T>)
    ensures Latest(trace + [x], key) == (if key(x).Some? then key(x) else Latest(trace, key))
  {
    assert (trace + [x])[..|trace|] == trace;
  }

  /** Induction over runs: what a new account satisfies and every journaled command keeps. */
  lemma {:induction false} EveryRun(u: Setup, inputs: seq<Command>, law: Run -> bool)
    requires law(Run(Init(u), []))
    requires forall r, c, e | law(r) && Grows(u, r.ledger, c, e) :: law(NextRun(r, c, e))
    ensures law(Execute(u, inputs))
  {
    if inputs != [] {
      var n := |inputs| - 1;
      EveryRun(u, inputs[..n], law);
      var c, e := AdvanceShape(u, Execute(u, inputs[..n]), inputs[n]);
    }
  }
}
