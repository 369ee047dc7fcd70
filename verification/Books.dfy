/** Exactly-once effects: receipts, identities and the sequence over every run. */
module Books {
  import opened Core
  import opened Model
  import opened Transitions
  import opened Frames
  import opened Runs

  ghost function CountNew(trace: seq<Entry>): nat {
    if trace == [] then 0
    else CountNew(trace[..|trace| - 1]) + (if trace[|trace| - 1].status == Duplicate then 0 else 1)
  }

  ghost predicate Journaled(trace: seq<Entry>, journal: seq<Command>) {
    |trace| == |journal| && forall k :: 0 <= k < |trace| ==> trace[k].command == journal[k]
  }

  /** Receipts are exactly the journal, by command id, and no command id is journaled twice. */
  ghost predicate Receipted(trace: seq<Entry>, receipts: map<Id, Command>) {
    && (forall k :: 0 <= k < |trace| ==>
          trace[k].command.id in receipts && receipts[trace[k].command.id] == trace[k].command)
    && (forall id :: id in receipts ==> HasId(trace, id))
    && (forall i, j :: 0 <= i < j < |trace| ==> trace[i].command.id != trace[j].command.id)
  }

  ghost predicate HasId(trace: seq<Entry>, id: Id) {
    exists k :: 0 <= k < |trace| && trace[k].command.id == id
  }

  function Claims(x: Entry): set<Identity> { Aliases(x.command.body.payload) }

  /** Every identity that a journaled command claims is bound to that command's content. */
  ghost predicate Bound(trace: seq<Entry>, semantic: map<Identity, Body>) {
    forall k, a :: 0 <= k < |trace| && a in Claims(trace[k]) ==>
      a in semantic && semantic[a] == trace[k].command.body
  }

  /** No business identity takes effect twice: two entries that were not duplicates share none. */
  ghost predicate ExactlyOnce(trace: seq<Entry>) {
    forall i, j :: 0 <= i < j < |trace| && trace[i].status != Duplicate && trace[j].status != Duplicate ==>
      Claims(trace[i]) !! Claims(trace[j])
  }

  predicate Canonical(u: Setup, c: Command) {
    Normalize(c, u.config.precision) == Ok(c) && c.body.owner == u.config.owner
  }

  ghost predicate Books(u: Setup, trace: seq<Entry>, journal: seq<Command>, s: State) {
    && Journaled(trace, journal)
    && Receipted(trace, s.receipts)
    && Bound(trace, s.semantic)
    && ExactlyOnce(trace)
    && s.sequence == CountNew(trace)
    && (forall k :: 0 <= k < |trace| ==> Canonical(u, trace[k].command))
  }

  ghost predicate Kept(u: Setup, r: Run) {
    Books(u, r.trace, r.ledger.journal, r.ledger.state) && Validate(r.ledger.state) == None
  }

  lemma {:induction false} RecordWrites(c: Command, e: Effect)
    ensures Record(c, e).receipts == e.state.receipts[c.id := c]
    ensures Record(c, e).semantic == e.state.semantic + map a | a in Aliases(c.body.payload) :: c.body
    ensures Record(c, e).sequence == e.state.sequence + (if e.status == Duplicate then 0 else 1)
  {
  }

  lemma {:induction false} RecordBooks(u: Setup, s: State, c: Command, e: Effect)
    requires Commits(u, s, c, e)
    ensures Record(c, e).receipts == s.receipts[c.id := c]
    ensures Record(c, e).semantic == s.semantic + map a | a in Aliases(c.body.payload) :: c.body
    ensures Record(c, e).sequence == s.sequence + (if e.status == Duplicate then 0 else 1)
    ensures Known(s, c.body) ==> e.status == Duplicate && e.state == s
    ensures Validate(Record(c, e)) == None
  {
    RecordWrites(c, e);
    if !Known(s, c.body) { TransitionFrame(u, s, c.body); }
  }

  lemma {:induction false} ReceiptsGrow(trace: seq<Entry>, receipts: map<Id, Command>, x: Entry)
    requires Receipted(trace, receipts) && x.command.id !in receipts
    ensures Receipted(trace + [x], receipts[x.command.id := x.command])
  {
    var n, next := trace + [x], receipts[x.command.id := x.command];
    forall id | id in next ensures HasId(n, id) {
      if id == x.command.id {
        assert n[|trace|].command.id == id;
      } else {
        assert HasId(trace, id);
        var k :| 0 <= k < |trace| && trace[k].command.id == id;
        assert n[k].command.id == id;
      }
    }
    forall i, j | 0 <= i < j < |n| ensures n[i].command.id != n[j].command.id {
      assert n[i] == trace[i];
    }
  }

  lemma {:induction false} BindingsGrow(trace: seq<Entry>, semantic: map<Identity, Body>, x: Entry)
    requires Bound(trace, semantic)
    requires forall a :: a in Claims(x) && a in semantic ==> semantic[a] == x.command.body
    ensures Bound(trace + [x], semantic + map a | a in Claims(x) :: x.command.body)
  {
    var n, next := trace + [x], semantic + map a | a in Claims(x) :: x.command.body;
    forall k, a | 0 <= k < |n| && a in Claims(n[k])
      ensures a in next && next[a] == n[k].command.body
    {
      if k < |trace| {
        assert n[k] == trace[k];
        assert a in semantic && semantic[a] == trace[k].command.body;
      }
    }
  }

  lemma {:induction false} OnceGrows(trace: seq<Entry>, semantic: map<Identity, Body>, x: Entry)
    requires Bound(trace, semantic) && ExactlyOnce(trace)
    requires x.status != Duplicate ==> forall a :: a in Claims(x) ==> a !in semantic
    ensures ExactlyOnce(trace + [x])
  {
    var n := trace + [x];
    forall i, j | 0 <= i < j < |n| && n[i].status != Duplicate && n[j].status != Duplicate
      ensures Claims(n[i]) !! Claims(n[j])
    {
      assert n[i] == trace[i];
      if j < |trace| {
        assert n[j] == trace[j];
      } else {
        forall a | a in Claims(trace[i]) ensures a !in Claims(x) {
          assert a in semantic;
        }
      }
    }
  }

  lemma {:induction false} TraceGrows(u: Setup, trace: seq<Entry>, journal: seq<Command>, x: Entry)
    requires Journaled(trace, journal) && Canonical(u, x.command)
    requires forall k :: 0 <= k < |trace| ==> Canonical(u, trace[k].command)
    ensures Journaled(trace + [x], journal + [x.command])
    ensures forall k :: 0 <= k < |trace + [x]| ==> Canonical(u, (trace + [x])[k].command)
    ensures CountNew(trace + [x]) == CountNew(trace) + (if x.status == Duplicate then 0 else 1)
  {
    assert (trace + [x])[..|trace|] == trace;
  }

  lemma {:induction false} FreshOrRedelivered(u: Setup, s: State, c: Command, e: Effect)
    requires Commits(u, s, c, e)
    ensures forall a :: a in Aliases(c.body.payload) && a in s.semantic ==> s.semantic[a] == c.body
    ensures e.status != Duplicate ==> forall a :: a in Aliases(c.body.payload) ==> a !in s.semantic
  {
  }

  /** The books after one more entry, for any state that wrote it down properly. */
  lemma {:induction false} BooksNext(
    u: Setup, trace: seq<Entry>, journal: seq<Command>, s: State, x: Entry, t: State)
    requires Books(u, trace, journal, s) && Canonical(u, x.command) && x.command.id !in s.receipts
    requires t.receipts == s.receipts[x.command.id := x.command]
    requires t.semantic == s.semantic + map a | a in Claims(x) :: x.command.body
    requires t.sequence == s.sequence + (if x.status == Duplicate then 0 else 1)
    requires forall a :: a in Claims(x) && a in s.semantic ==> s.semantic[a] == x.command.body
    requires x.status != Duplicate ==> forall a :: a in Claims(x) ==> a !in s.semantic
    ensures Books(u, trace + [x], journal + [x.command], t)
  {
    ReceiptsGrow(trace, s.receipts, x);
    BindingsGrow(trace, s.semantic, x);
    OnceGrows(trace, s.semantic, x);
    TraceGrows(u, trace, journal, x);
  }

  lemma {:induction false} CommitBooks(
    u: Setup, trace: seq<Entry>, journal: seq<Command>, s: State, c: Command, e: Effect)
    requires Books(u, trace, journal, s) && Commits(u, s, c, e) && c.body.owner == u.config.owner
    ensures Books(u, trace + [Entry(c, e.status)], journal + [c], Record(c, e))
  {
    RecordBooks(u, s, c, e);
    FreshOrRedelivered(u, s, c, e);
    BooksNext(u, trace, journal, s, Entry(c, e.status), Record(c, e));
  }

  lemma {:induction false} GrowthKept(u: Setup, r: Run, c: Command, e: Effect)
    requires Kept(u, r) && Grows(u, r.ledger, c, e)
    ensures Kept(u, NextRun(r, c, e))
  {
    GrowthCommits(u, r.ledger, c, e);
    CommitBooks(u, r.trace, r.ledger.journal, r.ledger.state, c, e);
  }

  lemma {:induction false} AdvanceKept(u: Setup, r: Run, input: Command)
    requires Kept(u, r)
    ensures Kept(u, Advance(u, r, input))
  {
    var c, e := AdvanceShape(u, r, input);
    if Advance(u, r, input) != r { GrowthKept(u, r, c, e); }
  }

  lemma {:induction false} InitKept(u: Setup)
    ensures Kept(u, Execute(u, []))
  {
    var s := Init(u).state;
    assert Remaining(s.reservations) == map[] && MarginReserved(s.margin) == map[] && MarginOccupied(s.margin) == map[];
  }

  /** The books of every reachable account: each identity takes effect once, receipts are the journal, and the
      sequence counts what was not a duplicate. */
  lemma {:induction false} EveryRunKept(u: Setup, inputs: seq<Command>)
    ensures Kept(u, Execute(u, inputs))
  {
    if inputs == [] {
      InitKept(u);
    } else {
      var n := |inputs| - 1;
      EveryRunKept(u, inputs[..n]);
      AdvanceKept(u, Execute(u, inputs[..n]), inputs[n]);
    }
  }
}
