/** What an account hands its producers, told by its journal: evidence of its fills, and the chain of margin rows. */
module Evidence {
  import opened Core
  import opened Model
  import opened Transitions
  import opened Frames
  import opened Runs
  import opened Conservation
  import opened Histories

  // ----- evidence of fills -----

  predicate Attests(p: PositionTrade, x: Entry)
    requires Traded(x)
  {
    var f, b := FillOf(x), x.command.body;
    && p.positionEvidence == f.positionEvidence && p.cause == b.cause && p.time == b.time && p.order == f.order
    && p.execution == f.execution && p.venueTrade == f.venueTrade && p.sequence == f.sequence
  }

  ghost function Filling(trade: Id): Entry -> Option<Entry> {
    (x: Entry) => if Traded(x) && FillOf(x).trade == trade then Some(x) else None
  }

  /** The evidence on record is that of the applied fills, by trade. */
  ghost predicate FillsAttested(trace: seq<Entry>, trades: map<Id, PositionTrade>) {
    forall t :: Attested(Latest(trace, Filling(t)), trades, t)
  }

  ghost predicate Attested(fill: Option<Entry>, trades: map<Id, PositionTrade>, t: Id) {
    match fill
    case None => t !in trades
    case Some(x) => t in trades && Traded(x) && Attests(trades[t], x)
  }

  lemma {:induction false} RecordAttests(c: Command, e: Effect)
    ensures Record(c, e).positionTrades
            == (if Traded(Entry(c, e.status))
                then e.state.positionTrades[c.body.payload.fill.trade := PositionTradeOf(c.body)]
                else e.state.positionTrades)
  {
  }

  lemma {:induction false} CommitAttests(u: Setup, s: State, c: Command, e: Effect)
    requires Commits(u, s, c, e)
    ensures Record(c, e).positionTrades
            == (if Traded(Entry(c, e.status))
                then s.positionTrades[c.body.payload.fill.trade := PositionTradeOf(c.body)]
                else s.positionTrades)
  {
    RecordAttests(c, e);
    if !Known(s, c.body) { TransitionFrame(u, s, c.body); }
  }

  lemma {:induction false} AttestsMore(
    trace: seq<Entry>, trades: map<Id, PositionTrade>, x: Entry, more: map<Id, PositionTrade>)
    requires FillsAttested(trace, trades)
    requires more == (if Traded(x) then trades[FillOf(x).trade := PositionTradeOf(x.command.body)] else trades)
    ensures FillsAttested(trace + [x], more)
  {
    forall t ensures Attested(Latest(trace + [x], Filling(t)), more, t) {
      LatestAppend(trace, x, Filling(t));
      assert Attested(Latest(trace, Filling(t)), trades, t);
    }
  }

  lemma {:induction false} EveryFillAttested(u: Setup, inputs: seq<Command>)
    ensures var r := Execute(u, inputs); FillsAttested(r.trace, r.ledger.state.positionTrades)
  {
    var law := (r: Run) => FillsAttested(r.trace, r.ledger.state.positionTrades);
    forall r, c, e | law(r) && Grows(u, r.ledger, c, e) ensures law(NextRun(r, c, e)) {
      GrowthCommits(u, r.ledger, c, e);
      CommitAttests(u, r.ledger.state, c, e);
      AttestsMore(r.trace, r.ledger.state.positionTrades, Entry(c, e.status), Record(c, e).positionTrades);
    }
    EveryRun(u, inputs, law);
  }

  // ----- margin rows -----

  datatype Chain = Chain(owner: Option<Json>, rows: map<Id, MarginRow>)

  predicate Margined(x: Entry) { Moved(x) && x.command.body.payload.Margin? }

  /** The producer's answer to a margin entry, at the owner state that the entries before it left. */
  ghost function Answer(u: Setup, before: Chain, x: Entry): Option<MarginEffect> {
    if Margined(x) && u.margin(x.command.body.payload.proof, before.owner).Ok?
    then Some(u.margin(x.command.body.payload.proof, before.owner).value)
    else None
  }

  /** The owner state and the rows that the margin entries leave, one after the other. */
  ghost function Chained(u: Setup, trace: seq<Entry>): Chain {
    if trace == [] then Chain(None, map[])
    else
      var n := |trace| - 1;
      var before := Chained(u, trace[..n]);
      var answer := Answer(u, before, trace[n]);
      if answer.None? then before
      else Chain(Some(answer.value.owner), before.rows[answer.value.after.id := answer.value.after])
  }

  /** A margin entry starts from the row as the entries before left it, and from none if there was none; its row belongs
      to this account and is in its currency. */
  ghost predicate Links(u: Setup, before: Chain, x: Entry) {
    var answer := Answer(u, before, x);
    && answer.Some?
    && var row := answer.value.after;
       && row.owner == u.config.owner && row.currency == u.config.currency
       && answer.value.before == (if row.id in before.rows then Some(before.rows[row.id]) else None)
       && (answer.value.before.None? ==> row.reserved >= 0)
  }

  ghost predicate MarginTold(u: Setup, trace: seq<Entry>, s: State) {
    && Chained(u, trace) == Chain(s.marginOwner, s.margin)
    && forall k | 0 <= k < |trace| && Margined(trace[k]) :: Links(u, Chained(u, trace[..k]), trace[k])
  }

  lemma {:induction false} CommitMargined(u: Setup, s: State, c: Command, e: Effect)
    requires Commits(u, s, c, e)
    ensures var x, t := Entry(c, e.status), Record(c, e);
            && (!Margined(x) ==> SameMargin(s, t))
            && (Margined(x) ==>
                  var before := Chain(s.marginOwner, s.margin);
                  && Links(u, before, x)
                  && var answer := Answer(u, before, x).value;
                     t.marginOwner == Some(answer.owner) && t.margin == s.margin[answer.after.id := answer.after])
  {
    RecordFrame(c, e);
    if !Known(s, c.body) { TransitionFrame(u, s, c.body); }
  }

  lemma {:induction false} ChainGrows(u: Setup, trace: seq<Entry>, s: State, x: Entry, t: State)
    requires MarginTold(u, trace, s)
    requires var before := Chain(s.marginOwner, s.margin);
             if Margined(x) then
               && Links(u, before, x)
               && var answer := Answer(u, before, x).value;
                  t.marginOwner == Some(answer.owner) && t.margin == s.margin[answer.after.id := answer.after]
             else SameMargin(s, t)
    ensures MarginTold(u, trace + [x], t)
  {
    var n := trace + [x];
    assert n[..|trace|] == trace;
    forall k | 0 <= k < |n| && Margined(n[k]) ensures Links(u, Chained(u, n[..k]), n[k]) {
      if k < |trace| { assert n[..k] == trace[..k]; }
    }
  }

  /** Over every run the margin rows are those its margin entries produced in turn, each from the row before it. */
  lemma {:induction false} EveryRowTold(u: Setup, inputs: seq<Command>)
    ensures var r := Execute(u, inputs); MarginTold(u, r.trace, r.ledger.state)
  {
    var law := (r: Run) => MarginTold(u, r.trace, r.ledger.state);
    forall r, c, e | law(r) && Grows(u, r.ledger, c, e) ensures law(NextRun(r, c, e)) {
      GrowthCommits(u, r.ledger, c, e);
      CommitMargined(u, r.ledger.state, c, e);
      ChainGrows(u, r.trace, r.ledger.state, Entry(c, e.status), Record(c, e));
    }
    EveryRun(u, inputs, law);
  }
}
