/** Deferred sale credits: each is outstanding or settled, to the last unit, and never overwritten. */
module Receivables {
  import opened Model
  import opened Transitions
  import opened Frames
  import opened Runs
  import opened Conservation
  import opened Books

  /** An applied fill whose positive credit may not be withdrawn before it settles. */
  predicate Deferred(x: Entry) {
    && Moved(x) && x.command.body.payload.Trade?
    && !x.command.body.payload.fill.cashWithdrawable && Credit(x.command.body.payload.fill) > 0
  }

  function DeferredFor(x: Entry, t: Id): int {
    if Deferred(x) && x.command.body.payload.fill.trade == t then Credit(x.command.body.payload.fill) else 0
  }

  function SettledFor(x: Entry, t: Id): int {
    if Moved(x) && x.command.body.payload.Settle? && x.command.body.payload.settlement.sourceTrade == t
    then x.command.body.payload.settlement.amount.coef else 0
  }

  ghost function TotalDeferred(trace: seq<Entry>, t: Id): int {
    if trace == [] then 0 else TotalDeferred(trace[..|trace| - 1], t) + DeferredFor(trace[|trace| - 1], t)
  }

  ghost function TotalSettled(trace: seq<Entry>, t: Id): int {
    if trace == [] then 0 else TotalSettled(trace[..|trace| - 1], t) + SettledFor(trace[|trace| - 1], t)
  }

  function Outstanding(s: State, t: Id): int { if t in s.receivables then s.receivables[t] else 0 }

  /** Claims are never negative and belong to trades already booked. */
  ghost predicate ClaimsKnown(s: State) {
    forall t :: t in s.receivables ==> s.receivables[t] >= 0 && Identity(TradeFamily, t) in s.semantic
  }

  ghost predicate ClaimMoves(s: State, t: State, x: Entry) {
    forall id :: Outstanding(t, id) == Outstanding(s, id) + DeferredFor(x, id) - SettledFor(x, id)
  }

  lemma {:induction false} FillClaims(s: State, t: State, x: Entry)
    requires ClaimsKnown(s) && x.command.body.payload.Trade? && x.status != Duplicate
    requires x.command.body.payload.fill.trade !in s.receivables
    requires var f := x.command.body.payload.fill;
             t.receivables == if Deferred(x) then s.receivables[f.trade := Credit(f)] else s.receivables
    requires forall a :: a in s.semantic || a in Claims(x) ==> a in t.semantic
    ensures ClaimsKnown(t) && ClaimMoves(s, t, x)
  {
    assert Identity(TradeFamily, x.command.body.payload.fill.trade) in Claims(x);
  }

  lemma {:induction false} SettlementClaims(s: State, t: State, x: Entry)
    requires ClaimsKnown(s) && x.command.body.payload.Settle? && x.status == Applied
    requires var f := x.command.body.payload.settlement;
             && f.sourceTrade in s.receivables && f.amount.coef <= s.receivables[f.sourceTrade]
             && t.receivables == s.receivables[f.sourceTrade := s.receivables[f.sourceTrade] - f.amount.coef]
    requires forall a :: a in s.semantic ==> a in t.semantic
    ensures ClaimsKnown(t) && ClaimMoves(s, t, x)
  {
  }

  lemma {:induction false} SameClaimsMove(s: State, t: State, x: Entry)
    requires ClaimsKnown(s) && t.receivables == s.receivables
    requires forall a :: a in s.semantic ==> a in t.semantic
    requires x.status == Duplicate || (!x.command.body.payload.Trade? && !x.command.body.payload.Settle?)
    ensures ClaimsKnown(t) && ClaimMoves(s, t, x)
  {
  }

  lemma {:induction false} TradeCommit(u: Setup, s: State, c: Command, e: Effect)
    requires ClaimsKnown(s) && Commits(u, s, c, e) && c.body.payload.Trade? && !Known(s, c.body)
    ensures var f := c.body.payload.fill;
            && e.status != Duplicate && f.trade !in s.receivables
            && e.state.receivables == if Deferred(Entry(c, e.status)) then s.receivables[f.trade := Credit(f)]
                                      else s.receivables
  {
    var f, p := c.body.payload.fill, u.config.precision;
    CommandFill(c, p);
    TradeFrame(s, p, f, c.body.time);
    assert Identity(TradeFamily, f.trade) in Aliases(c.body.payload);
    if e.status == Applied { FillShape(s, p, f, c.body.time, e); }
  }

  lemma {:induction false} SettleCommit(u: Setup, s: State, c: Command, e: Effect)
    requires Commits(u, s, c, e) && c.body.payload.Settle? && !Known(s, c.body)
    ensures var f := c.body.payload.settlement;
            && e.status == Applied && f.sourceTrade in s.receivables
            && f.amount.coef <= s.receivables[f.sourceTrade]
            && e.state.receivables
               == s.receivables[f.sourceTrade := s.receivables[f.sourceTrade] - f.amount.coef]
  {
    CanonicalAmount(c, u.config.precision);
  }

  lemma {:induction false} CommitClaims(u: Setup, s: State, c: Command, e: Effect)
    requires ClaimsKnown(s) && Commits(u, s, c, e)
    ensures ClaimsKnown(Record(c, e)) && ClaimMoves(s, Record(c, e), Entry(c, e.status))
  {
    RecordBooks(u, s, c, e);
    var t, x := Record(c, e), Entry(c, e.status);
    RecordFrame(c, e);
    if Known(s, c.body) {
      SameClaimsMove(s, t, x);
    } else if c.body.payload.Trade? {
      TradeCommit(u, s, c, e);
      FillClaims(s, t, x);
    } else if c.body.payload.Settle? {
      SettleCommit(u, s, c, e);
      SettlementClaims(s, t, x);
    } else {
      TransitionFrame(u, s, c.body);
      SameClaimsMove(s, t, x);
    }
  }

  lemma {:induction false} ClaimsGrow(trace: seq<Entry>, s: State, n: State, x: Entry, t: Id)
    requires Outstanding(s, t) + TotalSettled(trace, t) == TotalDeferred(trace, t)
    requires ClaimMoves(s, n, x)
    ensures Outstanding(n, t) + TotalSettled(trace + [x], t) == TotalDeferred(trace + [x], t)
  {
    assert (trace + [x])[..|trace|] == trace;
  }

  lemma {:induction false} AdvanceClaims(u: Setup, r: Run, input: Command, t: Id)
    requires ClaimsKnown(r.ledger.state)
    requires Outstanding(r.ledger.state, t) + TotalSettled(r.trace, t) == TotalDeferred(r.trace, t)
    ensures var n := Advance(u, r, input);
            && ClaimsKnown(n.ledger.state)
            && Outstanding(n.ledger.state, t) + TotalSettled(n.trace, t) == TotalDeferred(n.trace, t)
  {
    var c, e := AdvanceShape(u, r, input);
    if Advance(u, r, input) != r {
      GrowthCommits(u, r.ledger, c, e);
      CommitClaims(u, r.ledger.state, c, e);
      ClaimsGrow(r.trace, r.ledger.state, Record(c, e), Entry(c, e.status), t);
    }
  }

  /** For every trade id: what was deferred under it is outstanding or settled. */
  lemma {:induction false} EveryRunClaims(u: Setup, inputs: seq<Command>, t: Id)
    ensures var r := Execute(u, inputs);
            && ClaimsKnown(r.ledger.state)
            && Outstanding(r.ledger.state, t) + TotalSettled(r.trace, t) == TotalDeferred(r.trace, t)
  {
    if inputs != [] {
      var n := |inputs| - 1;
      EveryRunClaims(u, inputs[..n], t);
      AdvanceClaims(u, Execute(u, inputs[..n]), inputs[n], t);
    }
  }

  lemma {:induction false} OneClaimant(trace: seq<Entry>, i: nat, j: nat)
    requires ExactlyOnce(trace) && i < |trace| && j < |trace| && i != j && Deferred(trace[i]) && Deferred(trace[j])
    ensures trace[i].command.body.payload.fill.trade != trace[j].command.body.payload.fill.trade
  {
    var a := Identity(TradeFamily, trace[i].command.body.payload.fill.trade);
    var b := Identity(TradeFamily, trace[j].command.body.payload.fill.trade);
    assert a in Claims(trace[i]) && b in Claims(trace[j]);
    if i < j { assert Claims(trace[i]) !! Claims(trace[j]); } else { assert Claims(trace[j]) !! Claims(trace[i]); }
  }

  lemma {:induction false} DeferredOnce(trace: seq<Entry>, k: nat, n: nat)
    requires ExactlyOnce(trace) && k < |trace| && n <= |trace| && Deferred(trace[k])
    ensures var t := trace[k].command.body.payload.fill;
            TotalDeferred(trace[..n], t.trade) == if k < n then Credit(t) else 0
    decreases n
  {
    if n != 0 {
      DeferredOnce(trace, k, n - 1);
      assert trace[..n][..n - 1] == trace[..n - 1];
      if n - 1 != k && Deferred(trace[n - 1]) { OneClaimant(trace, k, n - 1); }
    }
  }

  /** Each deferred credit of every reachable account is its outstanding claim plus the settlements against it. */
  lemma {:induction false} DeferredCreditConserved(u: Setup, inputs: seq<Command>, k: nat)
    requires k < |Execute(u, inputs).trace| && Deferred(Execute(u, inputs).trace[k])
    ensures var r := Execute(u, inputs);
            var f := r.trace[k].command.body.payload.fill;
            && Outstanding(r.ledger.state, f.trade) >= 0
            && Credit(f) == Outstanding(r.ledger.state, f.trade) + TotalSettled(r.trace, f.trade)
  {
    var r := Execute(u, inputs);
    var f := r.trace[k].command.body.payload.fill;
    EveryRunClaims(u, inputs, f.trade);
    EveryRunKept(u, inputs);
    DeferredOnce(r.trace, k, |r.trace|);
    assert r.trace[..|r.trace|] == r.trace;
  }
}
