/** Business identities, told by the fields that carry them: what takes effect once, how a repetition is answered. */
module Identities {
  import opened Core
  import opened Model
  import opened Transitions
  import opened Frames
  import opened Runs
  import opened Books

  /** Two payloads speak of the same trade, execution, venue trade or fee, of the same hold, change, cash flow or source
      fact, of the same margin command, settlement, valuation or broker snapshot. */
  predicate Shares(a: Payload, b: Payload) {
    || (a.Trade? && b.Trade? && (|| a.fill.trade == b.fill.trade || a.fill.execution == b.fill.execution
                                 || a.fill.venueTrade == b.fill.venueTrade
                                 || a.fill.feeInstruction == b.fill.feeInstruction))
    || (a.Reserve? && b.Reserve? && a.hold.reservation == b.hold.reservation)
    || (a.CashChange? && b.CashChange? && (a.cash.change == b.cash.change || a.cash.sourceFact == b.cash.sourceFact))
    || (a.Economic? && b.Economic? && (a.flow.cashflow == b.flow.cashflow || a.flow.sourceFact == b.flow.sourceFact))
    || (a.CashChange? && b.Economic? && a.cash.sourceFact == b.flow.sourceFact)
    || (a.Economic? && b.CashChange? && a.flow.sourceFact == b.cash.sourceFact)
    || (a.Margin? && b.Margin? && a.proof.command.id == b.proof.command.id)
    || (a.Settle? && b.Settle? && a.settlement.instruction == b.settlement.instruction)
    || (a.Valuation? && b.Valuation? && a.intent.valuation == b.intent.valuation)
    || (a.Broker? && b.Broker? && a.observation.snapshot == b.observation.snapshot)
  }

  ghost predicate Meet(a: Payload, b: Payload) { exists x :: x in Aliases(a) && x in Aliases(b) }

  lemma {:induction false} TradesShare(a: Payload, b: Payload)
    requires a.Trade? && b.Trade?
    ensures Shares(a, b) <==> Meet(a, b)
  {
    var s, t := a.fill, b.fill;
    if s.trade == t.trade {
      assert Identity(TradeFamily, s.trade) in Aliases(a) && Identity(TradeFamily, s.trade) in Aliases(b);
    }
    if s.execution == t.execution {
      assert Identity(ExecutionFamily, s.execution) in Aliases(a);
      assert Identity(ExecutionFamily, s.execution) in Aliases(b);
    }
    if s.venueTrade == t.venueTrade {
      assert Identity(VenueTradeFamily, s.venueTrade) in Aliases(a)
             && Identity(VenueTradeFamily, s.venueTrade) in Aliases(b);
    }
    if s.feeInstruction == t.feeInstruction {
      assert Identity(FeeFamily, s.feeInstruction) in Aliases(a) && Identity(FeeFamily, s.feeInstruction) in Aliases(b);
    }
  }

  lemma {:induction false} MoneyShares(a: Payload, b: Payload)
    requires (a.CashChange? || a.Economic?) && (b.CashChange? || b.Economic?)
    ensures Shares(a, b) <==> Meet(a, b)
  {
    var x := if a.CashChange? then a.cash.sourceFact else a.flow.sourceFact;
    var y := if b.CashChange? then b.cash.sourceFact else b.flow.sourceFact;
    if x == y { assert Identity(SourceFactFamily, x) in Aliases(a) && Identity(SourceFactFamily, x) in Aliases(b); }
    if a.CashChange? && b.CashChange? && a.cash.change == b.cash.change {
      assert Identity(ChangeFamily, a.cash.change) in Aliases(a) && Identity(ChangeFamily, a.cash.change) in Aliases(b);
    }
    if a.Economic? && b.Economic? && a.flow.cashflow == b.flow.cashflow {
      assert Identity(CashflowFamily, a.flow.cashflow) in Aliases(a)
             && Identity(CashflowFamily, a.flow.cashflow) in Aliases(b);
    }
  }

  lemma {:induction false} SinglesShare(a: Payload, b: Payload)
    requires !a.Trade? && !a.CashChange? && !a.Economic? && !b.Trade? && !b.CashChange? && !b.Economic?
    ensures Shares(a, b) <==> Meet(a, b)
  {
    match a
    case Reserve(h) =>
      if Shares(a, b) { assert Identity(ReservationFamily, h.reservation) in Aliases(b); }
    case Margin(m) =>
      if Shares(a, b) { assert Identity(MarginFamily, m.command.id) in Aliases(b); }
    case Settle(s) =>
      if Shares(a, b) { assert Identity(SettlementFamily, s.instruction) in Aliases(b); }
    case Valuation(_, i) =>
      if Shares(a, b) { assert Identity(ValuationFamily, i.valuation) in Aliases(b); }
    case Broker(o) =>
      if Shares(a, b) { assert Identity(BrokerFamily, o.snapshot) in Aliases(b); }
    case _ =>
  }

  /** Identities are shared exactly when the fields are. */
  lemma {:induction false} SharesMeet(a: Payload, b: Payload)
    ensures Shares(a, b) <==> Meet(a, b)
  {
    if a.Trade? && b.Trade? {
      TradesShare(a, b);
    } else if (a.CashChange? || a.Economic?) && (b.CashChange? || b.Economic?) {
      MoneyShares(a, b);
    } else if !a.Trade? && !a.CashChange? && !a.Economic? && !b.Trade? && !b.CashChange? && !b.Economic? {
      SinglesShare(a, b);
    }
  }

  /** Every kind but staging and releasing carries an identity. */
  lemma {:induction false} WhoClaims(q: Payload)
    ensures Aliases(q) != {} <==> !q.Stage? && !q.Release?
    ensures Shares(q, q) <==> !q.Stage? && !q.Release?
  {
    SharesMeet(q, q);
    if x :| x in Aliases(q) { assert Meet(q, q); }
  }

  // ----- exactly once -----

  /** No two entries that were not duplicates speak of the same thing. */
  ghost predicate EffectsOnce(trace: seq<Entry>) {
    forall i, j :: 0 <= i < j < |trace| && trace[i].status != Duplicate && trace[j].status != Duplicate ==>
      !Shares(trace[i].command.body.payload, trace[j].command.body.payload)
  }

  /** Over every run no trade, execution, venue trade, fee, hold, change, cash flow, source fact, margin command,
      settlement, valuation or snapshot takes effect twice. */
  lemma {:induction false} EveryEffectOnce(u: Setup, inputs: seq<Command>)
    ensures EffectsOnce(Execute(u, inputs).trace)
  {
    EveryRunKept(u, inputs);
    var trace := Execute(u, inputs).trace;
    forall i, j | 0 <= i < j < |trace| && trace[i].status != Duplicate && trace[j].status != Duplicate
      ensures !Shares(trace[i].command.body.payload, trace[j].command.body.payload)
    {
      assert Claims(trace[i]) !! Claims(trace[j]);
      SharesMeet(trace[i].command.body.payload, trace[j].command.body.payload);
    }
  }

  // ----- how a repetition is answered -----

  /** Every remembered identity was claimed by a journaled command with the remembered content. */
  ghost predicate Remembered(trace: seq<Entry>, semantic: map<Identity, Body>) {
    forall a :: a in semantic ==> Claimed(trace, a, semantic[a])
  }

  ghost predicate Claimed(trace: seq<Entry>, a: Identity, b: Body) {
    exists k :: 0 <= k < |trace| && a in Aliases(trace[k].command.body.payload) && trace[k].command.body == b
  }

  lemma {:induction false} RememberedGrows(trace: seq<Entry>, semantic: map<Identity, Body>, x: Entry)
    requires Remembered(trace, semantic)
    ensures Remembered(trace + [x], semantic + map a | a in Aliases(x.command.body.payload) :: x.command.body)
  {
    var n, next := trace + [x], semantic + map a | a in Aliases(x.command.body.payload) :: x.command.body;
    forall a | a in next ensures Claimed(n, a, next[a]) {
      if a in Aliases(x.command.body.payload) {
        assert n[|trace|] == x;
      } else {
        assert Claimed(trace, a, semantic[a]);
        var k :| 0 <= k < |trace| && a in Aliases(trace[k].command.body.payload)
                 && trace[k].command.body == semantic[a];
        assert n[k] == trace[k];
      }
    }
  }

  lemma {:induction false} EveryRunRemembered(u: Setup, inputs: seq<Command>)
    ensures Remembered(Execute(u, inputs).trace, Execute(u, inputs).ledger.state.semantic)
  {
    if inputs != [] {
      var n := |inputs| - 1;
      var r := Execute(u, inputs[..n]);
      EveryRunRemembered(u, inputs[..n]);
      var c, e := AdvanceShape(u, r, inputs[n]);
      if Advance(u, r, inputs[n]) != r {
        GrowthCommits(u, r.ledger, c, e);
        RecordBooks(u, r.ledger.state, c, e);
        RememberedGrows(r.trace, r.ledger.state.semantic, Entry(c, e.status));
      }
    }
  }

  ghost predicate Repeats(trace: seq<Entry>, b: Body) {
    Shares(b.payload, b.payload) && exists i :: 0 <= i < |trace| && trace[i].command.body == b
  }

  ghost predicate Contradicts(trace: seq<Entry>, b: Body) {
    exists i :: 0 <= i < |trace| && Shares(trace[i].command.body.payload, b.payload) && trace[i].command.body != b
  }

  /** The remembered identities know of a content, or of another content under the same identity, exactly when the
      journal does. */
  lemma {:induction false} MemoryMeans(trace: seq<Entry>, s: State, b: Body)
    requires Bound(trace, s.semantic) && Remembered(trace, s.semantic)
    ensures Conflicting(s, b) <==> Contradicts(trace, b)
    ensures !Conflicting(s, b) ==> (Known(s, b) <==> Repeats(trace, b))
  {
    if Conflicting(s, b) { ConflictFound(trace, s, b); }
    if i :| 0 <= i < |trace| && Shares(trace[i].command.body.payload, b.payload) && trace[i].command.body != b {
      SharesMeet(trace[i].command.body.payload, b.payload);
      var a :| a in Aliases(trace[i].command.body.payload) && a in Aliases(b.payload);
      assert a in Claims(trace[i]);
    }
    if !Conflicting(s, b) {
      if Known(s, b) { KnownFound(trace, s, b); }
      if Repeats(trace, b) { RepeatKnown(trace, s, b); }
    }
  }

  lemma {:induction false} ConflictFound(trace: seq<Entry>, s: State, b: Body)
    requires Remembered(trace, s.semantic) && Conflicting(s, b)
    ensures Contradicts(trace, b)
  {
    var a :| a in Aliases(b.payload) && a in s.semantic && s.semantic[a] != b;
    assert Claimed(trace, a, s.semantic[a]);
    var k :| 0 <= k < |trace| && a in Aliases(trace[k].command.body.payload) && trace[k].command.body == s.semantic[a];
    assert Meet(trace[k].command.body.payload, b.payload);
    SharesMeet(trace[k].command.body.payload, b.payload);
  }

  lemma {:induction false} KnownFound(trace: seq<Entry>, s: State, b: Body)
    requires Remembered(trace, s.semantic) && Known(s, b) && !Conflicting(s, b)
    ensures Repeats(trace, b)
  {
    var a :| a in Aliases(b.payload) && a in s.semantic;
    assert Claimed(trace, a, s.semantic[a]) && s.semantic[a] == b;
    var k :| 0 <= k < |trace| && a in Aliases(trace[k].command.body.payload) && trace[k].command.body == b;
    assert Meet(b.payload, b.payload);
    SharesMeet(b.payload, b.payload);
  }

  lemma {:induction false} RepeatKnown(trace: seq<Entry>, s: State, b: Body)
    requires Bound(trace, s.semantic) && Repeats(trace, b)
    ensures Known(s, b)
  {
    var i :| 0 <= i < |trace| && trace[i].command.body == b;
    SharesMeet(b.payload, b.payload);
    var a :| a in Aliases(b.payload);
    assert a in Claims(trace[i]);
  }

  // ----- answers -----

  /** A command id that was journaled is answered by comparing the whole canonical command. */
  lemma {:induction false} KnownIdAnswered(u: Setup, inputs: seq<Command>, input: Command, c: Command, k: nat)
    requires input.body.owner == u.config.owner && Normalize(input, u.config.precision) == Ok(c)
    requires k < |Execute(u, inputs).trace| && Execute(u, inputs).trace[k].command.id == c.id
    ensures var r := Execute(u, inputs);
            Step(u, r.ledger, input)
            == Ok(Reply(r.ledger, if r.trace[k].command == c then Duplicate else Conflict))
  {
    EveryRunKept(u, inputs);
    var r := Execute(u, inputs);
    assert Step(u, r.ledger, input) == Accept(u, r.ledger, c);
    assert r.ledger.state.receipts[c.id] == r.trace[k].command;
  }

  /** A new command is turned away as a conflict exactly when the journal has other content under one of its
      identities. */
  lemma {:induction false} ConflictAnswered(u: Setup, inputs: seq<Command>, input: Command, c: Command)
    requires input.body.owner == u.config.owner && Normalize(input, u.config.precision) == Ok(c)
    requires c.id !in Execute(u, inputs).ledger.state.receipts
    requires Admission(c.body.payload) ==> u.journalFits(Execute(u, inputs).ledger, c)
    ensures var r := Execute(u, inputs);
            Step(u, r.ledger, input) == Ok(Reply(r.ledger, Conflict)) <==> Contradicts(r.trace, c.body)
  {
    EveryRunKept(u, inputs);
    EveryRunRemembered(u, inputs);
    var r := Execute(u, inputs);
    MemoryMeans(r.trace, r.ledger.state, c.body);
    assert Step(u, r.ledger, input) == Accept(u, r.ledger, c);
    if !Conflicting(r.ledger.state, c.body) && Decide(u, r.ledger.state, c.body).Ok? {
      var n := Append(r.ledger, c, Record(c, Decide(u, r.ledger.state, c.body).value));
      assert |n.journal| == |r.ledger.journal| + 1;
    }
  }

  /** Apart from repeated releases, an entry is a duplicate exactly when an earlier entry has the same content and the
      kind carries an identity. */
  ghost predicate DuplicatesRepeat(trace: seq<Entry>) {
    forall k :: 0 <= k < |trace| && !trace[k].command.body.payload.Release? ==>
      (trace[k].status == Duplicate <==> Repeats(trace[..k], trace[k].command.body))
  }

  lemma {:induction false} CommitRepeats(u: Setup, trace: seq<Entry>, s: State, c: Command, e: Effect)
    requires Bound(trace, s.semantic) && Remembered(trace, s.semantic) && Commits(u, s, c, e)
    requires DuplicatesRepeat(trace)
    ensures DuplicatesRepeat(trace + [Entry(c, e.status)])
  {
    var n := trace + [Entry(c, e.status)];
    MemoryMeans(trace, s, c.body);
    if !Known(s, c.body) { TransitionFrame(u, s, c.body); }
    forall k | 0 <= k < |n| && !n[k].command.body.payload.Release?
      ensures n[k].status == Duplicate <==> Repeats(n[..k], n[k].command.body)
    {
      if k < |trace| {
        assert n[..k] == trace[..k] && n[k] == trace[k];
      } else {
        assert n[..k] == trace;
      }
    }
  }

  lemma {:induction false} EveryRunRepeats(u: Setup, inputs: seq<Command>)
    ensures DuplicatesRepeat(Execute(u, inputs).trace)
  {
    if inputs != [] {
      var n := |inputs| - 1;
      var r := Execute(u, inputs[..n]);
      EveryRunRepeats(u, inputs[..n]);
      EveryRunKept(u, inputs[..n]);
      EveryRunRemembered(u, inputs[..n]);
      var c, e := AdvanceShape(u, r, inputs[n]);
      if Advance(u, r, inputs[n]) != r {
        GrowthCommits(u, r.ledger, c, e);
        CommitRepeats(u, r.trace, r.ledger.state, c, e);
      }
    }
  }
}
