/** Two canonical commands with the same bytes are the same command. */
module Wires {
  import opened Core
  import opened Model
  import opened Codec
  import opened Encodings

  // ----- what a parsed command is like -----

  /** A word outside the known ones is really another one. */
  predicate Spelled(q: Payload) {
    match q
    case CashChange(c) => c.kind.OtherCash? ==> c.kind.text !in {"DEPOSIT", "WITHDRAWAL"}
    case Economic(e) => e.kind.OtherEconomic? ==> e.kind.text !in {"REALIZED_PNL", "VARIATION_MARGIN", "FUNDING"}
    case Stage(_, k) =>
      k.OtherStage? ==> k.text !in {"SENT_TO_BROKER", "SUBMIT_UNKNOWN", "BROKER_ACKNOWLEDGED", "CANCEL_REQUESTED"}
    case Release(_, k) =>
      k.OtherOutcome? ==>
        k.text !in {"UNKNOWN", "NOT_SENT", "CANCELLED", "REJECTED", "EXPIRED", "FAILED", "FILLED"}
    case Margin(m) => m.command.action.OtherMargin? ==> m.command.action.text != "RESERVE"
    case _ => true
  }

  /** The margin command names its action and its id once. */
  predicate NamedOnce(m: MarginCommand) {
    && (forall i | 0 <= i < |m.front| :: m.front[i].0 != "action")
    && (forall i | 0 <= i < |m.middle| :: m.middle[i].0 != "id")
  }

  ghost predicate RegularFields(fields: seq<(string, Json)>) { forall i | 0 <= i < |fields| :: Regular(fields[i].1) }

  /** The parts of a command that the account does not look into hold numbers as they are on the wire. */
  ghost predicate RegularParts(q: Payload) {
    match q
    case Margin(m) =>
      && Regular(m.config) && NamedOnce(m.command)
      && RegularFields(m.command.front) && RegularFields(m.command.middle) && RegularFields(m.command.rest)
    case Valuation(position, i) => Regular(position) && Regular(i.marks)
    case _ => true
  }

  /** Every amount has a non-negative scale, as canonical ones do. */
  predicate Scaled(q: Payload) {
    match q
    case CashChange(c) => c.amount.scale >= 0
    case Economic(e) => e.amount.scale >= 0
    case Reserve(h) => h.amount.scale >= 0
    case Settle(s) => s.amount.scale >= 0
    case Trade(t) =>
      && t.notional.scale >= 0 && t.charges.scale >= 0 && t.rebates.scale >= 0 && t.realizedPnlDelta.scale >= 0
      && t.marketValueDelta.scale >= 0 && t.unrealizedPnl.scale >= 0 && t.roundingAdjustment.scale >= 0
    case Broker(b) =>
      && b.cash.scale >= 0 && b.reserved.scale >= 0 && b.tradeAvailable.scale >= 0 && b.withdrawable.scale >= 0
      && b.equity.scale >= 0
    case _ => true
  }

  ghost predicate Wired(q: Payload) { Spelled(q) && RegularParts(q) && Scaled(q) }

  lemma {:induction false} CanonicalScaled(c: Command, p: nat)
    requires Normalize(c, p) == Ok(c)
    ensures Scaled(c.body.payload)
  {
    match c.body.payload
    case CashChange(x) => assert CanonicalMoney(x.amount, p) == Ok(x.amount);
    case Economic(x) => assert CanonicalMoney(x.amount, p) == Ok(x.amount);
    case Reserve(x) => assert CanonicalMoney(x.amount, p) == Ok(x.amount);
    case Settle(x) => assert CanonicalMoney(x.amount, p) == Ok(x.amount);
    case Trade(t) => assert NormalizeTrade(t, p) == Ok(t);
    case Broker(b) => assert NormalizeBroker(b, p) == Ok(b);
    case _ =>
  }

  // ----- words -----

  lemma {:induction false} CashWords(a: CashKind, b: CashKind)
    requires a.OtherCash? ==> a.text !in {"DEPOSIT", "WITHDRAWAL"}
    requires b.OtherCash? ==> b.text !in {"DEPOSIT", "WITHDRAWAL"}
    requires CashKindText(a) == CashKindText(b)
    ensures a == b
  {
    assert "DEPOSIT"[0] != "WITHDRAWAL"[0];
  }

  lemma {:induction false} EconomicWords(a: EconomicKind, b: EconomicKind)
    requires a.OtherEconomic? ==> a.text !in {"REALIZED_PNL", "VARIATION_MARGIN", "FUNDING"}
    requires b.OtherEconomic? ==> b.text !in {"REALIZED_PNL", "VARIATION_MARGIN", "FUNDING"}
    requires EconomicKindText(a) == EconomicKindText(b)
    ensures a == b
  {
    assert "REALIZED_PNL"[0] == 'R' && "VARIATION_MARGIN"[0] == 'V' && "FUNDING"[0] == 'F';
  }

  lemma {:induction false} StageWords(a: StageKind, b: StageKind)
    requires Spelled(Stage("", a)) && Spelled(Stage("", b)) && StageText(a) == StageText(b)
    ensures a == b
  {
    assert "SENT_TO_BROKER"[1] == 'E' && "SUBMIT_UNKNOWN"[1] == 'U' && "BROKER_ACKNOWLEDGED"[1] == 'R'
           && "CANCEL_REQUESTED"[1] == 'A';
  }

  lemma {:induction false} ClosingWords(a: Closing, b: Closing)
    requires Spelled(Release("", a)) && Spelled(Release("", b)) && ClosingText(a) == ClosingText(b)
    ensures a == b
  {
    assert "UNKNOWN"[0] == 'U' && "NOT_SENT"[0] == 'N' && "CANCELLED"[0] == 'C' && "REJECTED"[0] == 'R';
    assert "EXPIRED"[0] == 'E' && "FAILED"[0] == 'F' && "FILLED"[0] == 'F' && "FAILED"[1] == 'A' && "FILLED"[1] == 'I';
  }

  lemma {:induction false} QualityWords(a: Quality, b: Quality)
    requires QualityText(a) == QualityText(b)
    ensures a == b
  {
    assert "VERIFIED"[0] == 'V' && "UNAVAILABLE"[2] == 'A' && "UNKNOWN"[2] == 'K' && "VERIFIED"[2] == 'R';
  }

  function Kind(q: Payload): nat {
    match q
    case CashChange(_) => 0
    case Economic(_) => 1
    case Reserve(_) => 2
    case Stage(_, _) => 3
    case Release(_, _) => 4
    case Trade(_) => 5
    case Settle(_) => 6
    case Margin(_) => 7
    case Valuation(_, _) => 8
    case Broker(_) => 9
  }

  /** First and third letter of each operation's name. */
  lemma {:induction false} OpLetters(q: Payload)
    ensures |Op(q)| > 2 && Op(q)[0] == "CERSRTSMVB"[Kind(q)] && Op(q)[2] == "SOSALATRLO"[Kind(q)]
  {
  }

  lemma {:induction false} OpWords(a: Payload, b: Payload)
    requires Op(a) == Op(b)
    ensures Kind(a) == Kind(b)
  {
    OpLetters(a);
    OpLetters(b);
  }

  // ----- payloads -----

  lemma {:induction false} Amounts(a: Decimal, b: Decimal)
    requires a.scale >= 0 && b.scale >= 0 && Amount(a) == Amount(b)
    ensures a == b
  {
    PlainTextRead(a, b);
  }

  /** Equal objects hold equal values at each place. */
  lemma {:induction false} Members(fs: seq<(string, Json)>, gs: seq<(string, Json)>)
    requires Obj(fs) == Obj(gs)
    ensures |fs| == |gs| && forall i | 0 <= i < |fs| :: fs[i].1 == gs[i].1
  {
  }

  lemma {:induction false} MoneyRead(a: Payload, b: Payload)
    requires (a.CashChange? && b.CashChange?) || (a.Economic? && b.Economic?)
    requires Wired(a) && Wired(b) && PayloadJson(a) == PayloadJson(b)
    ensures a == b
  {
    var fs, gs := PayloadJson(a).fields, PayloadJson(b).fields;
    Members(fs, gs);
    if a.CashChange? {
      assert fs[0].1 == gs[0].1 && fs[1].1 == gs[1].1 && fs[2].1 == gs[2].1 && fs[4].1 == gs[4].1;
      Amounts(a.cash.amount, b.cash.amount);
      CashWords(a.cash.kind, b.cash.kind);
    } else {
      assert fs[0].1 == gs[0].1 && fs[1].1 == gs[1].1 && fs[2].1 == gs[2].1 && fs[3].1 == gs[3].1;
      assert fs[5].1 == gs[5].1;
      Amounts(a.flow.amount, b.flow.amount);
      EconomicWords(a.flow.kind, b.flow.kind);
    }
  }

  lemma {:induction false} HoldRead(a: Payload, b: Payload)
    requires (a.Reserve? && b.Reserve?) || (a.Stage? && b.Stage?) || (a.Release? && b.Release?)
             || (a.Settle? && b.Settle?)
    requires Wired(a) && Wired(b) && PayloadJson(a) == PayloadJson(b)
    ensures a == b
  {
    var fs, gs := PayloadJson(a).fields, PayloadJson(b).fields;
    Members(fs, gs);
    assert fs[0].1 == gs[0].1 && fs[1].1 == gs[1].1 && fs[2].1 == gs[2].1;
    match a
    case Reserve(h) => Amounts(h.amount, b.hold.amount);
    case Stage(_, k) => StageWords(k, b.stage);
    case Release(_, k) => ClosingWords(k, b.outcome);
    case Settle(t) =>
      assert fs[3].1 == gs[3].1;
      Amounts(t.amount, b.settlement.amount);
  }

  lemma {:induction false} FillAmounts(s: TradeFact, t: TradeFact)
    requires Scaled(Trade(s)) && Scaled(Trade(t)) && TradeJson(s) == TradeJson(t)
    ensures s.charges == t.charges && s.marketValueDelta == t.marketValueDelta && s.notional == t.notional
    ensures s.realizedPnlDelta == t.realizedPnlDelta && s.roundingAdjustment == t.roundingAdjustment
    ensures s.rebates == t.rebates && s.unrealizedPnl == t.unrealizedPnl
  {
    var fs, gs := TradeJson(s).fields, TradeJson(t).fields;
    Members(fs, gs);
    assert fs[1].1 == gs[1].1 && fs[4].1 == gs[4].1 && fs[5].1 == gs[5].1 && fs[8].1 == gs[8].1 && fs[9].1 == gs[9].1;
    assert fs[10].1 == gs[10].1 && fs[17].1 == gs[17].1;
    Amounts(s.charges, t.charges);
    Amounts(s.marketValueDelta, t.marketValueDelta);
    Amounts(s.notional, t.notional);
    Amounts(s.realizedPnlDelta, t.realizedPnlDelta);
    Amounts(s.roundingAdjustment, t.roundingAdjustment);
    Amounts(s.rebates, t.rebates);
    Amounts(s.unrealizedPnl, t.unrealizedPnl);
  }

  lemma {:induction false} FillNames(s: TradeFact, t: TradeFact)
    requires TradeJson(s) == TradeJson(t)
    ensures s.cashWithdrawable == t.cashWithdrawable && s.execution == t.execution
    ensures s.feeInstruction == t.feeInstruction && s.order == t.order && s.positionEvidence == t.positionEvidence
    ensures s.reservation == t.reservation && s.sequence == t.sequence && s.side == t.side
    ensures s.terminalFill == t.terminalFill && s.trade == t.trade && s.venueTrade == t.venueTrade
  {
    var fs, gs := TradeJson(s).fields, TradeJson(t).fields;
    Members(fs, gs);
    assert fs[0].1 == gs[0].1 && fs[2].1 == gs[2].1 && fs[3].1 == gs[3].1 && fs[6].1 == gs[6].1 && fs[7].1 == gs[7].1;
    assert fs[11].1 == gs[11].1 && fs[13].1 == gs[13].1 && fs[14].1 == gs[14].1 && fs[15].1 == gs[15].1;
    assert fs[16].1 == gs[16].1 && fs[18].1 == gs[18].1;
    assert "BUY" != "SELL" by { assert |"BUY"| != |"SELL"|; }
  }

  lemma {:induction false} ObservationRead(a: BrokerFact, b: BrokerFact)
    requires Scaled(Broker(a)) && Scaled(Broker(b)) && BrokerJson(a) == BrokerJson(b)
    ensures a == b
  {
    var fs, gs := BrokerJson(a).fields, BrokerJson(b).fields;
    Members(fs, gs);
    assert fs[0].1 == gs[0].1 && fs[1].1 == gs[1].1 && fs[2].1 == gs[2].1 && fs[3].1 == gs[3].1 && fs[4].1 == gs[4].1;
    assert fs[6].1 == gs[6].1 && fs[7].1 == gs[7].1 && fs[8].1 == gs[8].1 && fs[9].1 == gs[9].1;
    QualityWords(a.quality, b.quality);
    Amounts(a.cash, b.cash);
    Amounts(a.equity, b.equity);
    Amounts(a.reserved, b.reserved);
    Amounts(a.tradeAvailable, b.tradeAvailable);
    Amounts(a.withdrawable, b.withdrawable);
  }

  lemma {:induction false} IntentRead(a: Intent, b: Intent)
    requires IntentJson(a) == IntentJson(b)
    ensures a == b
  {
    var fs, gs := IntentJson(a).fields, IntentJson(b).fields;
    Members(fs, gs);
    assert fs[0].1 == gs[0].1 && fs[1].1 == gs[1].1 && fs[2].1 == gs[2].1 && fs[4].1 == gs[4].1;
    assert fs[5].1 == gs[5].1 && fs[6].1 == gs[6].1;
  }

  lemma {:induction false} ValuationRead(a: Payload, b: Payload)
    requires a.Valuation? && b.Valuation? && PayloadJson(a) == PayloadJson(b)
    ensures a == b
  {
    var fs, gs := PayloadJson(a).fields, PayloadJson(b).fields;
    Members(fs, gs);
    assert fs[0].1 == gs[0].1 && fs[1].1 == gs[1].1;
    IntentRead(a.intent, b.intent);
  }

  lemma {:induction false} FrontReaches(
    a: seq<(string, Json)>, x: (string, Json), r: seq<(string, Json)>,
    b: seq<(string, Json)>, y: (string, Json), s: seq<(string, Json)>)
    requires a + [x] + r == b + [y] + s
    ensures |a| < |b| ==> b[|a|] == x
  {
    assert (a + [x] + r)[|a|] == x;
  }

  lemma {:induction false} Regrouped(
    a: seq<(string, Json)>, x: (string, Json), b: seq<(string, Json)>, y: (string, Json), r: seq<(string, Json)>)
    ensures a + [x] + b + [y] + r == a + [x] + (b + [y] + r)
  {
  }

  /** The first member of a name divides a list of members in one way. */
  lemma {:induction false} DividedOnce(
    a: seq<(string, Json)>, b: seq<(string, Json)>, x: (string, Json), y: (string, Json),
    r: seq<(string, Json)>, s: seq<(string, Json)>)
    requires x.0 == y.0 && a + [x] + r == b + [y] + s
    requires (forall i | 0 <= i < |a| :: a[i].0 != x.0) && (forall i | 0 <= i < |b| :: b[i].0 != x.0)
    ensures a == b && x == y && r == s
  {
    var u, v := a + [x] + r, b + [y] + s;
    FrontReaches(a, x, r, b, y, s);
    FrontReaches(b, y, s, a, x, r);
    assert |a| == |b|;
    assert u[|a|] == x && v[|b|] == y;
    assert u[..|a|] == a && v[..|b|] == b && u[|a| + 1..] == r && v[|b| + 1..] == s;
  }

  lemma {:induction false} MarginCommandRead(a: MarginCommand, b: MarginCommand)
    requires NamedOnce(a) && NamedOnce(b) && MarginJson(a) == MarginJson(b)
    requires a.action.OtherMargin? ==> a.action.text != "RESERVE"
    requires b.action.OtherMargin? ==> b.action.text != "RESERVE"
    ensures a == b
  {
    var x := ("action", Str(match a.action case ReserveMargin => "RESERVE" case OtherMargin(text) => text));
    var y := ("action", Str(match b.action case ReserveMargin => "RESERVE" case OtherMargin(text) => text));
    var u, v := ("id", Str(a.id)), ("id", Str(b.id));
    Regrouped(a.front, x, a.middle, u, a.rest);
    Regrouped(b.front, y, b.middle, v, b.rest);
    assert MarginJson(a) == Obj(a.front + [x] + a.middle + [u] + a.rest);
    assert MarginJson(b) == Obj(b.front + [y] + b.middle + [v] + b.rest);
    DividedOnce(a.front, b.front, x, y, a.middle + [u] + a.rest, b.middle + [v] + b.rest);
    DividedOnce(a.middle, b.middle, u, v, a.rest, b.rest);
  }

  lemma {:induction false} MarginRead(a: Payload, b: Payload)
    requires a.Margin? && b.Margin? && Wired(a) && Wired(b) && PayloadJson(a) == PayloadJson(b)
    ensures a == b
  {
    var fs, gs := PayloadJson(a).fields, PayloadJson(b).fields;
    Members(fs, gs);
    assert fs[0].1 == gs[0].1 && fs[1].1 == gs[1].1 && fs[2].1 == gs[2].1 && fs[3].1 == gs[3].1 && fs[4].1 == gs[4].1;
    MarginCommandRead(a.proof.command, b.proof.command);
  }

  lemma {:induction false} FillRead(a: Payload, b: Payload)
    requires a.Trade? && b.Trade? && Wired(a) && Wired(b) && PayloadJson(a) == PayloadJson(b)
    ensures a == b
  {
    FillAmounts(a.fill, b.fill);
    FillNames(a.fill, b.fill);
  }

  lemma {:induction false} RecordRead(a: Payload, b: Payload)
    requires a.Broker? && b.Broker? && Wired(a) && Wired(b) && PayloadJson(a) == PayloadJson(b)
    ensures a == b
  {
    ObservationRead(a.observation, b.observation);
  }

  lemma {:induction false} OutsideRead(a: Payload, b: Payload)
    requires a.Margin? || a.Valuation? || a.Broker?
    requires Kind(a) == Kind(b) && Wired(a) && Wired(b) && PayloadJson(a) == PayloadJson(b)
    ensures a == b
  {
    if a.Margin? {
      MarginRead(a, b);
    } else if a.Valuation? {
      ValuationRead(a, b);
    } else {
      RecordRead(a, b);
    }
  }

  lemma {:induction false} OwnRead(a: Payload, b: Payload)
    requires !a.Margin? && !a.Valuation? && !a.Broker?
    requires Kind(a) == Kind(b) && Wired(a) && Wired(b) && PayloadJson(a) == PayloadJson(b)
    ensures a == b
  {
    if a.CashChange? || a.Economic? {
      MoneyRead(a, b);
    } else if a.Trade? {
      FillRead(a, b);
    } else {
      HoldRead(a, b);
    }
  }

  lemma {:induction false} PayloadRead(a: Payload, b: Payload)
    requires Wired(a) && Wired(b) && Op(a) == Op(b) && PayloadJson(a) == PayloadJson(b)
    ensures a == b
  {
    OpWords(a, b);
    if a.Margin? || a.Valuation? || a.Broker? { OutsideRead(a, b); } else { OwnRead(a, b); }
  }

  // ----- commands -----

  lemma {:induction false} EnvelopeRead(a: Command, b: Command)
    requires CommandJson(a) == CommandJson(b)
    ensures a.id == b.id && a.body.owner == b.body.owner && a.body.cause == b.body.cause && a.body.time == b.body.time
    ensures Op(a.body.payload) == Op(b.body.payload) && PayloadJson(a.body.payload) == PayloadJson(b.body.payload)
  {
    var fs, gs := CommandJson(a).fields, CommandJson(b).fields;
    Members(fs, gs);
    assert fs[0].1 == gs[0].1 && fs[1].1 == gs[1].1 && fs[2].1 == gs[2].1 && fs[3].1 == gs[3].1 && fs[4].1 == gs[4].1;
    assert fs[5].1 == gs[5].1 && fs[6].1 == gs[6].1 && fs[7].1 == gs[7].1 && fs[8].1 == gs[8].1 && fs[10].1 == gs[10].1;
  }

  lemma {:induction false} MarginRegular(c: MarginCommand)
    requires RegularFields(c.front) && RegularFields(c.middle) && RegularFields(c.rest)
    ensures Regular(MarginJson(c))
  {
  }

  lemma {:induction false} FillRegular(t: TradeFact)
    ensures Regular(TradeJson(t))
  {
  }

  lemma {:induction false} ObservationRegular(b: BrokerFact)
    ensures Regular(BrokerJson(b))
  {
  }

  lemma {:induction false} IntentRegular(i: Intent)
    requires Regular(i.marks)
    ensures Regular(IntentJson(i))
  {
  }

  lemma {:induction false} ProducerRegular(q: Payload)
    requires (q.Margin? || q.Valuation?) && RegularParts(q)
    ensures Regular(PayloadJson(q))
  {
    if q.Margin? { MarginRegular(q.proof.command); } else { IntentRegular(q.intent); }
  }

  lemma {:induction false} PayloadRegular(q: Payload)
    requires RegularParts(q)
    ensures Regular(PayloadJson(q))
  {
    if q.Trade? {
      FillRegular(q.fill);
    } else if q.Broker? {
      ObservationRegular(q.observation);
    } else if q.Margin? || q.Valuation? {
      ProducerRegular(q);
    }
  }

  lemma {:induction false} EnvelopeRegular(id: Id, owner: Owner, cause: Id, time: int, op: string, payload: Json)
    requires Regular(payload)
    ensures Regular(Envelope(id, owner, cause, time, op, payload))
  {
  }

  lemma {:induction false} CommandRegular(c: Command)
    requires RegularParts(c.body.payload)
    ensures Regular(CommandJson(c))
  {
    var q := c.body.payload;
    PayloadRegular(q);
    EnvelopeRegular(c.id, c.body.owner, c.body.cause, c.body.time, Op(q), PayloadJson(q));
  }

  /** Canonical commands with the same bytes are the same. */
  lemma {:induction false} CommandsApart(a: Command, b: Command, p: nat)
    requires Normalize(a, p) == Ok(a) && Normalize(b, p) == Ok(b)
    requires Spelled(a.body.payload) && Spelled(b.body.payload)
    requires RegularParts(a.body.payload) && RegularParts(b.body.payload)
    requires Encode(CommandJson(a)) == Encode(CommandJson(b))
    ensures a == b
  {
    CanonicalScaled(a, p);
    CanonicalScaled(b, p);
    CommandRegular(a);
    CommandRegular(b);
    EncodeInjective(CommandJson(a), CommandJson(b));
    EnvelopeRead(a, b);
    PayloadRead(a.body.payload, b.body.payload);
  }
}
