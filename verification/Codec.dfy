/** The dictionary checkpoint format: position bodies stored once, and the exact size of what it stands for. */
module Codec {
  import opened Core
  import opened Model

  // ----- JSON form of commands, members in canonical (sorted) order -----

  function Whole(n: int): Json { Num(Decimal(n, 0)) }
  function Amount(d: Decimal): Json { Str(PlainText(d)) }

  function Envelope(id: Id, owner: Owner, cause: Id, time: int, op: string, payload: Json): Json {
    Obj([("account", Str(owner.account)), ("cause", Str(cause)), ("command_id", Str(id)),
         ("engine", Str(owner.engine)), ("gateway", Str(owner.gateway)), ("generation", Str(owner.generation)),
         ("op", Str(op)), ("payload", payload), ("runtime", Str(owner.runtime)),
         ("schema_version", Whole(1)), ("time", Whole(time))])
  }

  function IntentJson(i: Intent): Json {
    Obj([("economic_version", Whole(i.economicVersion)), ("marks", i.marks),
         ("position_evidence", Str(i.positionEvidence)), ("schema_version", Whole(1)), ("time", Whole(i.time)),
         ("valuation", Str(i.valuation)), ("version", Whole(i.version))])
  }

  function FullPayload(i: Intent, position: Json): Json {
    Obj([("intent", IntentJson(i)), ("position", position), ("schema_version", Whole(1))])
  }

  function CompactPayload(i: Intent, reference: Id): Json {
    Obj([("intent", IntentJson(i)), ("position_ref", Str(reference)), ("schema_version", Whole(1))])
  }

  function CashKindText(k: CashKind): string {
    match k case Deposit => "DEPOSIT" case Withdrawal => "WITHDRAWAL" case OtherCash(t) => t
  }
  function EconomicKindText(k: EconomicKind): string {
    match k
    case RealizedPnl => "REALIZED_PNL"
    case VariationMargin => "VARIATION_MARGIN"
    case Funding => "FUNDING"
    case OtherEconomic(t) => t
  }
  function StageText(k: StageKind): string {
    match k
    case SentToBroker => "SENT_TO_BROKER"
    case SubmitUnknown => "SUBMIT_UNKNOWN"
    case BrokerAcknowledged => "BROKER_ACKNOWLEDGED"
    case CancelRequested => "CANCEL_REQUESTED"
    case OtherStage(t) => t
  }
  function ClosingText(k: Closing): string {
    match k
    case UnknownOutcome => "UNKNOWN"
    case NotSent => "NOT_SENT"
    case Cancelled => "CANCELLED"
    case Rejected => "REJECTED"
    case Expired => "EXPIRED"
    case Failed => "FAILED"
    case Filled => "FILLED"
    case OtherOutcome(t) => t
  }
  function QualityText(k: Quality): string {
    match k case Verified => "VERIFIED" case Unavailable => "UNAVAILABLE" case UnknownQuality => "UNKNOWN"
  }

  function TradeJson(t: TradeFact): Json {
    Obj([("cash_withdrawable", Bool(t.cashWithdrawable)), ("charges", Amount(t.charges)),
         ("execution", Str(t.execution)), ("fee_instruction", Str(t.feeInstruction)),
         ("market_value_delta", Amount(t.marketValueDelta)), ("notional", Amount(t.notional)),
         ("order", Str(t.order)), ("position_evidence", Str(t.positionEvidence)),
         ("realized_pnl_delta", Amount(t.realizedPnlDelta)),
         ("realized_rounding_adjustment", Amount(t.roundingAdjustment)), ("rebates", Amount(t.rebates)),
         ("reservation", if t.reservation.None? then Null else Str(t.reservation.value)),
         ("schema_version", Whole(1)), ("sequence", Whole(t.sequence)),
         ("side", Str(if t.side.Buy? then "BUY" else "SELL")), ("terminal_fill", Bool(t.terminalFill)),
         ("trade", Str(t.trade)), ("unrealized_pnl", Amount(t.unrealizedPnl)), ("venue_trade", Str(t.venueTrade))])
  }

  function BrokerJson(b: BrokerFact): Json {
    Obj([("basis_sequence", Whole(b.basisSequence)), ("cash", Amount(b.cash)), ("equity", Amount(b.equity)),
         ("quality", Str(QualityText(b.quality))), ("reserved", Amount(b.reserved)), ("schema_version", Whole(1)),
         ("sequence", Whole(b.sequence)), ("snapshot", Str(b.snapshot)),
         ("trade_available", Amount(b.tradeAvailable)), ("withdrawable", Amount(b.withdrawable))])
  }

  function MarginJson(c: MarginCommand): Json {
    var action := match c.action case ReserveMargin => "RESERVE" case OtherMargin(text) => text;
    Obj(c.front + [("action", Str(action))] + c.middle + [("id", Str(c.id))] + c.rest)
  }

  function Op(q: Payload): string {
    match q
    case CashChange(_) => "CASH_CHANGE"
    case Economic(_) => "ECONOMIC"
    case Reserve(_) => "RESERVE"
    case Stage(_, _) => "STAGE"
    case Release(_, _) => "RELEASE"
    case Trade(_) => "TRADE"
    case Settle(_) => "SETTLE"
    case Margin(_) => "MARGIN"
    case Valuation(_, _) => "VALUATION"
    case Broker(_) => "BROKER"
  }

  function PayloadJson(q: Payload): Json {
    match q
    case CashChange(c) =>
      Obj([("amount", Amount(c.amount)), ("change", Str(c.change)), ("kind", Str(CashKindText(c.kind))),
           ("schema_version", Whole(1)), ("source_fact", Str(c.sourceFact))])
    case Economic(e) =>
      Obj([("amount", Amount(e.amount)), ("cashflow", Str(e.cashflow)), ("instrument", Str(e.instrument)),
           ("kind", Str(EconomicKindText(e.kind))), ("schema_version", Whole(1)), ("source_fact", Str(e.sourceFact))])
    case Reserve(h) =>
      Obj([("amount", Amount(h.amount)), ("order", Str(h.order)), ("reservation", Str(h.reservation)),
           ("schema_version", Whole(1))])
    case Stage(r, k) =>
      Obj([("reservation", Str(r)), ("schema_version", Whole(1)), ("stage", Str(StageText(k)))])
    case Release(r, k) =>
      Obj([("outcome", Str(ClosingText(k))), ("reservation", Str(r)), ("schema_version", Whole(1))])
    case Trade(t) => TradeJson(t)
    case Settle(s) =>
      Obj([("amount", Amount(s.amount)), ("instruction", Str(s.instruction)), ("schema_version", Whole(1)),
           ("source_trade", Str(s.sourceTrade))])
    case Margin(m) =>
      Obj([("after_hash", Str(m.afterHash)), ("before_hash", Str(m.beforeHash)), ("capacity", Whole(m.capacity)),
           ("command", MarginJson(m.command)), ("config", m.config), ("schema_version", Whole(1))])
    case Valuation(position, i) => FullPayload(i, position)
    case Broker(b) => BrokerJson(b)
  }

  function CommandJson(c: Command): Json {
    Envelope(c.id, c.body.owner, c.body.cause, c.body.time, Op(c.body.payload), PayloadJson(c.body.payload))
  }

  function EncodedJson(e: Encoded): Json {
    match e
    case Plain(c) => CommandJson(c)
    case Compact(id, owner, cause, time, i, r) => Envelope(id, owner, cause, time, "VALUATION", CompactPayload(i, r))
  }

  function CommandsJson(journal: seq<Command>): (r: seq<Json>)
    ensures |r| == |journal|
  {
    if journal == [] then [] else CommandsJson(journal[..|journal| - 1]) + [CommandJson(journal[|journal| - 1])]
  }

  /** The full (schema 4) record that both formats stand for. */
  function FullRecord(u: Setup, journal: seq<Command>, state: State): Json {
    Obj([("config", u.configJson(u.config)), ("journal", Arr(CommandsJson(journal))), ("schema_version", Whole(4)),
         ("state", u.stateJson(state))])
  }

  const MAX_CHECKPOINT := 16 * 1024 * 1024

  /** The bytes of the record with an empty journal plus a separately kept count stay within the bound. */
  function ExpandedSizeFits(u: Setup, state: State, journalBytes: nat): bool {
    |Encode(FullRecord(u, [], state))| + journalBytes <= MAX_CHECKPOINT
  }

  // ----- sizes -----

  /** Bytes that the journal's commands and the commas between them take. */
  function JournalSize(journal: seq<Command>): nat { |Join(CommandsJson(journal))| }

  /** One more command costs its own bytes plus one comma unless it is the first. */
  lemma {:induction false} JournalSizeAppend(journal: seq<Command>, c: Command)
    ensures JournalSize(journal + [c])
         == JournalSize(journal) + |Encode(CommandJson(c))| + (if journal == [] then 0 else 1)
  {
    assert (journal + [c])[..|journal|] == journal;
    var items := CommandsJson(journal);
    assert CommandsJson(journal + [c]) == items + [CommandJson(c)];
    assert (items + [CommandJson(c)])[..|items|] == items;
  }

  lemma {:induction false} JoinFieldsAppend(front: seq<(string, Json)>, f: (string, Json))
    ensures |JoinFields(front + [f])|
         == |JoinFields(front)| + |EncodeField(f)| + (if front == [] then 0 else 1)
  {
    assert (front + [f])[..|front|] == front;
  }

  /** Replacing one member of an object changes its size by exactly the difference of the two members. */
  lemma {:induction false} ReplaceMember(fields: seq<(string, Json)>, i: nat, f: (string, Json))
    requires i < |fields|
    ensures |JoinFields(fields[i := f])| - |EncodeField(f)| == |JoinFields(fields)| - |EncodeField(fields[i])|
    decreases |fields|
  {
    var n := |fields| - 1;
    var front, last := fields[..n], fields[n];
    assert fields == front + [last];
    JoinFieldsAppend(front, last);
    if i == n {
      assert fields[i := f] == front + [f];
      JoinFieldsAppend(front, f);
    } else {
      assert fields[i := f] == front[i := f] + [last];
      JoinFieldsAppend(front[i := f], last);
      ReplaceMember(front, i, f);
    }
  }

  lemma {:induction false} EncodedMember(fields: seq<(string, Json)>, i: nat, f: (string, Json))
    requires i < |fields|
    ensures |Encode(Obj(fields[i := f]))| == |Encode(Obj(fields))| - |EncodeField(fields[i])| + |EncodeField(f)|
  {
    ReplaceMember(fields, i, f);
  }

  /** Envelope plus incremental journal count is the exact size of the full record. */
  lemma {:induction false} FullRecordSize(u: Setup, journal: seq<Command>, state: State)
    ensures |Encode(FullRecord(u, journal, state))| == |Encode(FullRecord(u, [], state))| + JournalSize(journal)
  {
    var fields := [("config", u.configJson(u.config)), ("journal", Arr(CommandsJson([]))),
                   ("schema_version", Whole(4)), ("state", u.stateJson(state))];
    var full := ("journal", Arr(CommandsJson(journal)));
    EncodedMember(fields, 1, full);
    assert FullRecord(u, [], state) == Obj(fields);
    assert FullRecord(u, journal, state) == Obj(fields[1 := full]);
  }

  predicate HexChar(c: char) { '0' <= c <= '9' || 'a' <= c <= 'f' }

  /** Canonical SHA-256 text. */
  predicate Fingerprint(s: string) {
    |s| == 64 && forall i :: 0 <= i < |s| ==> HexChar(s[i])
  }

  predicate PlainChar(c: char) { HexChar(c) || 'a' <= c <= 'z' || c == '_' }

  lemma {:induction false} NeedsNoEscape(s: string)
    requires forall i :: 0 <= i < |s| ==> PlainChar(s[i])
    ensures Escape(s) == s
  {
    if s != "" {
      var n := |s| - 1;
      NeedsNoEscape(s[..n]);
      PlainCharStands(s[n]);
      EscapeAppend(s[..n], s[n]);
      assert s[..n] + [s[n]] == s;
    }
  }

  lemma {:induction false} EscapeAppend(s: string, c: char)
    ensures Escape(s + [c]) == Escape(s) + EscapeChar(c)
  {
    assert (s + [c])[..|s|] == s;
  }

  lemma {:induction false} PlainCharStands(c: char)
    requires PlainChar(c)
    ensures EscapeChar(c) == [c]
  {
  }

  /** In an object, changing what one member holds changes the size by exactly as much. */
  lemma {:induction false} MemberSize(fields: seq<(string, Json)>, i: nat, v: Json)
    requires i < |fields|
    ensures |Encode(Obj(fields[i := (fields[i].0, v)]))| - |Encode(v)| == |Encode(Obj(fields))| - |Encode(fields[i].1)|
  {
    EncodedMember(fields, i, (fields[i].0, v));
  }

  lemma {:induction false} EnvelopeSize(id: Id, owner: Owner, cause: Id, time: int, op: string, p: Json, q: Json)
    ensures |Encode(Envelope(id, owner, cause, time, op, p))| - |Encode(p)|
         == |Encode(Envelope(id, owner, cause, time, op, q))| - |Encode(q)|
  {
    var fields := Envelope(id, owner, cause, time, op, p).fields;
    MemberSize(fields, 7, q);
    assert Envelope(id, owner, cause, time, op, q).fields == fields[7 := ("payload", q)];
  }

  lemma {:induction false} PayloadSize(i: Intent, position: Json, reference: Id)
    requires Fingerprint(reference)
    ensures |Encode(CompactPayload(i, reference))| == |Encode(FullPayload(i, position))| - |Encode(position)|
                                                      + (4 + |reference| + 2)
  {
    assert forall k :: 0 <= k < |reference| ==> PlainChar(reference[k]);
    NeedsNoEscape(reference);
    KeySizes();
    var inner := [("intent", IntentJson(i)), ("position", position), ("schema_version", Whole(1))];
    var member := ("position_ref", Str(reference));
    EncodedMember(inner, 1, member);
    assert CompactPayload(i, reference) == Obj(inner[1 := member]);
  }

  /** What replacing a position body by its reference saves: four key bytes and the quoted reference are traded
      for the body. */
  lemma {:induction false} CompactSize(
    id: Id, owner: Owner, cause: Id, time: int, i: Intent, position: Json, reference: Id)
    requires Fingerprint(reference)
    ensures |Encode(Envelope(id, owner, cause, time, "VALUATION", CompactPayload(i, reference)))|
         == |Encode(Envelope(id, owner, cause, time, "VALUATION", FullPayload(i, position)))|
            - |Encode(position)| + (4 + |reference| + 2)
  {
    PayloadSize(i, position, reference);
    EnvelopeSize(id, owner, cause, time, "VALUATION", FullPayload(i, position), CompactPayload(i, reference));
  }

  lemma {:induction false} KeySizes()
    ensures |Quote("position")| == 10 && |Quote("position_ref")| == 14
  {
    NeedsNoEscape("position");
    NeedsNoEscape("position_ref");
  }

  // ----- compression and hydration -----

  datatype Dictionary = Dictionary(entries: seq<Encoded>, positions: map<Id, Json>)

  function CompressOne(d: Dictionary, c: Command): Result<Dictionary, Error> {
    match c.body.payload
    case Valuation(position, i) =>
      var r := i.positionEvidence;
      if !Fingerprint(r) then Err(FingerprintInvalid)
      else if r in d.positions && d.positions[r] != position then Err(PositionConflict)
      else
        Ok(Dictionary(d.entries + [Compact(c.id, c.body.owner, c.body.cause, c.body.time, i, r)],
                      d.positions[r := position]))
    case _ => Ok(d.(entries := d.entries + [Plain(c)]))
  }

  function Compress(journal: seq<Command>): Result<Dictionary, Error> {
    if journal == [] then Ok(Dictionary([], map[]))
    else
      var d :- Compress(journal[..|journal| - 1]);
      CompressOne(d, journal[|journal| - 1])
  }

  /** An entry whose reference can be followed. */
  predicate Resolvable(e: Encoded, positions: map<Id, Json>) {
    match e
    case Plain(c) => !c.body.payload.Valuation?
    case Compact(_, _, _, _, i, r) => Fingerprint(r) && i.positionEvidence == r && r in positions
  }

  function HydrateOne(e: Encoded, positions: map<Id, Json>): Command
    requires Resolvable(e, positions)
  {
    match e
    case Plain(c) => c
    case Compact(id, owner, cause, time, i, r) => Command(id, Body(owner, cause, time, Valuation(positions[r], i)))
  }

  predicate AllResolvable(entries: seq<Encoded>, positions: map<Id, Json>) {
    forall k :: 0 <= k < |entries| ==> Resolvable(entries[k], positions)
  }

  function Hydrate(entries: seq<Encoded>, positions: map<Id, Json>): (r: seq<Command>)
    requires AllResolvable(entries, positions)
    ensures |r| == |entries|
    ensures forall k :: 0 <= k < |r| ==> r[k] == HydrateOne(entries[k], positions)
  {
    if entries == [] then []
    else Hydrate(entries[..|entries| - 1], positions) + [HydrateOne(entries[|entries| - 1], positions)]
  }

  function Referenced(entries: seq<Encoded>): set<Id> {
    if entries == [] then {}
    else
      var e := entries[|entries| - 1];
      Referenced(entries[..|entries| - 1]) + (if e.Compact? then {e.positionRef} else {})
  }

  lemma {:induction false} ReferencedAppend(entries: seq<Encoded>, e: Encoded)
    ensures Referenced(entries + [e]) == Referenced(entries) + (if e.Compact? then {e.positionRef} else {})
  {
    assert (entries + [e])[..|entries|] == entries;
  }

  lemma {:induction false} ReferencedBy(entries: seq<Encoded>, r: Id) returns (k: nat)
    requires r in Referenced(entries)
    ensures k < |entries| && entries[k].Compact? && entries[k].positionRef == r
  {
    var n := |entries| - 1;
    if entries[n].Compact? && entries[n].positionRef == r {
      k := n;
    } else {
      k := ReferencedBy(entries[..n], r);
    }
  }

  /** A dictionary stands for a journal: its references resolve to it and it stores no other body. */
  ghost predicate StandsFor(d: Dictionary, journal: seq<Command>) {
    && AllResolvable(d.entries, d.positions)
    && Hydrate(d.entries, d.positions) == journal
    && Referenced(d.entries) == d.positions.Keys
  }

  lemma {:induction false} CompressOneLossless(d: Dictionary, journal: seq<Command>, c: Command)
    requires StandsFor(d, journal) && CompressOne(d, c).Ok?
    ensures StandsFor(CompressOne(d, c).value, journal + [c])
  {
    var next := CompressOne(d, c).value;
    var n := |d.entries|;
    assert next.entries[..n] == d.entries;
    HydrateMonotone(d.entries, d.positions, next.positions);
    assert Resolvable(next.entries[n], next.positions);
    assert HydrateOne(next.entries[n], next.positions) == c;
  }

  /** The compression of a journal, if there is one, stands for it. */
  ghost predicate Lossless(journal: seq<Command>) {
    Compress(journal).Ok? ==> StandsFor(Compress(journal).value, journal)
  }

  lemma {:induction false} LosslessNext(journal: seq<Command>, c: Command)
    requires Lossless(journal)
    ensures Lossless(journal + [c])
  {
    assert (journal + [c])[..|journal|] == journal;
    if Compress(journal + [c]).Ok? { CompressOneLossless(Compress(journal).value, journal, c); }
  }

  /** Following every reference of a compressed journal gives back the journal, and every stored body is used. */
  lemma {:induction false} CompressLossless(journal: seq<Command>)
    requires Compress(journal).Ok?
    ensures StandsFor(Compress(journal).value, journal)
  {
    var holds := (front: seq<Command>) => Lossless(front);
    forall front, c | holds(front) ensures holds(front + [c]) { LosslessNext(front, c); }
    Along(holds, journal);
    assert Lossless(journal);
  }

  lemma {:induction false} HydrateMonotone(entries: seq<Encoded>, small: map<Id, Json>, big: map<Id, Json>)
    requires AllResolvable(entries, small)
    requires forall r :: r in small ==> r in big && big[r] == small[r]
    ensures AllResolvable(entries, big) && Hydrate(entries, big) == Hydrate(entries, small)
  {
    forall k | 0 <= k < |entries| ensures Resolvable(entries[k], big) {
      assert Resolvable(entries[k], small);
    }
  }

  ghost predicate Rebuilds(d: Dictionary, entries: seq<Encoded>, positions: map<Id, Json>) {
    && d.entries == entries
    && d.positions.Keys == Referenced(entries)
    && (forall r :: r in d.positions ==> r in positions && d.positions[r] == positions[r])
  }

  lemma {:induction false} RebuildsOne(d: Dictionary, entries: seq<Encoded>, e: Encoded, positions: map<Id, Json>)
    requires Resolvable(e, positions) && Rebuilds(d, entries, positions)
    ensures var next := CompressOne(d, HydrateOne(e, positions));
            next.Ok? && Rebuilds(next.value, entries + [e], positions)
  {
    ReferencedAppend(entries, e);
    var next := CompressOne(d, HydrateOne(e, positions));
    match e
    case Plain(c) =>
      assert next == Ok(Dictionary(entries + [e], d.positions));
    case Compact(_, _, _, _, i, r) =>
      assert next == Ok(Dictionary(entries + [e], d.positions[r := positions[r]]));
  }

  lemma {:induction false} CompressSplit(journal: seq<Command>, c: Command)
    requires Compress(journal).Ok?
    ensures Compress(journal + [c]) == CompressOne(Compress(journal).value, c)
  {
    assert (journal + [c])[..|journal|] == journal;
  }

  lemma {:induction false} HydrateSplit(entries: seq<Encoded>, e: Encoded, positions: map<Id, Json>)
    requires AllResolvable(entries, positions) && Resolvable(e, positions)
    ensures AllResolvable(entries + [e], positions)
    ensures Hydrate(entries + [e], positions) == Hydrate(entries, positions) + [HydrateOne(e, positions)]
  {
  }

  /** Compressing what an entry list stands for rebuilds the list and keeps exactly the bodies it refers to. */
  lemma {:induction false} HydrateThenCompress(entries: seq<Encoded>, positions: map<Id, Json>)
    requires AllResolvable(entries, positions)
    ensures Compress(Hydrate(entries, positions)).Ok?
    ensures Rebuilds(Compress(Hydrate(entries, positions)).value, entries, positions)
  {
    if entries != [] {
      var n := |entries| - 1;
      var front, e := entries[..n], entries[n];
      HydrateThenCompress(front, positions);
      HydrateSplit(front, e, positions);
      var journal := Hydrate(front, positions);
      RebuildsOne(Compress(journal).value, front, e, positions);
      CompressSplit(journal, HydrateOne(e, positions));
      assert front + [e] == entries;
    }
  }

  // ----- what a dictionary checkpoint must satisfy -----

  predicate DigestsMatch(u: Setup, positions: map<Id, Json>) {
    forall r :: r in positions ==> Fingerprint(r) && u.digest(positions[r]) == r
  }

  /** The meaning of an accepted dictionary: digests hold, references resolve, nothing is unused, and the full
      record that it stands for is within the checkpoint bound. */
  ghost predicate DictionaryOk(u: Setup, entries: seq<Encoded>, positions: map<Id, Json>, state: State) {
    && DigestsMatch(u, positions)
    && AllResolvable(entries, positions)
    && Referenced(entries) == positions.Keys
    && |Encode(FullRecord(u, Hydrate(entries, positions), state))| <= MAX_CHECKPOINT
  }

  /** The record that `checkpoint` encodes, or the reason why there is none. */
  ghost function CheckpointOf(u: Setup, m: Ledger): Result<Checkpoint, Error> {
    if u.version == 4 then Ok(Checkpoint4(u.config, m.journal, m.state))
    else if u.version == 5 then
      var d :- Compress(m.journal);
      if DictionaryOk(u, d.entries, d.positions, m.state)
      then Ok(Checkpoint5(u.config, d.entries, d.positions, m.state))
      else Err(if DigestsMatch(u, d.positions) then CheckpointBound else PositionDigest)
    else Err(CheckpointSchema)
  }

  /** Two valuations that give different bodies the same evidence. */
  predicate Clash(a: Command, b: Command) {
    && a.body.payload.Valuation? && b.body.payload.Valuation?
    && a.body.payload.intent.positionEvidence == b.body.payload.intent.positionEvidence
    && a.body.payload.position != b.body.payload.position
  }

  predicate Clear(journal: seq<Command>, c: Command) { forall k :: 0 <= k < |journal| ==> !Clash(journal[k], c) }

  /** Two bodies stored under one reference would be a digest collision. */
  ghost predicate NoCollision(journal: seq<Command>) {
    forall i, j :: 0 <= i < |journal| && 0 <= j < |journal| ==> !Clash(journal[i], journal[j])
  }

  lemma {:induction false} CollisionGrows(journal: seq<Command>, c: Command)
    ensures NoCollision(journal + [c]) <==> NoCollision(journal) && Clear(journal, c)
  {
    var n := journal + [c];
    assert n[|journal|] == c && forall k :: 0 <= k < |journal| ==> n[k] == journal[k];
    if NoCollision(n) {
      forall k | 0 <= k < |journal| ensures !Clash(journal[k], c) { assert !Clash(n[k], n[|journal|]); }
      forall i, j | 0 <= i < |journal| && 0 <= j < |journal| ensures !Clash(journal[i], journal[j]) {
        assert !Clash(n[i], n[j]);
      }
    }
    if NoCollision(journal) && Clear(journal, c) {
      forall i, j | 0 <= i < |n| && 0 <= j < |n| ensures !Clash(n[i], n[j]) {
        if i < |journal| && j < |journal| { assert !Clash(journal[i], journal[j]); }
        if i < |journal| { assert !Clash(journal[i], c); }
        if j < |journal| { assert !Clash(journal[j], c); }
      }
    }
  }

  predicate Vouched(u: Setup, q: Payload) {
    q.Valuation? ==> Fingerprint(q.intent.positionEvidence) && q.intent.positionEvidence == u.digest(q.position)
  }

  predicate Evidenced(u: Setup, journal: seq<Command>) {
    forall k :: 0 <= k < |journal| ==> Vouched(u, journal[k].body.payload)
  }

  /** A stored body is the body of every command that refers to it, and some command does. */
  lemma {:induction false} StoredBodies(d: Dictionary, journal: seq<Command>, r: Id)
    requires StandsFor(d, journal)
    ensures r in d.positions ==> exists k :: 0 <= k < |journal| && Refers(journal[k], r)
    ensures forall k :: 0 <= k < |journal| && Refers(journal[k], r) ==>
              r in d.positions && d.positions[r] == journal[k].body.payload.position
  {
    if r in d.positions {
      var k := ReferencedBy(d.entries, r);
      assert Resolvable(d.entries[k], d.positions) && journal[k] == HydrateOne(d.entries[k], d.positions);
      assert Refers(journal[k], r);
    }
    forall k | 0 <= k < |journal| && Refers(journal[k], r)
      ensures r in d.positions && d.positions[r] == journal[k].body.payload.position
    {
      assert Resolvable(d.entries[k], d.positions) && journal[k] == HydrateOne(d.entries[k], d.positions);
    }
  }

  predicate Refers(c: Command, r: Id) {
    c.body.payload.Valuation? && c.body.payload.intent.positionEvidence == r
  }

  lemma {:induction false} CompressOneClear(u: Setup, d: Dictionary, journal: seq<Command>, c: Command)
    requires StandsFor(d, journal) && Vouched(u, c.body.payload)
    ensures CompressOne(d, c).Ok? <==> Clear(journal, c)
  {
    if c.body.payload.Valuation? {
      var r := c.body.payload.intent.positionEvidence;
      StoredBodies(d, journal, r);
      if r in d.positions {
        var k :| 0 <= k < |journal| && Refers(journal[k], r);
        assert Clash(journal[k], c) <==> d.positions[r] != c.body.payload.position;
      }
      forall k | 0 <= k < |journal| && Clash(journal[k], c)
        ensures r in d.positions && d.positions[r] != c.body.payload.position
      {
        assert Refers(journal[k], r);
      }
    }
  }

  lemma {:induction false} DigestsGrow(u: Setup, d: Dictionary, c: Command)
    requires DigestsMatch(u, d.positions) && Vouched(u, c.body.payload) && CompressOne(d, c).Ok?
    ensures DigestsMatch(u, CompressOne(d, c).value.positions)
  {
  }

  /** The compression of an evidenced journal exists exactly without a collision, and then its digests match. */
  ghost predicate Succeeds(u: Setup, journal: seq<Command>) {
    Evidenced(u, journal) ==>
      && (Compress(journal).Ok? <==> NoCollision(journal))
      && (Compress(journal).Ok? ==> DigestsMatch(u, Compress(journal).value.positions))
  }

  lemma {:induction false} SucceedsNext(u: Setup, journal: seq<Command>, c: Command)
    requires Succeeds(u, journal)
    ensures Succeeds(u, journal + [c])
  {
    var n := journal + [c];
    assert n[..|journal|] == journal && n[|journal|] == c;
    CollisionGrows(journal, c);
    if Evidenced(u, n) {
      assert forall k :: 0 <= k < |journal| ==> journal[k] == n[k];
      assert Vouched(u, n[|journal|].body.payload);
      if Compress(journal).Ok? {
        var d := Compress(journal).value;
        CompressLossless(journal);
        CompressOneClear(u, d, journal, c);
        if CompressOne(d, c).Ok? { DigestsGrow(u, d, c); }
      }
    }
  }

  /** Over evidenced journals compression fails exactly on a collision; otherwise every digest matches. */
  lemma {:induction false} CompressSucceeds(u: Setup, journal: seq<Command>)
    requires Evidenced(u, journal)
    ensures Compress(journal).Ok? <==> NoCollision(journal)
    ensures Compress(journal).Ok? ==> DigestsMatch(u, Compress(journal).value.positions)
  {
    var holds := (front: seq<Command>) => Succeeds(u, front);
    forall front, c | holds(front) ensures holds(front + [c]) { SucceedsNext(u, front, c); }
    assert holds([]);
    Along(holds, journal);
    assert Succeeds(u, journal);
  }
}
