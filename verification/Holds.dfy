/** The whole record of a hold, told by the journal entries that touched it. */
module Holds {
  import opened Core
  import opened Model
  import opened Transitions
  import opened Frames
  import opened Runs
  import opened Conservation
  import opened Lifecycle

  // ----- what an entry does to a hold -----

  predicate Opens(x: Entry, k: Id) {
    Moved(x) && x.command.body.payload.Reserve? && x.command.body.payload.hold.reservation == k
  }
  predicate Stages(x: Entry, k: Id, stage: StageKind) { Moved(x) && x.command.body.payload == Stage(k, stage) }
  predicate Releases(x: Entry, k: Id, outcome: Closing) { Moved(x) && x.command.body.payload == Release(k, outcome) }
  predicate Spends(x: Entry, k: Id) { Bought(x) && x.command.body.payload.fill.reservation == Some(k) }

  predicate Touches(x: Entry, k: Id) {
    || Opens(x, k) || Spends(x, k)
    || (Moved(x) && x.command.body.payload.Stage? && x.command.body.payload.reservation == k)
    || (Moved(x) && x.command.body.payload.Release? && x.command.body.payload.reservation == k)
  }

  /** What a purchase takes from a hold: its notional and its gross charges. */
  function Spent(x: Entry, k: Id): int { if Spends(x, k) then BuyNotional(x) + BuyCharges(x) else 0 }

  predicate Sends(x: Entry, k: Id) {
    || Stages(x, k, SentToBroker) || Stages(x, k, SubmitUnknown) || Stages(x, k, BrokerAcknowledged)
    || Releases(x, k, UnknownOutcome) || Spends(x, k)
  }
  predicate Acknowledges(x: Entry, k: Id) { Stages(x, k, BrokerAcknowledged) }
  predicate Doubts(x: Entry, k: Id) { Stages(x, k, SubmitUnknown) || Releases(x, k, UnknownOutcome) }
  predicate AsksCancel(x: Entry, k: Id) { Stages(x, k, CancelRequested) || Releases(x, k, UnknownOutcome) }

  /** The entry ends the hold, and how. */
  predicate Ends(x: Entry, k: Id, outcome: Closing) {
    || (Releases(x, k, outcome) && outcome in {NotSent, Cancelled, Rejected, Expired, Failed})
    || (Spends(x, k) && x.command.body.payload.fill.terminalFill && outcome == Filled)
  }
  predicate EndsSent(x: Entry, k: Id) {
    || Ends(x, k, Cancelled) || Ends(x, k, Rejected) || Ends(x, k, Expired) || Ends(x, k, Failed) || Ends(x, k, Filled)
  }

  // ----- one entry -----

  /** What an entry does to a hold that is there already. */
  ghost predicate Moves(r: Reservation, n: Reservation, x: Entry, k: Id) {
    && n.order == r.order && n.original == r.original
    && n.consumed == r.consumed + Spent(x, k)
    && (n.terminal.None? ==> n.released == r.released)
    && (n.sent <==> r.sent || Sends(x, k))
    && (n.acknowledged <==> r.acknowledged || Acknowledges(x, k))
    && (n.unknown <==> Doubts(x, k) || (r.unknown && !EndsSent(x, k) && !Acknowledges(x, k)))
    && (n.cancelPending <==> AsksCancel(x, k) || (r.cancelPending && !EndsSent(x, k)))
    && (forall o :: n.terminal == Some(o) <==> r.terminal == Some(o) || Ends(x, k, o))
    && (Spends(x, k) ==> x.command.body.payload.fill.order == r.order)
  }

  /** What an entry does to the hold of a given name: it opens it, moves it, or there is none. */
  ghost predicate Written(rs: map<Id, Reservation>, ns: map<Id, Reservation>, x: Entry, k: Id) {
    && (k in ns <==> k in rs || Opens(x, k))
    && (k !in rs && Touches(x, k) ==> Opens(x, k) && ns[k] == Opened(x.command.body.payload.hold))
    && (k in rs ==> !Opens(x, k) && Moves(rs[k], ns[k], x, k))
  }

  function Opened(h: ReserveFact): Reservation {
    Reservation(h.order, h.amount.coef, 0, h.amount.coef, 0, false, false, false, false, None)
  }

  lemma {:induction false} Untouched(r: Reservation, x: Entry, k: Id)
    requires !Touches(x, k)
    ensures Moves(r, r, x, k)
  {
  }

  lemma {:induction false} ReserveWrites(s: State, p: nat, c: Command, t: State, k: Id)
    requires c.body.payload.Reserve? && Normalize(c, p) == Ok(c) && ReserveStep(s, p, c.body.payload.hold) == Ok(t)
    ensures Written(s.reservations, t.reservations, Entry(c, Applied), k)
  {
    var h := c.body.payload.hold;
    MoneyCanonical(h.amount, p);
    assert t.reservations == s.reservations[h.reservation := Opened(h)];
    if k in s.reservations { Untouched(s.reservations[k], Entry(c, Applied), k); }
  }

  lemma {:induction false} StageMoves(r: Reservation, n: Reservation, c: Command, k: Id, stage: StageKind)
    requires WellFormed(r) && StageReservation(r, stage) == Ok(n) && c.body.payload == Stage(k, stage)
    ensures Moves(r, n, Entry(c, Applied), k)
  {
  }

  lemma {:induction false} StageWrites(s: State, c: Command, t: State, k: Id)
    requires WellHeld(s) && c.body.payload.Stage?
    requires StageStep(s, c.body.payload.reservation, c.body.payload.stage) == Ok(t)
    ensures Written(s.reservations, t.reservations, Entry(c, Applied), k)
  {
    var id, stage := c.body.payload.reservation, c.body.payload.stage;
    if k == id {
      StageMoves(s.reservations[k], t.reservations[k], c, k, stage);
    } else if k in s.reservations {
      Untouched(s.reservations[k], Entry(c, Applied), k);
    }
  }

  lemma {:induction false} CloseMoves(r: Reservation, n: Reservation, c: Command, k: Id, outcome: Closing)
    requires WellFormed(r) && r.terminal.None?
    requires CloseReservation(r, outcome) == Ok(n) && c.body.payload == Release(k, outcome)
    ensures Moves(r, n, Entry(c, Applied), k)
  {
  }

  lemma {:induction false} ReleaseWrites(s: State, c: Command, e: Effect, k: Id)
    requires WellHeld(s) && c.body.payload.Release?
    requires ReleaseStep(s, c.body.payload.reservation, c.body.payload.outcome) == Ok(e)
    ensures Written(s.reservations, e.state.reservations, Entry(c, e.status), k)
  {
    var id, outcome := c.body.payload.reservation, c.body.payload.outcome;
    if k == id && e.status == Applied {
      CloseMoves(s.reservations[k], e.state.reservations[k], c, k, outcome);
    } else if k in s.reservations {
      Untouched(s.reservations[k], Entry(c, e.status), k);
    }
  }

  lemma {:induction false} ConsumeMoves(r: Reservation, c: Command, k: Id)
    requires WellFormed(r) && r.terminal.None? && Spends(Entry(c, Applied), k)
    requires c.body.payload.fill.order == r.order
    ensures var t := c.body.payload.fill;
            Moves(r, ConsumeReservation(r, t.notional.coef + t.charges.coef, t.terminalFill), Entry(c, Applied), k)
  {
  }

  lemma {:induction false} FillWrites(s: State, t: State, c: Command, k: Id)
    requires WellHeld(s) && c.body.payload.Trade? && FillMoves(s, t, c.body.payload.fill)
    ensures Written(s.reservations, t.reservations, Entry(c, Applied), k)
  {
    var f, x := c.body.payload.fill, Entry(c, Applied);
    if f.side == Buy && f.reservation == Some(k) {
      ConsumeMoves(s.reservations[k], c, k);
    } else if k in s.reservations {
      Untouched(s.reservations[k], x, k);
    }
  }

  lemma {:induction false} TradeWrites(u: Setup, s: State, c: Command, e: Effect, k: Id)
    requires WellHeld(s) && Normalize(c, u.config.precision) == Ok(c) && c.body.payload.Trade?
    requires TradeStep(s, u.config.precision, c.body.payload.fill, c.body.time) == Ok(e)
    ensures Written(s.reservations, e.state.reservations, Entry(c, e.status), k)
  {
    var p, f := u.config.precision, c.body.payload.fill;
    CommandFill(c, p);
    TradeFrame(s, p, f, c.body.time);
    if e.status == Applied {
      FillShape(s, p, f, c.body.time, e);
      FillWrites(s, e.state, c, k);
    } else if k in s.reservations {
      Untouched(s.reservations[k], Entry(c, e.status), k);
    }
  }

  /** An entry that leaves all holds as they were. */
  lemma {:induction false} StillWrites(rs: map<Id, Reservation>, x: Entry, k: Id)
    requires !Touches(x, k)
    ensures Written(rs, rs, x, k)
  {
    if k in rs { Untouched(rs[k], x, k); }
  }

  lemma {:induction false} HoldWrites(u: Setup, s: State, c: Command, e: Effect, k: Id)
    requires WellHeld(s) && Normalize(c, u.config.precision) == Ok(c) && Transition(u, s, c.body) == Ok(e)
    requires c.body.payload.Reserve? || c.body.payload.Stage? || c.body.payload.Release?
    ensures Written(s.reservations, e.state.reservations, Entry(c, e.status), k)
  {
    match c.body.payload
    case Reserve(_) => ReserveWrites(s, u.config.precision, c, e.state, k);
    case Stage(_, _) => StageWrites(s, c, e.state, k);
    case Release(_, _) => ReleaseWrites(s, c, e, k);
  }

  lemma {:induction false} TransitionWrites(u: Setup, s: State, c: Command, e: Effect, k: Id)
    requires WellHeld(s) && Normalize(c, u.config.precision) == Ok(c) && Transition(u, s, c.body) == Ok(e)
    ensures Written(s.reservations, e.state.reservations, Entry(c, e.status), k)
  {
    var q := c.body.payload;
    if q.Reserve? || q.Stage? || q.Release? {
      HoldWrites(u, s, c, e, k);
    } else if q.Trade? {
      TradeWrites(u, s, c, e, k);
    } else {
      TransitionFrame(u, s, c.body);
      StillWrites(s.reservations, Entry(c, e.status), k);
    }
  }

  lemma {:induction false} CommitWrites(u: Setup, s: State, c: Command, e: Effect, k: Id)
    requires WellHeld(s) && Commits(u, s, c, e)
    ensures Written(s.reservations, Record(c, e).reservations, Entry(c, e.status), k)
  {
    RecordFrame(c, e);
    if Known(s, c.body) {
      StillWrites(s.reservations, Entry(c, e.status), k);
    } else {
      TransitionWrites(u, s, c, e, k);
    }
  }

  // ----- whole runs -----

  ghost function Spending(k: Id): Entry -> int { (x: Entry) => Spent(x, k) }
  ghost function Sending(k: Id): Entry -> bool { (x: Entry) => Sends(x, k) }
  ghost function Acknowledging(k: Id): Entry -> bool { (x: Entry) => Acknowledges(x, k) }
  ghost function Doubting(k: Id): Entry -> bool { (x: Entry) => Doubts(x, k) }
  ghost function Cancelling(k: Id): Entry -> bool { (x: Entry) => AsksCancel(x, k) }
  ghost function Ending(k: Id, outcome: Closing): Entry -> bool { (x: Entry) => Ends(x, k, outcome) }
  ghost function EndingSent(k: Id): Entry -> bool { (x: Entry) => EndsSent(x, k) }
  ghost function Resolving(k: Id): Entry -> bool { (x: Entry) => EndsSent(x, k) || Acknowledges(x, k) }
  ghost function Touching(k: Id): Entry -> bool { (x: Entry) => Touches(x, k) }
  ghost function OpeningAs(k: Id, order: Id, original: int): Entry -> bool {
    (x: Entry) => Opens(x, k) && x.command.body.payload.hold.order == order
                  && x.command.body.payload.hold.amount.coef == original
  }
  /** A purchase against the hold for another order. */
  ghost function Straying(k: Id, order: Id): Entry -> bool {
    (x: Entry) => Spends(x, k) && x.command.body.payload.fill.order != order
  }

  /** Every field of a hold, by what the journal has on it. */
  ghost predicate Tells(trace: seq<Entry>, r: Reservation, k: Id) {
    && Sometime(trace, OpeningAs(k, r.order, r.original))
    && !Sometime(trace, Straying(k, r.order))
    && r.consumed == Sum(trace, Spending(k))
    && r.released == (if r.terminal.None? then 0 else r.original - r.consumed)
    && (r.sent <==> Sometime(trace, Sending(k)))
    && (r.acknowledged <==> Sometime(trace, Acknowledging(k)))
    && (r.unknown <==> Stands(trace, Doubting(k), Resolving(k)))
    && (r.cancelPending <==> Stands(trace, Cancelling(k), EndingSent(k)))
    && (forall o :: r.terminal == Some(o) <==> Sometime(trace, Ending(k, o)))
  }

  lemma {:induction false} TellsOrder(trace: seq<Entry>, r: Reservation, n: Reservation, x: Entry, k: Id)
    requires Tells(trace, r, k) && Moves(r, n, x, k)
    ensures Sometime(trace + [x], OpeningAs(k, n.order, n.original))
    ensures !Sometime(trace + [x], Straying(k, n.order))
    ensures n.consumed == Sum(trace + [x], Spending(k))
  {
    SometimeAppend(trace, x, OpeningAs(k, r.order, r.original));
    SometimeAppend(trace, x, Straying(k, r.order));
    SumAppend(trace, x, Spending(k));
  }

  lemma {:induction false} TellsMarks(trace: seq<Entry>, r: Reservation, n: Reservation, x: Entry, k: Id)
    requires Tells(trace, r, k) && Moves(r, n, x, k)
    ensures n.sent <==> Sometime(trace + [x], Sending(k))
    ensures n.acknowledged <==> Sometime(trace + [x], Acknowledging(k))
    ensures n.unknown <==> Stands(trace + [x], Doubting(k), Resolving(k))
    ensures n.cancelPending <==> Stands(trace + [x], Cancelling(k), EndingSent(k))
  {
    SometimeAppend(trace, x, Sending(k));
    SometimeAppend(trace, x, Acknowledging(k));
    StandsAppend(trace, x, Doubting(k), Resolving(k));
    StandsAppend(trace, x, Cancelling(k), EndingSent(k));
  }

  lemma {:induction false} TellsEnd(trace: seq<Entry>, r: Reservation, n: Reservation, x: Entry, k: Id, o: Closing)
    requires Tells(trace, r, k) && Moves(r, n, x, k)
    ensures n.terminal == Some(o) <==> Sometime(trace + [x], Ending(k, o))
  {
    SometimeAppend(trace, x, Ending(k, o));
  }

  lemma {:induction false} TellsGrow(trace: seq<Entry>, r: Reservation, n: Reservation, x: Entry, k: Id)
    requires Tells(trace, r, k) && Moves(r, n, x, k) && WellFormed(n)
    ensures Tells(trace + [x], n, k)
  {
    TellsOrder(trace, r, n, x, k);
    TellsMarks(trace, r, n, x, k);
    forall o ensures n.terminal == Some(o) <==> Sometime(trace + [x], Ending(k, o)) { TellsEnd(trace, r, n, x, k, o); }
    if r.terminal.Some? { assert n.terminal == r.terminal; }
  }

  /** A hold that no entry touched has no record. */
  lemma {:induction false} NeverTouched(trace: seq<Entry>, k: Id)
    requires !Sometime(trace, Touching(k))
    ensures Sum(trace, Spending(k)) == 0
    ensures forall did: Entry -> bool | Within(did, k) :: !Sometime(trace, did)
  {
    if trace != [] {
      var n := |trace| - 1;
      SometimeAppend(trace[..n], trace[n], Touching(k));
      assert trace == trace[..n] + [trace[n]];
      NeverTouched(trace[..n], k);
      assert !Touching(k)(trace[n]);
    }
    forall did: Entry -> bool | Within(did, k) ensures !Sometime(trace, did) { WithinTouches(trace, did, k); }
  }

  lemma {:induction false} WithinTouches(trace: seq<Entry>, did: Entry -> bool, k: Id)
    requires Within(did, k)
    ensures Sometime(trace, did) ==> Sometime(trace, Touching(k))
  {
    if i :| 0 <= i < |trace| && did(trace[i]) { assert Touching(k)(trace[i]); }
  }

  ghost predicate Within(did: Entry -> bool, k: Id) { forall x :: did(x) ==> Touches(x, k) }

  lemma {:induction false} TellsStart(trace: seq<Entry>, x: Entry, k: Id)
    requires !Sometime(trace, Touching(k)) && Opens(x, k)
    ensures Tells(trace + [x], Opened(x.command.body.payload.hold), k)
  {
    var r := Opened(x.command.body.payload.hold);
    NeverTouched(trace, k);
    assert Within(Straying(k, r.order), k) && Within(Sending(k), k) && Within(Acknowledging(k), k);
    assert Within(Doubting(k), k) && Within(Cancelling(k), k);
    SometimeAppend(trace, x, OpeningAs(k, r.order, r.original));
    SometimeAppend(trace, x, Straying(k, r.order));
    SometimeAppend(trace, x, Sending(k));
    SometimeAppend(trace, x, Acknowledging(k));
    SumAppend(trace, x, Spending(k));
    NotStanding(trace + [x], Doubting(k), Resolving(k));
    NotStanding(trace + [x], Cancelling(k), EndingSent(k));
    SometimeAppend(trace, x, Doubting(k));
    SometimeAppend(trace, x, Cancelling(k));
    forall o ensures !Sometime(trace + [x], Ending(k, o)) {
      assert Within(Ending(k, o), k);
      SometimeAppend(trace, x, Ending(k, o));
    }
  }

  /** The holds are those opened, each with the record the journal gives it. */
  ghost predicate Told(trace: seq<Entry>, rs: map<Id, Reservation>) {
    forall k :: if k in rs then Tells(trace, rs[k], k) else !Sometime(trace, Touching(k))
  }

  lemma {:induction false} ToldOne(
    trace: seq<Entry>, rs: map<Id, Reservation>, ns: map<Id, Reservation>, x: Entry, k: Id)
    requires Told(trace, rs) && Written(rs, ns, x, k) && (k in ns ==> WellFormed(ns[k]))
    ensures if k in ns then Tells(trace + [x], ns[k], k) else !Sometime(trace + [x], Touching(k))
  {
    SometimeAppend(trace, x, Touching(k));
    if k in rs {
      TellsGrow(trace, rs[k], ns[k], x, k);
    } else if k in ns {
      TellsStart(trace, x, k);
    }
  }

  lemma {:induction false} CommitTold(u: Setup, trace: seq<Entry>, s: State, c: Command, e: Effect)
    requires Told(trace, s.reservations) && WellHeld(s) && Commits(u, s, c, e)
    ensures Told(trace + [Entry(c, e.status)], Record(c, e).reservations)
  {
    var rs, x := Record(c, e).reservations, Entry(c, e.status);
    CommitKeeps(u, s, c, e);
    forall k ensures if k in rs then Tells(trace + [x], rs[k], k) else !Sometime(trace + [x], Touching(k)) {
      CommitWrites(u, s, c, e, k);
      ToldOne(trace, s.reservations, rs, x, k);
    }
  }

  /** Over every run each hold is what the journal says of it: its order and amount are those of the command that opened
      it, only purchases for that order spent it and it has spent their notional and charges, and every mark and its
      ending are those of the stages, releases and fills applied to it. */
  lemma {:induction false} EveryHoldTold(u: Setup, inputs: seq<Command>)
    ensures var r := Execute(u, inputs); Told(r.trace, r.ledger.state.reservations)
  {
    if inputs != [] {
      var n := |inputs| - 1;
      var r := Execute(u, inputs[..n]);
      EveryHoldTold(u, inputs[..n]);
      EveryRunWellHeld(u, inputs[..n]);
      var c, e := AdvanceShape(u, r, inputs[n]);
      if Advance(u, r, inputs[n]) != r {
        GrowthCommits(u, r.ledger, c, e);
        CommitTold(u, r.trace, r.ledger.state, c, e);
      }
    }
  }
}
