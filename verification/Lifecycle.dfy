/** Reservation lifecycle: conservation of each hold, what a terminal outcome means, and one order per hold. */
module Lifecycle {
  import opened Core
  import opened Model
  import opened Transitions
  import opened Frames
  import opened Runs

  predicate WellFormed(r: Reservation) {
    && Balanced(r) && r.original > 0
    && (r.remaining == 0 <==> r.terminal.Some?)
    && (r.unknown || r.cancelPending || r.acknowledged || r.consumed > 0 ==> r.sent)
    && (r.terminal == Some(NotSent) ==> !r.sent && r.consumed == 0 && r.released == r.original)
    && (r.terminal == Some(Filled) ==> r.sent && !r.unknown && !r.cancelPending)
    && r.terminal != Some(UnknownOutcome)
  }

  ghost predicate WellHeld(s: State) {
    && (forall k :: k in s.reservations ==> WellFormed(s.reservations[k]))
    && (forall j, k :: j in s.reservations && k in s.reservations && j != k ==>
          s.reservations[j].order != s.reservations[k].order)
  }

  /** No hold disappears, changes its order or its original amount, or moves once it is terminal. */
  ghost predicate Keeps(s: State, t: State) {
    forall k :: k in s.reservations ==>
      && k in t.reservations
      && t.reservations[k].order == s.reservations[k].order
      && t.reservations[k].original == s.reservations[k].original
      && (s.reservations[k].terminal.Some? ==> t.reservations[k] == s.reservations[k])
  }

  lemma {:induction false} ReplaceOne(s: State, t: State, id: Id, r: Reservation)
    requires WellHeld(s) && id in s.reservations && s.reservations[id].terminal.None?
    requires WellFormed(r) && r.order == s.reservations[id].order && r.original == s.reservations[id].original
    requires t.reservations == s.reservations[id := r]
    ensures WellHeld(t) && Keeps(s, t)
  {
  }

  lemma {:induction false} SameHolds(s: State, t: State)
    requires WellHeld(s) && t.reservations == s.reservations
    ensures WellHeld(t) && Keeps(s, t)
  {
  }

  lemma {:induction false} ReserveKeeps(s: State, p: nat, h: ReserveFact)
    requires WellHeld(s) && ReserveStep(s, p, h).Ok?
    ensures WellHeld(ReserveStep(s, p, h).value) && Keeps(s, ReserveStep(s, p, h).value)
  {
    assert forall k :: k in s.reservations ==> s.reservations[k].order != h.order;
  }

  lemma {:induction false} StageKeeps(s: State, id: Id, k: StageKind)
    requires WellHeld(s) && StageStep(s, id, k).Ok?
    ensures WellHeld(StageStep(s, id, k).value) && Keeps(s, StageStep(s, id, k).value)
  {
    ReplaceOne(s, StageStep(s, id, k).value, id, StageReservation(s.reservations[id], k).value);
  }

  lemma {:induction false} ReleaseKeeps(s: State, id: Id, k: Closing)
    requires WellHeld(s) && ReleaseStep(s, id, k).Ok?
    ensures WellHeld(ReleaseStep(s, id, k).value.state) && Keeps(s, ReleaseStep(s, id, k).value.state)
  {
    if s.reservations[id].terminal.None? {
      ReplaceOne(s, ReleaseStep(s, id, k).value.state, id, CloseReservation(s.reservations[id], k).value);
    }
  }

  lemma {:induction false} TradeKeeps(s: State, p: nat, t: TradeFact, time: int, e: Effect)
    requires WellHeld(s) && TradeStep(s, p, t, time) == Ok(e) && CanonicalFill(t, p)
    ensures WellHeld(e.state) && Keeps(s, e.state)
  {
    TradeFrame(s, p, t, time);
    if e.status == Applied { FillShape(s, p, t, time, e); }
    if e.status == Applied && t.side == Buy { FillKeeps(s, e.state, t); } else { SameHolds(s, e.state); }
  }

  lemma {:induction false} TransitionKeeps(u: Setup, s: State, b: Body, e: Effect)
    requires WellHeld(s) && Transition(u, s, b) == Ok(e)
    requires b.payload.Trade? ==> CanonicalFill(b.payload.fill, u.config.precision)
    ensures WellHeld(e.state) && Keeps(s, e.state)
  {
    match b.payload
    case Reserve(h) => ReserveKeeps(s, u.config.precision, h);
    case Stage(id, k) => StageKeeps(s, id, k);
    case Release(id, k) => ReleaseKeeps(s, id, k);
    case Trade(t) => TradeKeeps(s, u.config.precision, t, b.time, e);
    case _ =>
      TransitionFrame(u, s, b);
      SameHolds(s, e.state);
  }

  lemma {:induction false} FillKeeps(s: State, n: State, t: TradeFact)
    requires WellHeld(s) && HoldMoves(s.reservations, n.reservations, t)
    requires t.notional.coef >= 0 && t.charges.coef >= 0
    ensures WellHeld(n) && Keeps(s, n)
  {
    var r, debit := s.reservations[t.reservation.value], t.notional.coef + t.charges.coef;
    assert WellFormed(r);
    ReplaceOne(s, n, t.reservation.value, ConsumeReservation(r, debit, t.terminalFill));
  }

  lemma {:induction false} CommitKeeps(u: Setup, s: State, c: Command, e: Effect)
    requires WellHeld(s) && Commits(u, s, c, e)
    ensures WellHeld(Record(c, e)) && Keeps(s, Record(c, e))
  {
    if !Known(s, c.body) {
      if c.body.payload.Trade? { CommandFill(c, u.config.precision); }
      TransitionKeeps(u, s, c.body, e);
    }
    SameHolds(e.state, Record(c, e));
  }

  lemma {:induction false} AdvanceKeeps(u: Setup, r: Run, input: Command)
    requires WellHeld(r.ledger.state)
    ensures WellHeld(Advance(u, r, input).ledger.state)
    ensures Keeps(r.ledger.state, Advance(u, r, input).ledger.state)
  {
    var c, e := AdvanceShape(u, r, input);
    if Advance(u, r, input) != r {
      GrowthCommits(u, r.ledger, c, e);
      CommitKeeps(u, r.ledger.state, c, e);
    }
  }

  /** Every reachable account: conservation and meaning of each hold, and one order per hold. */
  lemma {:induction false} EveryRunWellHeld(u: Setup, inputs: seq<Command>)
    ensures WellHeld(Execute(u, inputs).ledger.state)
  {
    if inputs != [] {
      var n := |inputs| - 1;
      EveryRunWellHeld(u, inputs[..n]);
      AdvanceKeeps(u, Execute(u, inputs[..n]), inputs[n]);
    }
  }

  /** Whatever follows, holds persist and terminal ones never change again. */
  lemma {:induction false} TerminalForever(u: Setup, inputs: seq<Command>, more: seq<Command>)
    ensures Keeps(Execute(u, inputs).ledger.state, Execute(u, inputs + more).ledger.state)
    decreases |more|
  {
    if more == [] {
      assert inputs + more == inputs;
    } else {
      var n := |more| - 1;
      var front := inputs + more[..n];
      TerminalForever(u, inputs, more[..n]);
      EveryRunWellHeld(u, front);
      AdvanceKeeps(u, Execute(u, front), more[n]);
      assert inputs + more == front + [more[n]];
      ExecuteOne(u, front, more[n]);
      KeepsTransitive(Execute(u, inputs).ledger.state, Execute(u, front).ledger.state,
                      Execute(u, inputs + more).ledger.state);
    }
  }

  lemma {:induction false} KeepsTransitive(s: State, t: State, v: State)
    requires Keeps(s, t) && Keeps(t, v)
    ensures Keeps(s, v)
  {
  }
}
