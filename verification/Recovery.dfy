/** Recovery from a checkpoint: cold replay, exact extension, and why both give the account back. */
module Recovery {
  import opened Core
  import opened Model
  import opened Codec
  import opened Transitions
  import opened Runs
  import opened Books

  // ----- specification -----

  /** Each replayed command must append exactly one journal entry. */
  ghost function ReplayOne(u: Setup, m: Ledger, c: Command): Result<Ledger, Error> {
    var reply :- Step(u, m, c);
    if |reply.ledger.journal| != |m.journal| + 1 then Err(ReplayReceipt) else Ok(reply.ledger)
  }

  ghost function Replayer(u: Setup): (Ledger, Command) -> Result<Ledger, Error> { (m, c) => ReplayOne(u, m, c) }

  ghost function Replay(u: Setup, m: Ledger, commands: seq<Command>): Result<Ledger, Error> {
    Fold(Replayer(u), m, commands)
  }

  /** A record whose digest, format, configuration and dictionary check out. A digest is its content. */
  ghost predicate Admissible(u: Setup, cp: Checkpoint, expected: Checkpoint) {
    && cp == expected
    && (u.version == 4 || u.version == 5)
    && (u.version == 4 <==> cp.Checkpoint4?)
    && cp.config == u.config
    && (cp.Checkpoint5? ==> DictionaryOk(u, cp.entries, cp.positions, cp.state))
  }

  /** The full commands that a record stands for. */
  ghost function Content(cp: Checkpoint): seq<Command>
    requires cp.Checkpoint5? ==> AllResolvable(cp.entries, cp.positions)
  {
    match cp
    case Checkpoint4(_, journal, _) => journal
    case Checkpoint5(_, entries, positions, _) => Hydrate(entries, positions)
  }

  /** The comparison that cold recovery makes with the record. */
  ghost predicate Agrees(u: Setup, m: Ledger, cp: Checkpoint) {
    && m.state == cp.state
    && (cp.Checkpoint4? ==> m.journal == cp.journal)
    && (cp.Checkpoint5? ==> CheckpointOf(u, m) == Ok(cp))
  }

  /** Replay on a new account, kept if it agrees with the record. */
  ghost function Rebuilt(u: Setup, cp: Checkpoint, commands: seq<Command>): Option<Ledger> {
    var r := Replay(u, Init(u), commands);
    if r.Ok? && Agrees(u, r.value, cp) then Some(r.value) else None
  }

  /** Replay from here, kept if it ends in this very record. */
  ghost function Continued(u: Setup, m: Ledger, cp: Checkpoint, commands: seq<Command>): Option<Ledger> {
    var r := Replay(u, m, commands);
    if r.Ok? && CheckpointOf(u, r.value) == Ok(cp) then Some(r.value) else None
  }

  /** Cold recovery: replay everything on a new account and compare. */
  ghost function Restored(u: Setup, cp: Checkpoint, expected: Checkpoint): Option<Ledger> {
    if !Admissible(u, cp, expected) then None else Rebuilt(u, cp, Content(cp))
  }

  /** A valid record that strictly extends the journal. */
  ghost predicate Extends(u: Setup, m: Ledger, cp: Checkpoint, expected: Checkpoint) {
    && Admissible(u, cp, expected) && |Content(cp)| > |m.journal| && Content(cp)[..|m.journal|] == m.journal
  }

  /** Exact extension: only a strictly longer record of this very journal, replayed from here. */
  ghost function Extended(u: Setup, m: Ledger, cp: Checkpoint, expected: Checkpoint): Option<Ledger> {
    if !Extends(u, m, cp, expected) then None else Continued(u, m, cp, Content(cp)[|m.journal|..])
  }

  // ----- replay -----

  lemma {:induction false} GrowthReplays(u: Setup, m: Ledger, c: Command, e: Effect)
    requires Grows(u, m, c, e)
    ensures ReplayOne(u, m, c) == Ok(Next(m, c, e))
  {
    GrowingStep(u, m, c, e);
  }

  lemma {:induction false} GrowthAdvances(u: Setup, r: Run, c: Command, e: Effect)
    requires Grows(u, r.ledger, c, e)
    ensures Advance(u, r, c) == NextRun(r, c, e)
  {
    GrowingStep(u, r.ledger, c, e);
  }

  /** Replaying the journal of any reachable account rebuilds it: every command appends one entry and gets the status
      it had. */
  lemma {:induction false} ReplayRebuilds(u: Setup, inputs: seq<Command>)
    ensures Replay(u, Init(u), Execute(u, inputs).ledger.journal) == Ok(Execute(u, inputs).ledger)
    ensures Execute(u, Execute(u, inputs).ledger.journal) == Execute(u, inputs)
  {
    if inputs != [] {
      var n := |inputs| - 1;
      var r := Execute(u, inputs[..n]);
      ReplayRebuilds(u, inputs[..n]);
      var c, e := AdvanceShape(u, r, inputs[n]);
      if Advance(u, r, inputs[n]) != r {
        GrowthReplays(u, r.ledger, c, e);
        FoldAppend(Replayer(u), Init(u), r.ledger.journal, c);
        GrowthAdvances(u, r, c, e);
        ExecuteOne(u, r.ledger.journal, c);
      }
    }
  }

  // ----- round trip -----

  lemma {:induction false} OwnRecordAdmissible(u: Setup, m: Ledger, cp: Checkpoint)
    requires CheckpointOf(u, m) == Ok(cp)
    ensures Admissible(u, cp, cp) && Content(cp) == m.journal && cp.state == m.state
    ensures cp.Checkpoint4? ==> cp.journal == m.journal
  {
    if u.version == 5 { CompressLossless(m.journal); }
  }

  /** Restoring a reachable account's own checkpoint gives exactly that account. */
  lemma {:induction false} RoundTrip(u: Setup, inputs: seq<Command>, cp: Checkpoint)
    requires CheckpointOf(u, Execute(u, inputs).ledger) == Ok(cp)
    ensures Restored(u, cp, cp) == Some(Execute(u, inputs).ledger)
  {
    OwnRecordAdmissible(u, Execute(u, inputs).ledger, cp);
    ReplayRebuilds(u, inputs);
  }

  // ----- the fast path refines the cold one -----

  lemma {:induction false} SameVerdictOnRecord(u: Setup, m: Ledger, cp: Checkpoint)
    requires Admissible(u, cp, cp)
    ensures CheckpointOf(u, m) == Ok(cp) <==> Agrees(u, m, cp)
  {
  }

  lemma {:induction false} ExtensionIsCold(u: Setup, m: Ledger, cp: Checkpoint)
    requires Admissible(u, cp, cp) && m.journal < Content(cp)
    requires Replay(u, Init(u), m.journal) == Ok(m)
    ensures Extended(u, m, cp, cp) == Restored(u, cp, cp)
  {
    FoldFrom(Replayer(u), Init(u), m, m.journal, Content(cp));
    var r := Replay(u, m, Content(cp)[|m.journal|..]);
    if r.Ok? { SameVerdictOnRecord(u, r.value, cp); }
  }

  /** For a reachable account, exact extension succeeds exactly when the record strictly extends its journal and cold
      recovery succeeds, and then both give the same account. */
  lemma {:induction false} ExtensionRefinesCold(u: Setup, inputs: seq<Command>, cp: Checkpoint, expected: Checkpoint)
    ensures Extended(u, Execute(u, inputs).ledger, cp, expected)
         == if Admissible(u, cp, expected) && Execute(u, inputs).ledger.journal < Content(cp)
            then Restored(u, cp, expected) else None
  {
    var m := Execute(u, inputs).ledger;
    if Admissible(u, cp, expected) {
      var journal, n := Content(cp), |m.journal|;
      if m.journal < journal {
        ReplayRebuilds(u, inputs);
        ExtensionIsCold(u, m, cp);
      } else {
        assert |journal| <= n || journal[..n] != m.journal;
      }
    }
  }

  // ----- exactly the records of runs -----

  lemma {:induction false} ReplayedStep(u: Setup, r: Run, c: Command, m: Ledger)
    requires ReplayOne(u, r.ledger, c) == Ok(m)
    ensures Advance(u, r, c).ledger == m
  {
    AdvanceLedger(u, r, c);
  }

  /** A replay that succeeds is a run. */
  lemma {:induction false} ReplayRuns(u: Setup, commands: seq<Command>)
    ensures Replay(u, Init(u), commands).Ok? ==>
              Execute(u, commands).ledger == Replay(u, Init(u), commands).value
  {
    var holds := (part: seq<Command>) =>
      Replay(u, Init(u), part).Ok? ==> Execute(u, part).ledger == Replay(u, Init(u), part).value;
    forall part, c | holds(part) ensures holds(part + [c]) {
      FoldAppend(Replayer(u), Init(u), part, c);
      if Replay(u, Init(u), part + [c]).Ok? {
        ReplayedStep(u, Execute(u, part), c, Replay(u, Init(u), part + [c]).value);
        ExecuteOne(u, part, c);
      }
    }
    Along(holds, commands);
  }

  /** The account after some run whose record is `cp`. */
  ghost predicate RecordOf(u: Setup, m: Ledger, cp: Checkpoint) {
    CheckpointOf(u, m) == Ok(cp) && exists inputs :: Execute(u, inputs).ledger == m
  }

  lemma {:induction false} RestoredIsRecorded(u: Setup, cp: Checkpoint, expected: Checkpoint, m: Ledger)
    requires Restored(u, cp, expected) == Some(m)
    ensures cp == expected && RecordOf(u, m, cp)
  {
    ReplayRuns(u, Content(cp));
    SameVerdictOnRecord(u, m, cp);
    assert Execute(u, Content(cp)).ledger == m;
  }

  lemma {:induction false} RecordedIsRestored(u: Setup, cp: Checkpoint, m: Ledger)
    requires RecordOf(u, m, cp)
    ensures Restored(u, cp, cp) == Some(m)
  {
    var inputs :| Execute(u, inputs).ledger == m;
    RoundTrip(u, inputs, cp);
  }

  /** Cold recovery adopts an account exactly when the record is the expected one and is the record of that account
      after some run; everything else is refused. */
  lemma {:induction false} RestoredExactly(u: Setup, cp: Checkpoint, expected: Checkpoint, m: Ledger)
    ensures Restored(u, cp, expected) == Some(m) <==> cp == expected && RecordOf(u, m, cp)
  {
    if Restored(u, cp, expected) == Some(m) { RestoredIsRecorded(u, cp, expected, m); }
    if cp == expected && RecordOf(u, m, cp) { RecordedIsRestored(u, cp, m); }
  }

  /** Exact extension adopts an account exactly when, besides, its journal strictly continues this one. */
  lemma {:induction false} ExtendedExactly(
    u: Setup, inputs: seq<Command>, cp: Checkpoint, expected: Checkpoint, m: Ledger)
    ensures Extended(u, Execute(u, inputs).ledger, cp, expected) == Some(m)
            <==> cp == expected && RecordOf(u, m, cp) && Execute(u, inputs).ledger.journal < m.journal
  {
    ExtensionRefinesCold(u, inputs, cp, expected);
    RestoredExactly(u, cp, expected, m);
    if CheckpointOf(u, m) == Ok(cp) { OwnRecordAdmissible(u, m, cp); }
  }

  // ----- exact sizes over every run -----

  /** The incremental byte count is the exact size of the journal, and the dictionary format never exceeds its bound. */
  ghost predicate Sized(u: Setup, m: Ledger) {
    && m.journalBytes == JournalSize(m.journal)
    && (u.version == 5 && m.journal != [] ==> |Encode(FullRecord(u, m.journal, m.state))| <= MAX_CHECKPOINT)
  }

  lemma {:induction false} GrowthSized(u: Setup, m: Ledger, c: Command, e: Effect)
    requires Sized(u, m) && Grows(u, m, c, e)
    ensures Sized(u, Next(m, c, e))
  {
    JournalSizeAppend(m.journal, c);
    FullRecordSize(u, m.journal + [c], Record(c, e));
  }

  lemma {:induction false} AdvanceSized(u: Setup, r: Run, input: Command)
    requires Sized(u, r.ledger)
    ensures Sized(u, Advance(u, r, input).ledger)
  {
    var c, e := AdvanceShape(u, r, input);
    if Advance(u, r, input) != r { GrowthSized(u, r.ledger, c, e); }
  }

  lemma {:induction false} EveryRunSized(u: Setup, inputs: seq<Command>)
    ensures Sized(u, Execute(u, inputs).ledger)
  {
    if inputs != [] {
      var n := |inputs| - 1;
      EveryRunSized(u, inputs[..n]);
      AdvanceSized(u, Execute(u, inputs[..n]), inputs[n]);
    }
  }

  // ----- when a dictionary checkpoint exists -----

  /** The position producer's contract: evidence is the canonical digest of the position body. */
  ghost predicate ValueSound(u: Setup) {
    forall position, i :: u.value(position, i).Ok? ==> Vouched(u, Valuation(position, i))
  }

  ghost predicate AllVouched(u: Setup, m: Ledger) {
    && (forall k :: 0 <= k < |m.journal| ==> Vouched(u, m.journal[k].body.payload))
    && (forall a :: a in m.state.semantic ==> Vouched(u, m.state.semantic[a].payload))
  }

  lemma {:induction false} CommitVouched(u: Setup, s: State, c: Command, e: Effect)
    requires ValueSound(u) && Commits(u, s, c, e)
    requires forall a :: a in s.semantic ==> Vouched(u, s.semantic[a].payload)
    ensures Vouched(u, c.body.payload)
    ensures forall a :: a in Record(c, e).semantic ==> Vouched(u, Record(c, e).semantic[a].payload)
  {
    RecordBooks(u, s, c, e);
    if Known(s, c.body) {
      var a :| a in Aliases(c.body.payload) && a in s.semantic;
      assert s.semantic[a] == c.body;
    } else if c.body.payload.Valuation? {
      assert u.value(c.body.payload.position, c.body.payload.intent).Ok?;
    }
  }

  lemma {:induction false} AdvanceVouched(u: Setup, r: Run, input: Command)
    requires ValueSound(u) && AllVouched(u, r.ledger)
    ensures AllVouched(u, Advance(u, r, input).ledger)
  {
    var c, e := AdvanceShape(u, r, input);
    if Advance(u, r, input) != r {
      GrowthCommits(u, r.ledger, c, e);
      CommitVouched(u, r.ledger.state, c, e);
    }
  }

  lemma {:induction false} EveryRunVouched(u: Setup, inputs: seq<Command>)
    requires ValueSound(u)
    ensures AllVouched(u, Execute(u, inputs).ledger)
  {
    if inputs != [] {
      var n := |inputs| - 1;
      EveryRunVouched(u, inputs[..n]);
      AdvanceVouched(u, Execute(u, inputs[..n]), inputs[n]);
    }
  }

  /** With a sound position producer, a reachable account in the dictionary format has a checkpoint exactly when no
      two of its position bodies share a digest. */
  lemma {:induction false} CheckpointExists(u: Setup, inputs: seq<Command>)
    requires u.version == 5 && ValueSound(u) && |Encode(FullRecord(u, [], Init(u).state))| <= MAX_CHECKPOINT
    ensures CheckpointOf(u, Execute(u, inputs).ledger).Ok? <==> NoCollision(Execute(u, inputs).ledger.journal)
  {
    var m := Execute(u, inputs).ledger;
    EveryRunVouched(u, inputs);
    EveryRunSized(u, inputs);
    EmptyJournalIsInit(u, inputs);
    assert Evidenced(u, m.journal) by {
      forall k | 0 <= k < |m.journal| && m.journal[k].body.payload.Valuation?
        ensures Vouched(u, m.journal[k].body.payload)
      {
      }
    }
    CompressSucceeds(u, m.journal);
    if Compress(m.journal).Ok? { CompressLossless(m.journal); }
  }

  lemma {:induction false} EmptyJournalIsInit(u: Setup, inputs: seq<Command>)
    ensures Execute(u, inputs).ledger.journal == [] ==> Execute(u, inputs).ledger == Init(u)
  {
    ReplayRebuilds(u, inputs);
  }
}
