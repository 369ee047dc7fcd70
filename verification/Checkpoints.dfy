/** Exactly when an account has a checkpoint, and what it then holds. */
module Checkpoints {
  import opened Core
  import opened Model
  import opened Codec

  /** Bodies by their evidence, as the journal has them. */
  ghost predicate Bodies(journal: seq<Command>, positions: map<Id, Json>) {
    && (forall k | 0 <= k < |journal| && journal[k].body.payload.Valuation? ::
          var q := journal[k].body.payload;
          q.intent.positionEvidence in positions && positions[q.intent.positionEvidence] == q.position)
    && (forall r | r in positions :: exists k :: 0 <= k < |journal| && Refers(journal[k], r))
  }

  lemma {:induction false} CompressedBodies(d: Dictionary, journal: seq<Command>)
    requires StandsFor(d, journal)
    ensures Bodies(journal, d.positions)
  {
    forall k | 0 <= k < |journal| && journal[k].body.payload.Valuation?
      ensures var q := journal[k].body.payload;
              q.intent.positionEvidence in d.positions && d.positions[q.intent.positionEvidence] == q.position
    {
      StoredBodies(d, journal, journal[k].body.payload.intent.positionEvidence);
      assert Refers(journal[k], journal[k].body.payload.intent.positionEvidence);
    }
    forall r | r in d.positions ensures exists k :: 0 <= k < |journal| && Refers(journal[k], r) {
      StoredBodies(d, journal, r);
    }
  }

  lemma {:induction false} MatchedEvidence(u: Setup, journal: seq<Command>, positions: map<Id, Json>)
    requires Bodies(journal, positions) && DigestsMatch(u, positions)
    ensures Evidenced(u, journal)
  {
  }

  /** A dictionary checkpoint exists exactly when the evidence of every valuation is the digest of its body, no two
      different bodies share one, and the full record is within sixteen megabytes. */
  lemma {:induction false} DictionaryExactly(u: Setup, m: Ledger)
    requires u.version == 5
    ensures CheckpointOf(u, m).Ok? <==>
              && (forall k | 0 <= k < |m.journal| && m.journal[k].body.payload.Valuation? ::
                    var q := m.journal[k].body.payload;
                    Fingerprint(q.intent.positionEvidence) && u.digest(q.position) == q.intent.positionEvidence)
              && NoCollision(m.journal)
              && |Encode(FullRecord(u, m.journal, m.state))| <= 16777216
    ensures CheckpointOf(u, m).Ok? ==>
              var cp := CheckpointOf(u, m).value;
              && cp.Checkpoint5? && cp.config == u.config && cp.state == m.state
              && AllResolvable(cp.entries, cp.positions) && Hydrate(cp.entries, cp.positions) == m.journal
              && Bodies(m.journal, cp.positions)
  {
    if Compress(m.journal).Ok? {
      CompressLossless(m.journal);
      var d := Compress(m.journal).value;
      CompressedBodies(d, m.journal);
      if DigestsMatch(u, d.positions) { MatchedEvidence(u, m.journal, d.positions); }
    }
    if Evidenced(u, m.journal) { CompressSucceeds(u, m.journal); }
    EvidencedMeans(u, m.journal);
  }

  lemma {:induction false} EvidencedMeans(u: Setup, journal: seq<Command>)
    ensures Evidenced(u, journal) <==>
              forall k | 0 <= k < |journal| && journal[k].body.payload.Valuation? ::
                var q := journal[k].body.payload;
                Fingerprint(q.intent.positionEvidence) && u.digest(q.position) == q.intent.positionEvidence
  {
    if Evidenced(u, journal) {
      forall k | 0 <= k < |journal| && journal[k].body.payload.Valuation?
        ensures Vouched(u, journal[k].body.payload)
      {
      }
    }
  }
}
