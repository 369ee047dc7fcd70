/** The weighted check of a dictionary checkpoint, as the loops that compute it. */
module Dictionaries {
  import opened Core
  import opened Model
  import opened Codec

  lemma {:induction false} CompressFails(journal: seq<Command>, n: nat)
    requires n <= |journal| && Compress(journal[..n]).Err?
    ensures Compress(journal) == Compress(journal[..n])
    decreases |journal|
  {
    if n == |journal| {
      assert journal[..n] == journal;
    } else {
      var front := journal[..|journal| - 1];
      assert front[..n] == journal[..n];
      CompressFails(front, n);
    }
  }

  method EncodeOne(d: Dictionary, c: Command) returns (r: Result<Dictionary, Error>)
    ensures r == CompressOne(d, c)
  {
    match c.body.payload {
      case Valuation(position, intent) =>
        var reference := intent.positionEvidence;
        if !Fingerprint(reference) { return Err(FingerprintInvalid); }
        var positions := d.positions;
        if reference in positions {
          if positions[reference] != position { return Err(PositionConflict); }
        } else {
          positions := positions[reference := position];
        }
        assert positions == d.positions[reference := position];
        var entry := Compact(c.id, c.body.owner, c.body.cause, c.body.time, intent, reference);
        return Ok(Dictionary(d.entries + [entry], positions));
      case _ => return Ok(d.(entries := d.entries + [Plain(c)]));
    }
  }

  /** `sizes` holds the exact encoded length of every position. */
  ghost predicate Sized(positions: map<Id, Json>, sizes: map<Id, nat>) {
    sizes.Keys == positions.Keys && forall r :: r in positions ==> sizes[r] == |Encode(positions[r])|
  }

  method MeasurePositions(u: Setup, positions: map<Id, Json>) returns (ok: bool, sizes: map<Id, nat>)
    ensures ok <==> DigestsMatch(u, positions)
    ensures ok ==> Sized(positions, sizes)
  {
    var rest := positions.Keys;
    sizes := map[];
    while rest != {}
      invariant rest <= positions.Keys && sizes.Keys == positions.Keys - rest
      invariant forall r :: r in sizes ==>
                  sizes[r] == |Encode(positions[r])| && Fingerprint(r) && u.digest(positions[r]) == r
      decreases |rest|
    {
      var r :| r in rest;
      if !Fingerprint(r) || u.digest(positions[r]) != r { return false, map[]; }
      sizes := sizes[r := |Encode(positions[r])|];
      rest := rest - {r};
    }
    return true, sizes;
  }

  lemma {:induction false} WeightedSize(e: Encoded, positions: map<Id, Json>)
    requires Resolvable(e, positions)
    ensures e.Plain? ==> |Encode(EncodedJson(e))| == |Encode(CommandJson(HydrateOne(e, positions)))|
    ensures e.Compact? ==>
              |Encode(EncodedJson(e))| - (4 + |e.positionRef| + 2) + |Encode(positions[e.positionRef])|
              == |Encode(CommandJson(HydrateOne(e, positions)))|
  {
    match e
    case Plain(c) =>
    case Compact(id, owner, cause, time, i, r) => CompactSize(id, owner, cause, time, i, positions[r], r);
  }

  /** The pass has measured the first `i` entries. */
  ghost predicate Pass(entries: seq<Encoded>, positions: map<Id, Json>, i: nat, expanded: nat, used: set<Id>) {
    && i <= |entries| && AllResolvable(entries[..i], positions)
    && expanded == JournalSize(Hydrate(entries[..i], positions))
    && used == Referenced(entries[..i])
  }

  function Uses(e: Encoded): set<Id> { if e.Compact? then {e.positionRef} else {} }

  lemma {:induction false} MeasureOne(
    entries: seq<Encoded>, positions: map<Id, Json>, i: nat, expanded: nat, used: set<Id>, size: nat)
    requires i < |entries| && Pass(entries, positions, i, expanded, used) && Resolvable(entries[i], positions)
    requires size == |Encode(CommandJson(HydrateOne(entries[i], positions)))|
    ensures Pass(entries, positions, i + 1, expanded + size + (if i == 0 then 0 else 1), used + Uses(entries[i]))
  {
    var front := entries[..i];
    MeasureAppend(front, entries[i], positions);
    NextFront(entries, i);
  }

  lemma {:induction false} NextFront(entries: seq<Encoded>, i: nat)
    requires i < |entries|
    ensures entries[..i + 1] == entries[..i] + [entries[i]]
  {
  }

  lemma {:induction false} MeasureAppend(entries: seq<Encoded>, e: Encoded, positions: map<Id, Json>)
    requires AllResolvable(entries, positions) && Resolvable(e, positions)
    ensures AllResolvable(entries + [e], positions) && Referenced(entries + [e]) == Referenced(entries) + Uses(e)
    ensures JournalSize(Hydrate(entries + [e], positions))
            == JournalSize(Hydrate(entries, positions)) + |Encode(CommandJson(HydrateOne(e, positions)))|
               + (if entries == [] then 0 else 1)
  {
    HydrateSplit(entries, e, positions);
    JournalSizeAppend(Hydrate(entries, positions), HydrateOne(e, positions));
    ReferencedAppend(entries, e);
  }

  lemma {:induction false} PassStarts(entries: seq<Encoded>, positions: map<Id, Json>)
    ensures Pass(entries, positions, 0, 0, {})
  {
  }

  lemma {:induction false} MeasuredAll(entries: seq<Encoded>, positions: map<Id, Json>, expanded: nat, used: set<Id>)
    requires Pass(entries, positions, |entries|, expanded, used)
    ensures AllResolvable(entries, positions)
    ensures expanded == JournalSize(Hydrate(entries, positions)) && used == Referenced(entries)
  {
    assert entries[..|entries|] == entries;
  }

  /** The size of the full command that an entry stands for, without building it. */
  method EntrySize(e: Encoded, positions: map<Id, Json>, sizes: map<Id, nat>) returns (size: nat)
    requires Resolvable(e, positions)
    requires Sized(positions, sizes)
    ensures size == |Encode(CommandJson(HydrateOne(e, positions)))|
  {
    WeightedSize(e, positions);
    var written: int := |Encode(EncodedJson(e))|;
    if e.Compact? {
      written := written - (4 + |e.positionRef| + 2) + sizes[e.positionRef];
    }
    size := written;
  }

  method MeasureEntry(
    entries: seq<Encoded>, positions: map<Id, Json>, sizes: map<Id, nat>, i: nat, expanded: nat, used: set<Id>)
    returns (size: nat)
    requires i < |entries| && Sized(positions, sizes) && Resolvable(entries[i], positions)
    requires Pass(entries, positions, i, expanded, used)
    ensures Pass(entries, positions, i + 1, expanded + size + (if i == 0 then 0 else 1), used + Uses(entries[i]))
  {
    size := EntrySize(entries[i], positions, sizes);
    MeasureOne(entries, positions, i, expanded, used, size);
  }

  /** The weighted pass over the journal: what it adds up is the exact size of the hydrated journal. */
  method MeasureJournal(entries: seq<Encoded>, positions: map<Id, Json>, sizes: map<Id, nat>)
    returns (ok: bool, expanded: nat, used: set<Id>)
    requires Sized(positions, sizes)
    ensures ok <==> AllResolvable(entries, positions)
    ensures ok ==> expanded == JournalSize(Hydrate(entries, positions)) && used == Referenced(entries)
  {
    expanded, used := 0, {};
    PassStarts(entries, positions);
    for i := 0 to |entries|
      invariant Pass(entries, positions, i, expanded, used)
    {
      if !Resolvable(entries[i], positions) { return false, 0, {}; }
      var size := MeasureEntry(entries, positions, sizes, i, expanded, used);
      expanded := expanded + size + (if i == 0 then 0 else 1);
      used := used + Uses(entries[i]);
    }
    MeasuredAll(entries, positions, expanded, used);
    return true, expanded, used;
  }

  /** Accepts exactly the dictionaries that stand for a full record within the checkpoint bound. */
  method ValidateDictionary(u: Setup, entries: seq<Encoded>, positions: map<Id, Json>, state: State)
    returns (r: Option<Error>)
    ensures r == None <==> DictionaryOk(u, entries, positions, state)
    ensures r != None && AllResolvable(entries, positions) && Referenced(entries) == positions.Keys ==>
              r == Some(if DigestsMatch(u, positions) then CheckpointBound else PositionDigest)
  {
    var digests, sizes := MeasurePositions(u, positions);
    if !digests { return Some(PositionDigest); }
    var resolvable, expanded, used := MeasureJournal(entries, positions, sizes);
    if !resolvable { return Some(PositionReference); }
    ReferencedResolves(entries, positions);
    if |used| != |positions| { return Some(UnusedPosition); }
    assert |positions.Keys| == |positions|;
    Subsets(used, positions.Keys);
    FullRecordSize(u, Hydrate(entries, positions), state);
    if !ExpandedSizeFits(u, state, expanded) { return Some(CheckpointBound); }
    return None;
  }

  lemma {:induction false} ReferencedResolves(entries: seq<Encoded>, positions: map<Id, Json>)
    requires AllResolvable(entries, positions)
    ensures Referenced(entries) <= positions.Keys
  {
    forall r | r in Referenced(entries) ensures r in positions {
      var k := ReferencedBy(entries, r);
      assert Resolvable(entries[k], positions);
    }
  }
}
