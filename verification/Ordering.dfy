/** Listing definitions so that each comes after the definitions it mentions. */
module Ordering {
  import opened Core
  import opened Walks

  /** Definitions in the order in which the document holds them. */
  type Entry = (string, Json)

  function LastSegment(path: string): string {
    if path == "" then ""
    else if path[|path| - 1] == '/' then "" else LastSegment(path[..|path| - 1]) + [path[|path| - 1]]
  }

  /** The names at the end of every reference anywhere in a schema. */
  function Mentions(v: Json): set<string> {
    match v
    case Arr(items) => set i, t | 0 <= i < |items| && t in Mentions(items[i]) :: t
    case Obj(fields) =>
      (set i | 0 <= i < |fields| && fields[i].0 == "$ref" && fields[i].1.Str? :: LastSegment(fields[i].1.text))
      + (set i, t | 0 <= i < |fields| && t in Mentions(fields[i].1) :: t)
    case _ => {}
  }

  function Names(entries: seq<Entry>): set<string> { set i | 0 <= i < |entries| :: entries[i].0 }

  predicate Distinct(entries: seq<Entry>) {
    forall i, j :: 0 <= i < j < |entries| ==> entries[i].0 != entries[j].0
  }

  predicate Free(e: Entry, names: set<string>) { Mentions(e.1) !! names }

  /** The entries that are free of the given names, or those that are not, in order. */
  function Sift(entries: seq<Entry>, names: set<string>, free: bool): seq<Entry> {
    if entries == [] then []
    else (if Free(entries[0], names) == free then [entries[0]] else []) + Sift(entries[1..], names, free)
  }

  lemma {:induction false} SiftParts(entries: seq<Entry>, names: set<string>)
    ensures multiset(Sift(entries, names, true)) + multiset(Sift(entries, names, false)) == multiset(entries)
  {
    if entries != [] {
      SiftParts(entries[1..], names);
      assert entries == [entries[0]] + entries[1..];
    }
  }

  lemma {:induction false} SiftSays(entries: seq<Entry>, names: set<string>, free: bool, i: nat)
    requires i < |Sift(entries, names, free)|
    ensures Sift(entries, names, free)[i] in entries && Free(Sift(entries, names, free)[i], names) == free
  {
    var rest := Sift(entries[1..], names, free);
    if Free(entries[0], names) == free {
      if i > 0 { SiftSays(entries[1..], names, free, i - 1); }
    } else {
      SiftSays(entries[1..], names, free, i);
    }
  }

  // ----- what a listing is -----

  /** Every entry mentions only earlier names among those given. */
  ghost predicate After(listing: seq<Entry>, names: set<string>) {
    forall i :: 0 <= i < |listing| ==> Mentions(listing[i].1) * names <= Names(listing[..i])
  }

  lemma {:induction false} NamesOf(entries: seq<Entry>, name: string)
    ensures name in Names(entries) <==> exists e :: e in multiset(entries) && e.0 == name
  {
    if name in Names(entries) {
      var i :| 0 <= i < |entries| && entries[i].0 == name;
      assert entries[i] in multiset(entries);
    }
  }

  lemma {:induction false} SameNames(a: seq<Entry>, b: seq<Entry>)
    requires multiset(a) == multiset(b)
    ensures Names(a) == Names(b)
  {
    forall name ensures name in Names(a) <==> name in Names(b) { NamesOf(a, name); NamesOf(b, name); }
  }

  lemma {:induction false} NamesAppend(a: seq<Entry>, b: seq<Entry>)
    ensures Names(a + b) == Names(a) + Names(b)
  {
    forall name ensures name in Names(a + b) <==> name in Names(a) + Names(b) {
      NamesOf(a + b, name);
      NamesOf(a, name);
      NamesOf(b, name);
    }
  }

  lemma {:induction false} AfterAppend(listing: seq<Entry>, more: seq<Entry>, names: set<string>)
    requires After(listing, names)
    requires forall i :: 0 <= i < |more| ==> Mentions(more[i].1) * names <= Names(listing)
    ensures After(listing + more, names)
  {
    var all := listing + more;
    forall i | 0 <= i < |all| ensures Mentions(all[i].1) * names <= Names(all[..i]) {
      if i < |listing| {
        assert all[..i] == listing[..i];
      } else {
        assert all[..i] == listing + more[..i - |listing|];
        NamesAppend(listing, more[..i - |listing|]);
      }
    }
  }

  /** Lists the free definitions round by round. */
  method Definitions(entries: seq<Entry>) returns (r: Option<seq<Entry>>)
    requires Distinct(entries)
    ensures r.Some? ==> multiset(r.value) == multiset(entries) && After(r.value, Names(entries))
    ensures r.None? <==> exists path :: Cycle(entries, path)
  {
    var listing, pending := [], entries;
    while pending != []
      invariant multiset(listing) + multiset(pending) == multiset(entries)
      invariant After(listing, Names(entries))
      decreases |pending|
    {
      var names := Names(pending);
      var ready, rest := Sift(pending, names, true), Sift(pending, names, false);
      Round(entries, listing, pending);
      if ready == [] {
        ghost var path := StuckCycle(entries, pending);
        return None;
      }
      listing, pending := listing + ready, rest;
    }
    NoCycle(entries, listing);
    return Some(listing);
  }

  /** Entries each of which mentions another of them. */
  ghost predicate Stuck(entries: seq<Entry>, stuck: seq<Entry>) {
    && stuck != [] && (forall e :: e in stuck ==> e in entries)
    && (forall e :: e in stuck ==> Mentions(e.1) * Names(stuck) != {})
  }

  lemma {:induction false} Round(entries: seq<Entry>, listing: seq<Entry>, pending: seq<Entry>)
    requires multiset(listing) + multiset(pending) == multiset(entries) && pending != []
    requires After(listing, Names(entries))
    ensures var ready, rest := Sift(pending, Names(pending), true), Sift(pending, Names(pending), false);
            && multiset(listing + ready) + multiset(rest) == multiset(entries)
            && After(listing + ready, Names(entries))
            && (ready == [] ==> Stuck(entries, pending))
            && (ready != [] ==> |rest| < |pending|)
  {
    var ready, rest := Sift(pending, Names(pending), true), Sift(pending, Names(pending), false);
    SiftParts(pending, Names(pending));
    assert multiset(listing + ready) + multiset(rest) == multiset(listing) + multiset(pending);
    assert |multiset(pending)| == |pending| && |multiset(ready)| == |ready| && |multiset(rest)| == |rest|;
    assert multiset(listing + pending) == multiset(entries);
    SameNames(listing + pending, entries);
    NamesAppend(listing, pending);
    forall i | 0 <= i < |ready| ensures Mentions(ready[i].1) * Names(entries) <= Names(listing) {
      SiftSays(pending, Names(pending), true, i);
    }
    AfterAppend(listing, ready, Names(entries));
    if ready == [] { NothingFree(entries, listing, pending); }
  }

  lemma {:induction false} NothingFree(entries: seq<Entry>, listing: seq<Entry>, pending: seq<Entry>)
    requires multiset(listing) + multiset(pending) == multiset(entries) && pending != []
    requires Sift(pending, Names(pending), true) == []
    ensures Stuck(entries, pending)
  {
    forall e | e in pending ensures e in entries && Mentions(e.1) * Names(pending) != {} {
      assert e in multiset(pending) && e in multiset(entries);
      var i :| 0 <= i < |pending| && pending[i] == e;
      NoneFree(pending, Names(pending), i);
      var t :| t in Mentions(e.1) && t in Names(pending);
      assert t in Mentions(e.1) * Names(pending);
    }
  }

  lemma {:induction false} NoneFree(entries: seq<Entry>, names: set<string>, i: nat)
    requires i < |entries| && Sift(entries, names, true) == []
    ensures !Free(entries[i], names)
  {
    if i > 0 { NoneFree(entries[1..], names, i - 1); }
  }

  // ----- cycles -----

  ghost predicate Depends(entries: seq<Entry>, a: string, b: string) {
    b in Names(entries) && exists e :: e in entries && e.0 == a && b in Mentions(e.1)
  }

  ghost function Dependency(entries: seq<Entry>): (string, string) -> bool { (a, b) => Depends(entries, a, b) }

  /** A way back to the start, one mention at a time. */
  ghost predicate Cycle(entries: seq<Entry>, path: seq<string>) {
    |path| >= 2 && path[0] == path[|path| - 1] && Walk(Dependency(entries), path)
  }

  ghost predicate Stays(path: seq<string>, names: set<string>) { forall i :: 0 <= i < |path| ==> path[i] in names }

  ghost predicate LeadsOn(rel: (string, string) -> bool, names: set<string>, a: string) {
    exists b :: b in names && rel(a, b)
  }

  ghost predicate Endless(rel: (string, string) -> bool, names: set<string>) {
    names != {} && forall a {:trigger LeadsOn(rel, names, a)} | a in names :: LeadsOn(rel, names, a)
  }

  /** Where every name leads to another, one can walk for ever. */
  lemma {:induction false} LongWalk(rel: (string, string) -> bool, names: set<string>, n: nat)
    returns (path: seq<string>)
    requires Endless(rel, names) && n > 0
    ensures |path| == n && Walk(rel, path) && Stays(path, names)
  {
    if n == 1 {
      var a :| a in names;
      path := [a];
    } else {
      var rest := LongWalk(rel, names, n - 1);
      assert LeadsOn(rel, names, rest[n - 2]);
      var b :| b in names && rel(rest[n - 2], b);
      path := rest + [b];
      WalkAppend(rel, rest, b);
    }
  }

  lemma {:induction false} Repeats(path: seq<string>, names: set<string>) returns (i: nat, j: nat)
    requires |path| > |names| && Stays(path, names)
    ensures i < j < |path| && path[i] == path[j]
  {
    var last := path[|path| - 1];
    var rest := path[..|path| - 1];
    if k :| 0 <= k < |rest| && rest[k] == last {
      i, j := k, |path| - 1;
    } else {
      assert last in names && |names - {last}| == |names| - 1;
      i, j := Repeats(rest, names - {last});
    }
  }

  lemma {:induction false} WayBack(rel: (string, string) -> bool, names: set<string>) returns (path: seq<string>)
    requires Endless(rel, names)
    ensures |path| >= 2 && path[0] == path[|path| - 1] && Walk(rel, path)
  {
    var walk := LongWalk(rel, names, |names| + 1);
    var i, j := Repeats(walk, names);
    path := walk[i..j + 1];
    WalkPart(rel, walk, i, j + 1);
  }

  lemma {:induction false} StuckStep(entries: seq<Entry>, stuck: seq<Entry>, a: string) returns (b: string)
    requires Stuck(entries, stuck) && a in Names(stuck)
    ensures b in Names(stuck) && Depends(entries, a, b)
  {
    var i :| 0 <= i < |stuck| && stuck[i].0 == a;
    var e := stuck[i];
    assert e in stuck;
    b :| b in Mentions(e.1) * Names(stuck);
    var j :| 0 <= j < |stuck| && stuck[j].0 == b;
    assert stuck[j] in stuck;
    var k :| 0 <= k < |entries| && entries[k] == stuck[j];
    assert entries[k].0 == b;
  }

  lemma {:induction false} StuckCycle(entries: seq<Entry>, stuck: seq<Entry>) returns (path: seq<string>)
    requires Stuck(entries, stuck)
    ensures Cycle(entries, path)
  {
    assert stuck[0].0 in Names(stuck);
    forall a | a in Names(stuck) ensures LeadsOn(Dependency(entries), Names(stuck), a) {
      var b := StuckStep(entries, stuck, a);
      assert Dependency(entries)(a, b);
    }
    path := WayBack(Dependency(entries), Names(stuck));
  }

  /** Along a mention the place in a listing falls. */
  lemma {:induction false} EarlierPlace(entries: seq<Entry>, listing: seq<Entry>, a: string, b: string, k: nat)
    returns (j: nat)
    requires multiset(listing) == multiset(entries) && Distinct(entries) && After(listing, Names(entries))
    requires k < |listing| && listing[k].0 == a && Depends(entries, a, b)
    ensures j < k && listing[j].0 == b
  {
    var e :| e in entries && e.0 == a && b in Mentions(e.1);
    assert listing[k] in multiset(listing) && listing[k] in entries;
    assert e == listing[k];
    assert b in Names(listing[..k]);
    j :| 0 <= j < k && listing[..k][j].0 == b;
  }

  lemma {:induction false} WalkFalls(entries: seq<Entry>, listing: seq<Entry>, path: seq<string>, n: nat, k: nat)
    returns (j: nat)
    requires multiset(listing) == multiset(entries) && Distinct(entries) && After(listing, Names(entries))
    requires 0 < n < |path| && Walk(Dependency(entries), path) && k < |listing| && listing[k].0 == path[0]
    ensures j < k && listing[j].0 == path[n]
  {
    var i := k;
    if n > 1 { i := WalkFalls(entries, listing, path, n - 1, k); }
    assert Follows(Dependency(entries), path, n - 1);
    j := EarlierPlace(entries, listing, path[n - 1], path[n], i);
  }

  /** A document with a listing has no cycle. */
  lemma {:induction false} ListedAcyclic(entries: seq<Entry>, listing: seq<Entry>, path: seq<string>, k: nat)
    requires multiset(listing) == multiset(entries) && Distinct(entries) && After(listing, Names(entries))
    requires k < |listing| && Cycle(entries, path) && listing[k].0 == path[0]
    ensures false
    decreases k
  {
    var j := WalkFalls(entries, listing, path, |path| - 1, k);
    ListedAcyclic(entries, listing, path, j);
  }

  lemma {:induction false} NoCycle(entries: seq<Entry>, listing: seq<Entry>)
    requires multiset(listing) == multiset(entries) && Distinct(entries) && After(listing, Names(entries))
    ensures !exists path :: Cycle(entries, path)
  {
    if path :| Cycle(entries, path) {
      assert Follows(Dependency(entries), path, 0);
      var e :| e in entries && e.0 == path[0];
      assert e in multiset(entries) && e in multiset(listing);
      var k :| 0 <= k < |listing| && listing[k] == e;
      ListedAcyclic(entries, listing, path, k);
    }
  }
}
