/** The variance-aware comparison of two schemas with a shared set of visited comparisons. */
module Compatibility {
  import opened Core
  import opened Schemas
  import opened Plans

  ghost predicate Fits(older: Definitions, newer: Definitions, c: Comparison) {
    var o, n := Resolve(older, c.older), Resolve(newer, c.newer);
    && o.Some? && n.Some? && NamesWellFormed(o.value) && NamesWellFormed(n.value)
    && Fit(o.value, n.value, c.direction)
  }

  ghost function Rests(older: Definitions, newer: Definitions, c: Comparison): set<Comparison> {
    var o, n := Resolve(older, c.older), Resolve(newer, c.newer);
    if o.Some? && n.Some? then Needs(o.value, n.value, c.direction) else {}
  }

  /** A set of comparisons that all fit and rest only on each other. */
  ghost predicate Simulation(older: Definitions, newer: Definitions, all: set<Comparison>) {
    forall c | c in all :: Fits(older, newer, c) && Rests(older, newer, c) <= all
  }

  ghost predicate Similar(older: Definitions, newer: Definitions, c: Comparison) {
    exists all: set<Comparison> :: c in all && Simulation(older, newer, all)
  }

  /** Both references resolve, and the schemas of property names are objects. */
  ghost predicate Legible(older: Definitions, newer: Definitions, c: Comparison) {
    var o, n := Resolve(older, c.older), Resolve(newer, c.newer);
    o.Some? && n.Some? && NamesWellFormed(o.value) && NamesWellFormed(n.value)
  }

  ghost predicate Upward(older: Definitions, newer: Definitions, all: set<Comparison>) {
    forall c | c in all :: Rests(older, newer, c) <= all
  }

  /** `x` can come up when `c` is compared, whatever the outcome. */
  ghost predicate Reaches(older: Definitions, newer: Definitions, c: Comparison, x: Comparison) {
    forall all: set<Comparison> | c in all && Upward(older, newer, all) :: x in all
  }

  lemma {:induction false} ReachesOn(
    older: Definitions, newer: Definitions, c: Comparison, x: Comparison, y: Comparison)
    requires Reaches(older, newer, c, x) && y in Rests(older, newer, x)
    ensures Reaches(older, newer, c, y)
  {
  }

  /** Nothing that matters is lost by what the visited set does not tell apart. */
  lemma {:induction false} MarkedAlike(older: Definitions, newer: Definitions, c: Comparison)
    ensures Legible(older, newer, Marked(c)) == Legible(older, newer, c)
    ensures Rests(older, newer, Marked(c)) == Rests(older, newer, c)
    ensures Fits(older, newer, Marked(c)) == Fits(older, newer, c)
  {
  }

  // ----- the comparisons a run can ever visit -----

  ghost function ChildSet(c: Child): set<Schema> { if c.Is? then {c.schema} else {} }
  ghost function NamedSet(p: Properties): set<Schema> {
    if p.Properties? then set k | k in p.named :: p.named[k] else {}
  }
  ghost function BranchSet(b: Branches): set<Schema> { if b.Branches? then set t | t in b.list else {} }

  ghost function Kids(s: Schema): set<Schema> {
    ChildSet(s.names) + ChildSet(s.items) + ChildSet(s.negation) + NamedSet(s.properties) + ChildSet(s.additional)
    + BranchSet(s.anyOf) + BranchSet(s.oneOf) + BranchSet(s.allOf)
  }

  ghost function Inside(s: Schema): set<Schema> {
    {s} + set k, x | k in Kids(s) && x in Inside(k) :: x
  }

  lemma {:induction false} InsideUp(s: Schema, k: Schema, x: Schema)
    requires k in Kids(s) && x in Inside(k)
    ensures x in Inside(s)
  {
  }

  lemma {:induction false} InsideDown(s: Schema, x: Schema) returns (k: Schema)
    requires x in Inside(s) && x != s
    ensures k in Kids(s) && x in Inside(k)
  {
    k :| k in Kids(s) && x in Inside(k);
  }

  lemma {:induction false} Smaller(s: Schema, k: Schema)
    requires k in Kids(s)
    ensures k < s
  {
  }

  lemma {:induction false} InsideClosed(s: Schema, x: Schema, y: Schema)
    requires x in Inside(s) && y in Kids(x)
    ensures y in Inside(s)
    decreases s
  {
    if x == s {
      InsideUp(s, y, y);
    } else {
      var k := InsideDown(s, x);
      Smaller(s, k);
      InsideClosed(k, x, y);
      InsideUp(s, k, y);
    }
  }

  /** Everything written in a document or in the schema under comparison. */
  ghost function Written(defs: Definitions, s: Schema): set<Schema> {
    Inside(s) + {Anything, Always} + set k, x | k in defs && x in Inside(defs[k]) :: x
  }

  lemma {:induction false} WrittenClosed(defs: Definitions, s: Schema, x: Schema, y: Schema)
    requires x in Written(defs, s) && y in Kids(x)
    ensures y in Written(defs, s)
  {
    if x in Inside(s) {
      InsideClosed(s, x, y);
    } else if x != Anything && x != Always {
      var k :| k in defs && x in Inside(defs[k]);
      InsideClosed(defs[k], x, y);
    }
  }

  /** What is written, and the forms the comparison of property names adds. */
  ghost function Pool(defs: Definitions, s: Schema): set<Schema> {
    Written(defs, s) + set x | x in Written(defs, s) :: Stated(x)
  }

  ghost predicate Part(s: Schema, y: Schema) { y in Kids(s) || y == NameOf(s.names) }

  lemma {:induction false} MergeKids(target: Schema, s: Schema, y: Schema)
    requires y in Kids(Merge(target, s))
    ensures y in Kids(target) || y in Kids(s)
  {
  }

  lemma {:induction false} KidsOfStated(s: Schema)
    ensures Kids(Stated(s)) == Kids(s)
  {
  }

  lemma {:induction false} KidStays(defs: Definitions, s: Schema, x: Schema, y: Schema)
    requires x in Pool(defs, s) && Resolve(defs, x).Some? && y in Kids(Resolve(defs, x).value)
    ensures y in Written(defs, s)
  {
    var w := x;
    if x !in Written(defs, s) {
      w :| w in Written(defs, s) && x == Stated(w);
      KidsOfStated(w);
    }
    if x.ref.Some? { MergeKids(defs[x.ref.value], x, y); }
    if y in Kids(x) {
      WrittenClosed(defs, s, w, y);
    } else {
      assert defs[x.ref.value] in Inside(defs[x.ref.value]);
      WrittenClosed(defs, s, defs[x.ref.value], y);
    }
  }

  lemma {:induction false} PartStays(defs: Definitions, s: Schema, x: Schema, y: Schema)
    requires x in Pool(defs, s) && Resolve(defs, x).Some? && Part(Resolve(defs, x).value, y)
    ensures y in Pool(defs, s)
  {
    var r := Resolve(defs, x).value;
    if y in Kids(r) {
      KidStays(defs, s, x, y);
    } else if r.names.Is? {
      KidStays(defs, s, x, r.names.schema);
    }
  }

  lemma {:induction false} PoolStarts(defs: Definitions, s: Schema)
    ensures s in Pool(defs, s)
  {
    assert s in Inside(s);
  }

  lemma {:induction false} NamedPart(s: Schema, k: string)
    requires k in Named(s)
    ensures Part(s, Named(s)[k])
  {
    assert Named(s)[k] in NamedSet(s.properties);
  }

  lemma {:induction false} BranchPart(s: Schema, t: Schema)
    requires t in List(s.anyOf) || t in List(s.oneOf) || t in List(s.allOf)
    ensures Part(s, t)
  {
  }

  lemma {:induction false} PropertyParts(o: Schema, n: Schema, d: Direction, c: Comparison)
    requires c in KeptNeeds(o, n, d) || c in AddedNeeds(o, n, d)
    ensures Part(o, c.older) && Part(n, c.newer)
  {
    if c in KeptNeeds(o, n, d) {
      var k :| k in Named(o) && k in Named(n) && c == Comparison(Named(o)[k], Named(n)[k], d);
      NamedPart(o, k);
      NamedPart(n, k);
    } else {
      var k :| k in Named(n) && k !in Named(o) && c == Comparison(Others(o).schema, Named(n)[k], Response);
      NamedPart(n, k);
    }
  }

  lemma {:induction false} SingleParts(o: Schema, n: Schema, d: Direction, c: Comparison)
    requires c in NameNeeds(o, n, d) || c in ElementNeeds(o, n, d) || c in NegationNeeds(o, n, d)
    ensures Part(o, c.older) && Part(n, c.newer)
  {
  }

  lemma {:induction false} NeedsAreParts(o: Schema, n: Schema, d: Direction, c: Comparison)
    requires c in Needs(o, n, d)
    ensures Part(o, c.older) && Part(n, c.newer)
  {
    if c in NameNeeds(o, n, d) || c in ElementNeeds(o, n, d) || c in NegationNeeds(o, n, d) {
      SingleParts(o, n, d, c);
    } else if c in KeptNeeds(o, n, d) || c in AddedNeeds(o, n, d) {
      PropertyParts(o, n, d, c);
    } else {
      BranchPart(o, c.older);
      BranchPart(n, c.newer);
    }
  }

  /** Every comparison of something in one document's pool with something in the other's. */
  ghost function Universe(olds: set<Schema>, news: set<Schema>): set<Comparison> {
    set o, n, d | o in olds && n in news && d in {Request, Response} :: Comparison(o, n, d)
  }

  ghost predicate Closed(older: Definitions, newer: Definitions, universe: set<Comparison>) {
    forall c | c in universe :: Marked(c) in universe && Rests(older, newer, c) <= universe
  }

  lemma {:induction false} InUniverse(olds: set<Schema>, news: set<Schema>, x: Comparison)
    ensures x in Universe(olds, news) <==> x.older in olds && x.newer in news
  {
    assert x.direction == Request || x.direction == Response;
    assert x == Comparison(x.older, x.newer, x.direction);
  }

  lemma {:induction false} RestStays(
    older: Definitions, newer: Definitions, top: Comparison, c: Comparison, x: Comparison)
    requires c.older in Pool(older, top.older) && c.newer in Pool(newer, top.newer) && x in Rests(older, newer, c)
    ensures x.older in Pool(older, top.older) && x.newer in Pool(newer, top.newer)
  {
    NeedsAreParts(Resolve(older, c.older).value, Resolve(newer, c.newer).value, c.direction, x);
    PartStays(older, top.older, c.older, x.older);
    PartStays(newer, top.newer, c.newer, x.newer);
  }

  /** Whatever is compared, the comparisons that can follow are finitely many. */
  lemma {:induction false} UniverseCloses(older: Definitions, newer: Definitions, c: Comparison)
    ensures var universe := Universe(Pool(older, c.older), Pool(newer, c.newer));
            c in universe && Closed(older, newer, universe)
  {
    var olds, news := Pool(older, c.older), Pool(newer, c.newer);
    PoolStarts(older, c.older);
    PoolStarts(newer, c.newer);
    InUniverse(olds, news, c);
    forall a | a in Universe(olds, news) ensures Marked(a) in Universe(olds, news) {
      InUniverse(olds, news, a);
      InUniverse(olds, news, Marked(a));
    }
    forall a, x | a in Universe(olds, news) && x in Rests(older, newer, a) ensures x in Universe(olds, news) {
      InUniverse(olds, news, a);
      RestStays(older, newer, c, a, x);
      InUniverse(olds, news, x);
    }
  }

  // ----- the record of a run -----

  /** What is reported where a comparison is made, and what it goes on to from there. */
  ghost predicate Reported(older: Definitions, newer: Definitions, v: Visit, i: Issue) {
    var o, n := Resolve(older, v.comparison.older), Resolve(newer, v.comparison.newer);
    o.Some? && n.Some? && Breaks(o.value, n.value, v.comparison.direction, v.location, i)
  }

  ghost function Onward(older: Definitions, newer: Definitions, v: Visit): set<Visit> {
    var o, n := Resolve(older, v.comparison.older), Resolve(newer, v.comparison.newer);
    if o.Some? && n.Some? then Places(o.value, n.value, v.comparison.direction, v.location) else {}
  }

  /** How many of the visits report an issue. */
  ghost function Reports(older: Definitions, newer: Definitions, visits: seq<Visit>, i: Issue): nat {
    if visits == [] then 0
    else
      Reports(older, newer, visits[..|visits| - 1], i) + Bit(Reported(older, newer, visits[|visits| - 1], i))
  }

  lemma {:induction false} ReportsConcat(
    older: Definitions, newer: Definitions, a: seq<Visit>, b: seq<Visit>, i: Issue)
    ensures Reports(older, newer, a + b, i) == Reports(older, newer, a, i) + Reports(older, newer, b, i)
    decreases |b|
  {
    if b == [] {
      assert a + b == a;
    } else {
      var n := |b| - 1;
      ReportsConcat(older, newer, a, b[..n], i);
      assert (a + b)[..|a + b| - 1] == a + b[..n];
    }
  }

  /** Every new member of the visited set was visited once. */
  ghost predicate Logged(visits: seq<Visit>, before: set<Comparison>, now: set<Comparison>) {
    && now == before + Visited(visits)
    && (forall v | v in visits :: v.comparison !in before)
    && (forall i, j | 0 <= i < j < |visits| :: visits[i].comparison != visits[j].comparison)
  }

  ghost function Visited(visits: seq<Visit>): set<Comparison> { set v | v in visits :: v.comparison }

  lemma {:induction false} LoggedConcat(
    a: seq<Visit>, b: seq<Visit>, before: set<Comparison>, mid: set<Comparison>, now: set<Comparison>)
    requires Logged(a, before, mid) && Logged(b, mid, now)
    ensures Logged(a + b, before, now)
  {
    assert Visited(a + b) == Visited(a) + Visited(b);
    forall i, j | 0 <= i < j < |a + b| ensures (a + b)[i].comparison != (a + b)[j].comparison {
      if i < |a| <= j { assert a[i] in a && b[j - |a|] in b && a[i].comparison in Visited(a); }
    }
  }

  /** Every visit is one of the first ones or was gone on to from an earlier one. */
  ghost predicate Led(older: Definitions, newer: Definitions, first: set<Visit>, visits: seq<Visit>) {
    forall j | 0 <= j < |visits| :: visits[j] in first || Sent(older, newer, visits[..j], visits[j])
  }

  ghost predicate Sent(older: Definitions, newer: Definitions, earlier: seq<Visit>, v: Visit) {
    exists u :: u in earlier && v in Onward(older, newer, u)
  }

  lemma {:induction false} LedConcat(
    older: Definitions, newer: Definitions, first: set<Visit>, a: seq<Visit>, some: set<Visit>, b: seq<Visit>)
    requires Led(older, newer, first, a) && Led(older, newer, some, b)
    requires forall v | v in some :: v in first || Sent(older, newer, a, v)
    ensures Led(older, newer, first, a + b)
  {
    var all := a + b;
    forall j | 0 <= j < |all| ensures all[j] in first || Sent(older, newer, all[..j], all[j]) {
      if j < |a| {
        assert all[..j] == a[..j];
      } else {
        var k := j - |a|;
        assert all[..j] == a + b[..k];
        if b[k] in some {
          if Sent(older, newer, a, b[k]) { var u :| u in a && b[k] in Onward(older, newer, u); assert u in all[..j]; }
        } else {
          var u :| u in b[..k] && b[k] in Onward(older, newer, u);
          assert u in all[..j];
        }
      }
    }
  }

  /** Every visit could be read, and all it goes on to has been visited. */
  ghost predicate Explored(older: Definitions, newer: Definitions, visits: seq<Visit>, now: set<Comparison>) {
    forall v | v in visits :: Legible(older, newer, v.comparison) && Covered(Onward(older, newer, v), now)
  }

  ghost predicate Covered(places: set<Visit>, now: set<Comparison>) { forall w | w in places :: w.comparison in now }

  /** The run came to a comparison that cannot be read. */
  ghost predicate Stuck(older: Definitions, newer: Definitions, visits: seq<Visit>) {
    exists v :: v in visits && !Legible(older, newer, v.comparison)
  }

  lemma {:induction false} OnwardRests(older: Definitions, newer: Definitions, v: Visit, w: Visit)
    returns (x: Comparison)
    requires w in Onward(older, newer, v)
    ensures x in Rests(older, newer, v.comparison) && w.comparison == Marked(x)
  {
    var c := v.comparison;
    PlacesHouse(Resolve(older, c.older).value, Resolve(newer, c.newer).value, c.direction, v.location);
    assert Needed(w, Rests(older, newer, c));
    x :| x in Rests(older, newer, c) && w.comparison == Marked(x);
  }

  lemma {:induction false} RestOnward(older: Definitions, newer: Definitions, v: Visit, x: Comparison)
    returns (w: Visit)
    requires x in Rests(older, newer, v.comparison)
    ensures w in Onward(older, newer, v) && w.comparison == Marked(x)
  {
    var c := v.comparison;
    PlacesHouse(Resolve(older, c.older).value, Resolve(newer, c.newer).value, c.direction, v.location);
    assert Placed(x, Onward(older, newer, v));
    w :| w in Onward(older, newer, v) && w.comparison == Marked(x);
  }

  lemma {:induction false} OnwardStays(
    older: Definitions, newer: Definitions, universe: set<Comparison>, v: Visit)
    requires Closed(older, newer, universe) && v.comparison in universe
    ensures Covered(Onward(older, newer, v), universe)
  {
    forall w | w in Onward(older, newer, v) ensures w.comparison in universe {
      var x := OnwardRests(older, newer, v, w);
    }
  }

  /** A visit, followed by the visits below it. */
  lemma {:induction false} Continued(older: Definitions, newer: Definitions, here: Visit, inner: seq<Visit>,
                                     before: set<Comparison>, now: set<Comparison>)
    requires here.comparison !in before && Logged(inner, before + {here.comparison}, now)
    requires Led(older, newer, Onward(older, newer, here), inner)
    ensures Logged([here] + inner, before, now) && Led(older, newer, {here}, [here] + inner)
    ensures Stuck(older, newer, inner) ==> Stuck(older, newer, [here] + inner)
    ensures (Legible(older, newer, here.comparison) && Covered(Onward(older, newer, here), now)
             && Explored(older, newer, inner, now)) ==> Explored(older, newer, [here] + inner, now)
  {
    assert Visited([here]) == {here.comparison};
    LoggedConcat([here], inner, before, before + {here.comparison}, now);
    assert here in [here];
    LedConcat(older, newer, {here}, [here], Onward(older, newer, here), inner);
    if Stuck(older, newer, inner) {
      var v :| v in inner && !Legible(older, newer, v.comparison);
      assert v in [here] + inner;
    }
  }

  /** The visits so far, followed by those below one more target. */
  lemma {:induction false} Joined(older: Definitions, newer: Definitions, first: set<Visit>, visits: seq<Visit>,
                                  to: Visit, inner: seq<Visit>,
                                  base: set<Comparison>, mid: set<Comparison>, now: set<Comparison>)
    requires to in first && Logged(visits, base, mid) && Led(older, newer, first, visits)
    requires Logged(inner, mid, now) && Led(older, newer, {to}, inner) && Explored(older, newer, visits, mid)
    ensures Logged(visits + inner, base, now) && Led(older, newer, first, visits + inner)
    ensures Stuck(older, newer, inner) ==> Stuck(older, newer, visits + inner)
    ensures Explored(older, newer, inner, now) ==> Explored(older, newer, visits + inner, now)
  {
    LoggedConcat(visits, inner, base, mid, now);
    LedConcat(older, newer, first, visits, {to}, inner);
    if Stuck(older, newer, inner) {
      var v :| v in inner && !Legible(older, newer, v.comparison);
      assert v in visits + inner;
    }
  }

  lemma {:induction false} FoundCollected(
    older: Definitions, newer: Definitions, issues: seq<Issue>, items: seq<Item>, k: nat, visits: seq<Visit>)
    requires k < |items| && items[k].Found? && Collected(older, newer, issues, items[..k], visits)
    ensures Collected(older, newer, issues + [items[k].issue], items[..k + 1], visits)
    ensures Targets(items[..k + 1]) == Targets(items[..k])
  {
    assert items[..k + 1] == items[..k] + [items[k]];
    assert (issues + [items[k].issue])[..|issues|] == issues && items[..k + 1][..k] == items[..k];
  }

  lemma {:induction false} DescendStep(items: seq<Item>, k: nat)
    requires k < |items| && items[k].Descend?
    ensures var to := Visit(Marked(items[k].to), items[k].location);
            to in Targets(items) && Targets(items[..k + 1]) == Targets(items[..k]) + {to}
  {
    assert items[..k + 1] == items[..k] + [items[k]] && items[k] in items && items[k] in [items[k]];
  }

  /** Each issue is listed as often as the visits report it. */
  ghost predicate Accounted(older: Definitions, newer: Definitions, issues: seq<Issue>, visits: seq<Visit>) {
    forall i :: Count(issues, i) == Reports(older, newer, visits, i)
  }

  /** The same, with what a plan reports by itself. */
  ghost predicate Collected(
    older: Definitions, newer: Definitions, issues: seq<Issue>, items: seq<Item>, visits: seq<Visit>) {
    forall i :: Count(issues, i) == Tally(items, i) + Reports(older, newer, visits, i)
  }

  /** A plan that says what is reported here and where to go on to. */
  ghost predicate Faithful(older: Definitions, newer: Definitions, items: seq<Item>, here: Visit) {
    && Targets(items) == Onward(older, newer, here)
    && forall i :: Tally(items, i) == Bit(Reported(older, newer, here, i))
  }

  lemma {:induction false} AccountedHere(older: Definitions, newer: Definitions, issues: seq<Issue>, items: seq<Item>,
                                         here: Visit, inner: seq<Visit>)
    requires Faithful(older, newer, items, here) && Collected(older, newer, issues, items, inner)
    ensures Accounted(older, newer, issues, [here] + inner)
  {
    forall i ensures Count(issues, i) == Reports(older, newer, [here] + inner, i) {
      ReportsConcat(older, newer, [here], inner, i);
    }
  }

  lemma {:induction false} StuckHere(older: Definitions, newer: Definitions, here: Visit, before: set<Comparison>)
    requires here.comparison !in before && !Legible(older, newer, here.comparison)
    ensures Logged([here], before, before + {here.comparison}) && Led(older, newer, {here}, [here])
    ensures Stuck(older, newer, [here])
  {
    assert here in [here] && Visited([here]) == {here.comparison};
  }

  lemma {:induction false} DescentCollected(
    older: Definitions, newer: Definitions, issues: seq<Issue>, items: seq<Item>, k: nat, visits: seq<Visit>,
    more: seq<Issue>, inner: seq<Visit>)
    requires k < |items| && items[k].Descend? && Collected(older, newer, issues, items[..k], visits)
    requires Accounted(older, newer, more, inner)
    ensures Collected(older, newer, issues + more, items[..k + 1], visits + inner)
  {
    assert items[..k + 1] == items[..k] + [items[k]];
    forall i ensures Count(issues + more, i) == Tally(items[..k + 1], i) + Reports(older, newer, visits + inner, i) {
      CountConcat(issues, more, i);
      ReportsConcat(older, newer, visits, inner, i);
      Concat(items[..k], [items[k]], i);
      DescendReads(items[k].to, items[k].location, i);
    }
  }

  /** The first `k` items are dealt with. */
  ghost predicate Walked(older: Definitions, newer: Definitions, items: seq<Item>, k: nat, issues: seq<Issue>,
                         visits: seq<Visit>, base: set<Comparison>, now: set<Comparison>)
    requires k <= |items|
  {
    && Logged(visits, base, now) && Led(older, newer, Targets(items), visits)
    && Explored(older, newer, visits, now) && Covered(Targets(items[..k]), now)
    && Collected(older, newer, issues, items[..k], visits)
  }

  /** What one item adds: its issue, or the answer of a comparison. */
  ghost predicate Added(older: Definitions, newer: Definitions, item: Item, more: seq<Issue>, inner: seq<Visit>,
                        mid: set<Comparison>, now: set<Comparison>) {
    match item
    case Found(issue) => more == [issue] && inner == [] && now == mid
    case Descend(to, at) =>
      && Logged(inner, mid, now) && Led(older, newer, {Visit(Marked(to), at)}, inner) && Marked(to) in now
      && Explored(older, newer, inner, now) && Accounted(older, newer, more, inner)
  }

  lemma {:induction false} WalkOn(
    older: Definitions, newer: Definitions, items: seq<Item>, k: nat, issues: seq<Issue>, visits: seq<Visit>,
    base: set<Comparison>, mid: set<Comparison>, now: set<Comparison>, more: seq<Issue>, inner: seq<Visit>)
    requires k < |items| && Walked(older, newer, items, k, issues, visits, base, mid)
    requires Added(older, newer, items[k], more, inner, mid, now)
    ensures Walked(older, newer, items, k + 1, issues + more, visits + inner, base, now)
  {
    match items[k]
    case Found(_) =>
      FoundCollected(older, newer, issues, items, k, visits);
      assert visits + inner == visits;
    case Descend(to, at) =>
      DescendStep(items, k);
      Joined(older, newer, Targets(items), visits, Visit(Marked(to), at), inner, base, mid, now);
      DescentCollected(older, newer, issues, items, k, visits, more, inner);
  }

  // ----- the comparison itself -----

  method Listed(names: set<string>) returns (list: seq<string>)
    ensures Enumerates(list, names)
  {
    var rest := names;
    list := [];
    while rest != {}
      invariant rest <= names
      invariant forall k :: k in names <==> k in rest || k in list
      invariant forall k | k in list :: k !in rest
      invariant forall i, j | 0 <= i < j < |list| :: list[i] != list[j]
      decreases |rest|
    {
      var k :| k in rest;
      rest, list := rest - {k}, list + [k];
    }
  }

  method ListNames(o: Schema, n: Schema, d: Direction) returns (names: Names)
    ensures Lists(names, o, n, d)
  {
    var broken := Listed(RequiredBreaks(o, n, d));
    var kept := Listed(Named(o).Keys);
    var added := Listed(Named(n).Keys - Named(o).Keys);
    names := Names(broken, kept, added);
  }

  method Planned(o: Schema, n: Schema, d: Direction, at: string) returns (items: seq<Item>)
    ensures Targets(items) == Places(o, n, d, at)
    ensures forall i :: Tally(items, i) == Bit(Breaks(o, n, d, at, i))
  {
    var names := ListNames(o, n, d);
    items := Plan(o, n, d, at, names);
    forall i ensures Tally(items, i) == Bit(Breaks(o, n, d, at, i)) { PlanReads(o, n, d, at, names, i); }
    PlanReads(o, n, d, at, names, Issue(at, TypeChanged));
  }

  lemma {:induction false} PlannedHere(
    older: Definitions, newer: Definitions, o: Schema, n: Schema, here: Visit, items: seq<Item>)
    requires Some(o) == Resolve(older, here.comparison.older) && Some(n) == Resolve(newer, here.comparison.newer)
    requires Targets(items) == Places(o, n, here.comparison.direction, here.location)
    requires forall i :: Tally(items, i) == Bit(Breaks(o, n, here.comparison.direction, here.location, i))
    ensures Faithful(older, newer, items, here)
  {
  }

  lemma {:induction false} Fewer(universe: set<Comparison>, before: set<Comparison>, c: Comparison)
    requires c in universe && c !in before
    ensures |universe - (before + {c})| < |universe - before|
  {
    assert universe - (before + {c}) == universe - before - {c};
  }

  /** The visited set that all the comparisons of one call share. */
  class ComparisonState {
    const older: Definitions
    const newer: Definitions
    ghost const universe: set<Comparison>
    var visited: set<Comparison>

    ghost predicate Valid()
      reads this
    {
      visited <= universe && Closed(older, newer, universe)
    }

    constructor (older: Definitions, newer: Definitions, ghost top: Comparison)
      ensures Valid() && fresh(this) && visited == {} && Marked(top) in universe
      ensures this.older == older && this.newer == newer
      ensures universe == Universe(Pool(older, top.older), Pool(newer, top.newer))
    {
      this.older, this.newer, visited := older, newer, {};
      universe := Universe(Pool(older, top.older), Pool(newer, top.newer));
      new;
      UniverseCloses(older, newer, top);
    }

    /** Marks the comparison before looking into it, so recursive schemas end. The visits made lead from here on, and
        each issue is in the answer as often as they report it; there is none exactly when one could not be read. */
    method Changes(c: Comparison, location: string)
      returns (r: Result<seq<Issue>, string>, ghost visits: seq<Visit>)
      requires Valid() && Marked(c) in universe
      modifies this
      ensures Valid() && Marked(c) in visited
      ensures Logged(visits, old(visited), visited) && Led(older, newer, {Visit(Marked(c), location)}, visits)
      ensures r.Ok? ==> Explored(older, newer, visits, visited) && Accounted(older, newer, r.value, visits)
      ensures r.Err? ==> Stuck(older, newer, visits)
      decreases |universe - visited|, 0
    {
      var mark := Marked(c);
      if mark in visited { return Ok([]), []; }
      Fewer(universe, visited, mark);
      ghost var here, before := Visit(mark, location), visited;
      visited := visited + {mark};
      MarkedAlike(older, newer, c);
      if !Legible(older, newer, mark) { StuckHere(older, newer, here, before); }
      var o, n := Resolve(older, c.older), Resolve(newer, c.newer);
      if o.None? { return Err(c.older.ref.value), [here]; }
      if n.None? { return Err(c.newer.ref.value), [here]; }
      if !NamesWellFormed(o.value) || !NamesWellFormed(n.value) { return Err("propertyNames"), [here]; }
      var items := Planned(o.value, n.value, c.direction, location);
      PlannedHere(older, newer, o.value, n.value, here, items);
      OnwardStays(older, newer, universe, here);
      r, visits := Follow(items);
      Continued(older, newer, here, visits, before, visited);
      if r.Ok? { AccountedHere(older, newer, r.value, items, here, visits); }
      visits := [here] + visits;
    }

    /** Collects the issues of a plan, descending where it says so: each issue as often as the plan itself and the
        visits below it report it. */
    method Follow(items: seq<Item>) returns (r: Result<seq<Issue>, string>, ghost visits: seq<Visit>)
      requires Valid() && Covered(Targets(items), universe)
      modifies this
      ensures Valid()
      ensures Logged(visits, old(visited), visited) && Led(older, newer, Targets(items), visits)
      ensures r.Ok? ==> Explored(older, newer, visits, visited) && Covered(Targets(items), visited)
      ensures r.Ok? ==> Collected(older, newer, r.value, items, visits)
      ensures r.Err? ==> Stuck(older, newer, visits)
      decreases |universe - visited|, 1
    {
      ghost var base := visited;
      var issues := [];
      visits := [];
      for k := 0 to |items|
        invariant Valid() && base <= visited && Walked(older, newer, items, k, issues, visits, base, visited)
      {
        ghost var mid, inner: seq<Visit> := visited, [];
        var more: seq<Issue>;
        match items[k] {
          case Found(issue) => more := [issue];
          case Descend(to, at) =>
            DescendStep(items, k);
            Subsets(universe - visited, universe - base);
            var answer;
            answer, inner := Changes(to, at);
            if answer.Err? {
              Joined(older, newer, Targets(items), visits, Visit(Marked(to), at), inner, base, mid, visited);
              return answer, visits + inner;
            }
            more := answer.value;
        }
        WalkOn(older, newer, items, k, issues, visits, base, mid, visited, more, inner);
        issues, visits := issues + more, visits + inner;
      }
      assert items[..|items|] == items;
      return Ok(issues), visits;
    }
  }

  // ----- the whole comparison -----

  ghost predicate Arises(older: Definitions, newer: Definitions, c: Comparison, mark: Comparison) {
    exists x :: Reaches(older, newer, c, x) && mark == Marked(x)
  }

  /** Nothing is visited that does not come up. */
  lemma {:induction false} VisitsArise(
    older: Definitions, newer: Definitions, c: Comparison, location: string, visits: seq<Visit>, j: nat)
    requires j < |visits| && Led(older, newer, {Visit(Marked(c), location)}, visits)
    ensures Arises(older, newer, c, visits[j].comparison)
  {
    if visits[j] == Visit(Marked(c), location) {
      assert Reaches(older, newer, c, c);
    } else {
      assert Sent(older, newer, visits[..j], visits[j]);
      var u :| u in visits[..j] && visits[j] in Onward(older, newer, u);
      var i :| 0 <= i < j && visits[i] == u;
      VisitsArise(older, newer, c, location, visits, i);
      var x :| Reaches(older, newer, c, x) && u.comparison == Marked(x);
      var y := OnwardRests(older, newer, u, visits[j]);
      MarkedAlike(older, newer, x);
      ReachesOn(older, newer, c, x, y);
    }
  }

  ghost predicate Settled(older: Definitions, newer: Definitions, visited: set<Comparison>) {
    forall k | k in visited ::
      Legible(older, newer, k) && forall x | x in Rests(older, newer, k) :: Marked(x) in visited
  }

  lemma {:induction false} ExploredSettled(
    older: Definitions, newer: Definitions, visits: seq<Visit>, visited: set<Comparison>)
    requires Explored(older, newer, visits, visited) && visited == Visited(visits)
    ensures Settled(older, newer, visited)
  {
    forall k, x | k in visited && x in Rests(older, newer, k) ensures Marked(x) in visited {
      var v :| v in visits && v.comparison == k;
      var w := RestOnward(older, newer, v, x);
    }
  }

  /** Everything that comes up is visited. */
  lemma {:induction false} AllVisited(older: Definitions, newer: Definitions, c: Comparison, x: Comparison,
                                      universe: set<Comparison>, visited: set<Comparison>)
    requires c in universe && Closed(older, newer, universe)
    requires Marked(c) in visited && Settled(older, newer, visited) && Reaches(older, newer, c, x)
    ensures x in universe && Marked(x) in visited
  {
    var all := set y | y in universe && Marked(y) in visited;
    forall y, z | y in all && z in Rests(older, newer, y) ensures z in all { MarkedAlike(older, newer, y); }
    assert Upward(older, newer, all);
  }

  ghost predicate Silent(older: Definitions, newer: Definitions, v: Visit) {
    forall i :: !Reported(older, newer, v, i)
  }

  lemma {:induction false} SilentFits(older: Definitions, newer: Definitions, v: Visit)
    requires Legible(older, newer, v.comparison)
    ensures Fits(older, newer, v.comparison) <==> Silent(older, newer, v)
  {
    var k := v.comparison;
    var o, n := Resolve(older, k.older).value, Resolve(newer, k.newer).value;
    FitsUnbroken(o, n, k.direction, v.location);
    forall i ensures Reported(older, newer, v, i) == Breaks(o, n, k.direction, v.location, i) { }
  }

  lemma {:induction false} SimilarReached(older: Definitions, newer: Definitions, c: Comparison, x: Comparison)
    requires Similar(older, newer, c) && Reaches(older, newer, c, x)
    ensures Fits(older, newer, x)
  {
    var all: set<Comparison> :| c in all && Simulation(older, newer, all);
    assert Upward(older, newer, all);
  }

  lemma {:induction false} ArisenFits(older: Definitions, newer: Definitions, c: Comparison, k: Comparison)
    requires Similar(older, newer, c) && Arises(older, newer, c, k)
    ensures Fits(older, newer, k)
  {
    var x :| Reaches(older, newer, c, x) && k == Marked(x);
    SimilarReached(older, newer, c, x);
    MarkedAlike(older, newer, x);
  }

  lemma {:induction false} FitSimilar(older: Definitions, newer: Definitions, c: Comparison,
                                      universe: set<Comparison>, visited: set<Comparison>)
    requires c in universe && Closed(older, newer, universe) && Marked(c) in visited
    requires Settled(older, newer, visited) && forall k | k in visited :: Fits(older, newer, k)
    ensures Similar(older, newer, c)
  {
    var all := set y | y in universe && Marked(y) in visited;
    forall y | y in all ensures Fits(older, newer, y) && Rests(older, newer, y) <= all {
      MarkedAlike(older, newer, y);
    }
    assert c in all && Simulation(older, newer, all);
  }

  /** Among comparisons that can all be read, being similar is having nothing to report. */
  lemma {:induction false} SilentSimilar(older: Definitions, newer: Definitions, c: Comparison, location: string,
                                         universe: set<Comparison>, visits: seq<Visit>)
    requires c in universe && Closed(older, newer, universe)
    requires Marked(c) in Visited(visits) && Settled(older, newer, Visited(visits))
    requires Led(older, newer, {Visit(Marked(c), location)}, visits)
    ensures Similar(older, newer, c) <==> forall v | v in visits :: Silent(older, newer, v)
  {
    forall v | v in visits ensures Fits(older, newer, v.comparison) <==> Silent(older, newer, v) {
      SilentFits(older, newer, v);
    }
    if Similar(older, newer, c) {
      forall v | v in visits ensures Fits(older, newer, v.comparison) {
        var j :| 0 <= j < |visits| && visits[j] == v;
        VisitsArise(older, newer, c, location, visits, j);
        ArisenFits(older, newer, c, v.comparison);
      }
    } else if forall v | v in visits :: Fits(older, newer, v.comparison) {
      FitSimilar(older, newer, c, universe, Visited(visits));
    }
  }

  lemma {:induction false} NoReports(older: Definitions, newer: Definitions, visits: seq<Visit>, i: Issue)
    ensures Reports(older, newer, visits, i) == 0 <==> forall v | v in visits :: !Reported(older, newer, v, i)
  {
    if visits != [] {
      var n := |visits| - 1;
      NoReports(older, newer, visits[..n], i);
      assert visits == visits[..n] + [visits[n]];
    }
  }

  ghost predicate Arisen(older: Definitions, newer: Definitions, visits: seq<Visit>, i: Issue) {
    exists v :: v in visits && Reported(older, newer, v, i)
  }

  /** What is listed is what some visit reports. */
  lemma {:induction false} AccountedMembers(
    older: Definitions, newer: Definitions, issues: seq<Issue>, visits: seq<Visit>, i: Issue)
    requires Accounted(older, newer, issues, visits)
    ensures i in issues <==> Arisen(older, newer, visits, i)
  {
    Counted(issues, i);
    NoReports(older, newer, visits, i);
  }

  lemma {:induction false} Counted<T>(list: seq<T>, x: T)
    ensures x in list <==> Count(list, x) > 0
  {
    if list != [] {
      var n := |list| - 1;
      Counted(list[..n], x);
      assert list == list[..n] + [list[n]];
    }
  }

  lemma {:induction false} SilentEmpty(older: Definitions, newer: Definitions, issues: seq<Issue>, visits: seq<Visit>)
    requires forall i :: i in issues <==> Arisen(older, newer, visits, i)
    ensures issues == [] <==> forall v | v in visits :: Silent(older, newer, v)
  {
    if issues != [] {
      assert issues[0] in issues;
      var v :| v in visits && Reported(older, newer, v, issues[0]);
      assert !Silent(older, newer, v);
    } else {
      forall v, i | v in visits ensures !Reported(older, newer, v, i) {
        assert !Arisen(older, newer, visits, i);
      }
    }
  }

  /** What the visits of a finished run say of what comes up. */
  lemma {:induction false} Concluded(older: Definitions, newer: Definitions, c: Comparison, location: string,
                                     visits: seq<Visit>, universe: set<Comparison>, ended: bool)
    requires c in universe && Closed(older, newer, universe) && Marked(c) in Visited(visits)
    requires Led(older, newer, {Visit(Marked(c), location)}, visits)
    requires if ended then Explored(older, newer, visits, Visited(visits)) else Stuck(older, newer, visits)
    ensures !ended <==> exists x :: Reaches(older, newer, c, x) && !Legible(older, newer, x)
    ensures ended ==> forall k :: k in Visited(visits) <==> Arises(older, newer, c, k)
    ensures ended ==> (Similar(older, newer, c) <==> forall v | v in visits :: Silent(older, newer, v))
    ensures !ended ==> !Similar(older, newer, c)
  {
    forall v | v in visits ensures Arises(older, newer, c, v.comparison) {
      var j :| 0 <= j < |visits| && visits[j] == v;
      VisitsArise(older, newer, c, location, visits, j);
    }
    if ended {
      ExploredSettled(older, newer, visits, Visited(visits));
      SilentSimilar(older, newer, c, location, universe, visits);
      forall x | Reaches(older, newer, c, x) ensures Marked(x) in Visited(visits) && Legible(older, newer, x) {
        AllVisited(older, newer, c, x, universe, Visited(visits));
        MarkedAlike(older, newer, x);
      }
    } else {
      var v :| v in visits && !Legible(older, newer, v.comparison);
      var x :| Reaches(older, newer, c, x) && v.comparison == Marked(x);
      MarkedAlike(older, newer, x);
      if Similar(older, newer, c) { SimilarReached(older, newer, c, x); }
    }
  }

  /** The whole comparison, from an empty visited set. It visits exactly what comes up, each comparison once and at a
      place it was sent to, and its answer holds each issue exactly as often as those visits report it. It fails exactly
      when something that comes up cannot be read, and is empty exactly when the two schemas are similar. */
  method SchemaChanges(older: Definitions, newer: Definitions, c: Comparison, location: string)
    returns (r: Result<seq<Issue>, string>, visited: set<Comparison>, ghost visits: seq<Visit>)
    ensures Logged(visits, {}, visited) && Led(older, newer, {Visit(Marked(c), location)}, visits)
    ensures r.Err? <==> exists x :: Reaches(older, newer, c, x) && !Legible(older, newer, x)
    ensures r.Ok? ==> forall k :: k in visited <==> Arises(older, newer, c, k)
    ensures r.Ok? ==> Accounted(older, newer, r.value, visits)
    ensures r.Ok? ==> forall i :: i in r.value <==> Arisen(older, newer, visits, i)
    ensures r == Ok([]) <==> Similar(older, newer, c)
  {
    var state := new ComparisonState(older, newer, c);
    r, visits := state.Changes(c, location);
    visited := state.visited;
    UniverseCloses(older, newer, c);
    if r.Ok? {
      forall i ensures i in r.value <==> Arisen(older, newer, visits, i) {
        AccountedMembers(older, newer, r.value, visits, i);
      }
      SilentEmpty(older, newer, r.value, visits);
    }
    Concluded(older, newer, c, location, visits, state.universe, r.Ok?);
  }
}
