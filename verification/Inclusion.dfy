/** A comparison without issues is an inclusion of accepted values. */
module Inclusion {
  import opened Schemas
  import opened Plans
  import opened Compatibility
  import opened Overlays

  /** An old and a new document, read with one meaning of patterns and formats. */
  datatype Pair = Pair(meaning: Meaning, older: Document, newer: Document)

  ghost predicate Readable(p: Pair) { Guarded(p.older) && Guarded(p.newer) }

  function NarrowDocument(p: Pair, d: Direction): Document { if d.Request? then p.older else p.newer }
  function WideDocument(p: Pair, d: Direction): Document { if d.Request? then p.newer else p.older }

  /** Every value the narrow side accepts, the wide side accepts: new within old for responses, old within new for
      requests. */
  ghost predicate Holds(p: Pair, c: Comparison, v: Value)
    requires Readable(p)
  {
    Accepts(p.meaning, NarrowDocument(p, c.direction), Narrow(c.older, c.newer, c.direction), v) ==>
    Accepts(p.meaning, WideDocument(p, c.direction), Wide(c.older, c.newer, c.direction), v)
  }

  // ----- the fragment -----

  predicate Closes(o: Schema, n: Schema) { Named(n).Keys <= Named(o).Keys || Others(o).Forbid? }

  /** No value is accepted by two of the schemas. */
  ghost predicate Disjoint(m: Meaning, d: Document, list: seq<Schema>)
    requires Guarded(d)
  {
    forall i, j, v | 0 <= i < j < |list| && Accepts(m, d, list[i], v) :: !Accepts(m, d, list[j], v)
  }

  /** The resolved forms mean enough of what the schemas mean, the wide side's alternatives exclude each other, and
      for requests no property is added to an open object. */
  ghost predicate Tame(p: Pair, c: Comparison)
    requires Readable(p)
  {
    var o, n, d := Resolve(p.older.definitions, c.older), Resolve(p.newer.definitions, c.newer), c.direction;
    && Blended(NarrowDocument(p, d).definitions, Narrow(c.older, c.newer, d))
    && Kept(WideDocument(p, d).definitions, Wide(c.older, c.newer, d))
    && (o.Some? && n.Some? ==>
          && Disjoint(p.meaning, WideDocument(p, d), List(Wide(o.value, n.value, d).oneOf))
          && (d.Request? ==> Closes(o.value, n.value)))
  }

  // ----- one schema -----

  lemma {:induction false} AllowedMeans(s: Schema, v: Value)
    ensures (s.choices.Some? ==> v in s.choices.value) && (s.constant.Some? ==> v == s.constant.value)
            <==> (Allowed(s).Some? ==> v in Allowed(s).value)
  {
  }

  lemma {:induction false} PlainCarries(m: Meaning, o: Schema, n: Schema, d: Direction, v: Value)
    requires Fit(o, n, d) && Plain(m, Narrow(o, n, d), v) && Typed(Narrow(o, n, d), v)
    ensures Plain(m, Wide(o, n, d), v) && Typed(Wide(o, n, d), v)
  {
    var a, b := Narrow(o, n, d), Wide(o, n, d);
    AllowedMeans(a, v);
    AllowedMeans(b, v);
    forall x | x in b.bounds ensures Within(x, b.bounds[x], v) {
      assert Tighter(a, b, x);
      BoundCarries(x, a.bounds[x], b.bounds[x], v);
    }
  }

  /** Holding a name to be text changes nothing, since every name is. */
  lemma {:induction false} StatedNames(m: Meaning, d: Document, s: Schema, k: string)
    requires Guarded(d)
    ensures Accepts(m, d, s, Text(k)) <==> Accepts(m, d, Stated(s), Text(k))
  {
    var t := Stated(s);
    if s.types.None? {
      assert "string" in Types(t) && HasType(Text(k), "string");
      assert Typed(s, Text(k)) && Typed(t, Text(k));
      ComposedReads(m, d, s, Text(k));
      ComposedReads(m, d, t, Text(k));
      HereReads(m, d, s, Text(k));
      HereReads(m, d, t, Text(k));
      assert s.ref.Some? && s.ref.value in d.definitions ==>
               && InPlace(d.definitions, s, d.definitions[s.ref.value])
               && InPlace(d.definitions, t, d.definitions[s.ref.value]);
    }
  }

  // ----- one step of the induction -----

  /** The values a value is judged by below itself: its elements, its fields and their names. */
  predicate Below(w: Value, v: Value) {
    match v
    case Items(list) => w in list
    case Record(fields) => w in fields.Values || (w.Text? && w.s in fields)
    case _ => false
  }

  ghost predicate Inherited(p: Pair, o: Schema, n: Schema, d: Direction, v: Value)
    requires Readable(p)
  {
    && (forall c, w | c in Needs(o, n, d) && Below(w, v) :: Holds(p, c, w))
    && (forall c | c in CompositionNeeds(o, n, d) :: Holds(p, c, v))
  }

  lemma {:induction false} NameCarries(p: Pair, o: Schema, n: Schema, d: Direction, v: Value)
    requires Readable(p) && Inherited(p, o, n, d, v)
    requires NamesHold(p.meaning, NarrowDocument(p, d), Narrow(o, n, d).names, v)
    ensures NamesHold(p.meaning, WideDocument(p, d), Wide(o, n, d).names, v)
  {
    var a, b := Narrow(o, n, d).names, Wide(o, n, d).names;
    if v.Record? && b.Is? {
      forall k | k in v.fields ensures Accepts(p.meaning, WideDocument(p, d), b.schema, Text(k)) {
        var x := if a.Is? then a.schema else Anything;
        if a.Absent? { AnythingHere(p.meaning, NarrowDocument(p, d), Text(k)); }
        StatedNames(p.meaning, NarrowDocument(p, d), x, k);
        var c := Comparison(NameOf(o.names), NameOf(n.names), d);
        assert c in NameNeeds(o, n, d) && Below(Text(k), v);
        assert Holds(p, c, Text(k));
        StatedNames(p.meaning, WideDocument(p, d), b.schema, k);
      }
    }
  }

  lemma {:induction false} FieldCarries(p: Pair, o: Schema, n: Schema, d: Direction, v: Value, k: string)
    requires Readable(p) && Inherited(p, o, n, d, v) && v.Record? && k in v.fields
    requires ObjectFit(o, n, d) && ElementFit(Narrow(o, n, d), Wide(o, n, d)) && (d.Request? ==> Closes(o, n))
    requires Governed(p.meaning, NarrowDocument(p, d), Governing(Narrow(o, n, d), k), v.fields[k])
    ensures Governed(p.meaning, WideDocument(p, d), Governing(Wide(o, n, d), k), v.fields[k])
  {
    var w := v.fields[k];
    assert w in v.fields.Values && Below(w, v);
    if k in Named(o) {
      var c := Comparison(Named(o)[k], Named(n)[k], d);
      assert c in KeptNeeds(o, n, d);
      assert Holds(p, c, w);
    } else if k in Named(n) {
      if d.Response? && Others(o).Rest? {
        var c := Comparison(Others(o).schema, Named(n)[k], Response);
        assert c in AddedNeeds(o, n, d);
        assert Holds(p, c, w);
      }
    } else if Others(o).Rest? && Others(n).Rest? {
      var c := Comparison(Others(o).schema, Others(n).schema, d);
      assert c in ElementNeeds(o, n, d);
      assert Holds(p, c, w);
    }
  }

  lemma {:induction false} ElementCarries(p: Pair, o: Schema, n: Schema, d: Direction, v: Value, w: Value)
    requires Readable(p) && Inherited(p, o, n, d, v) && v.Items? && w in v.list
    requires ElementFit(Narrow(o, n, d), Wide(o, n, d)) && Wide(o, n, d).items.Is?
    requires Accepts(p.meaning, NarrowDocument(p, d), Narrow(o, n, d).items.schema, w)
    ensures Accepts(p.meaning, WideDocument(p, d), Wide(o, n, d).items.schema, w)
  {
    var c := Comparison(o.items.schema, n.items.schema, d);
    assert c in ElementNeeds(o, n, d) && Below(w, v);
    assert Holds(p, c, w);
  }

  lemma {:induction false} BranchCarries(p: Pair, o: Schema, n: Schema, d: Direction, v: Value, t: Schema)
    requires Readable(p) && Inherited(p, o, n, d, v) && SameComposition(o, n)
    requires t in List(o.anyOf) || t in List(o.oneOf) || t in List(o.allOf)
    requires Accepts(p.meaning, NarrowDocument(p, d), t, v)
    ensures Accepts(p.meaning, WideDocument(p, d), t, v)
  {
    var c := Comparison(t, t, d);
    assert c in BranchNeeds(o.anyOf, n.anyOf, d) || c in BranchNeeds(o.oneOf, n.oneOf, d)
           || c in BranchNeeds(o.allOf, n.allOf, d);
    assert Holds(p, c, v);
  }

  /** Exactly one of several carries where no two of the wide side's branches meet. */
  lemma {:induction false} OneCarries(p: Pair, o: Schema, n: Schema, d: Direction, v: Value)
    requires Readable(p) && Inherited(p, o, n, d, v) && SameComposition(o, n)
    requires Disjoint(p.meaning, WideDocument(p, d), List(o.oneOf))
    requires OneHolds(p.meaning, NarrowDocument(p, d), o.oneOf, v)
    ensures OneHolds(p.meaning, WideDocument(p, d), o.oneOf, v)
  {
    if o.oneOf.Branches? {
      var list := o.oneOf.list;
      var i :| OnlyHolds(p.meaning, NarrowDocument(p, d), list, i, v);
      BranchCarries(p, o, n, d, v, list[i]);
      assert OnlyHolds(p.meaning, WideDocument(p, d), list, i, v);
    }
  }

  /** Under `not` the inclusion turns round. */
  lemma {:induction false} NegationCarries(p: Pair, o: Schema, n: Schema, d: Direction, v: Value)
    requires Readable(p) && Inherited(p, o, n, d, v) && SameComposition(o, n) && o.negation.Is?
    requires !Accepts(p.meaning, NarrowDocument(p, d), o.negation.schema, v)
    ensures !Accepts(p.meaning, WideDocument(p, d), o.negation.schema, v)
  {
    if Object(o.negation) {
      var c := Comparison(o.negation.schema, n.negation.schema, Opposite(d));
      assert c in NegationNeeds(o, n, d);
      assert Holds(p, c, v);
    }
  }

  lemma {:induction false} AnyCarries(p: Pair, o: Schema, n: Schema, d: Direction, v: Value)
    requires Readable(p) && Inherited(p, o, n, d, v) && SameComposition(o, n)
    requires AnyHolds(p.meaning, NarrowDocument(p, d), o.anyOf, v)
    ensures AnyHolds(p.meaning, WideDocument(p, d), o.anyOf, v)
  {
    if o.anyOf.Branches? {
      var t :| t in o.anyOf.list && Accepts(p.meaning, NarrowDocument(p, d), t, v);
      BranchCarries(p, o, n, d, v, t);
    }
  }

  lemma {:induction false} AllCarry(p: Pair, o: Schema, n: Schema, d: Direction, v: Value)
    requires Readable(p) && Inherited(p, o, n, d, v) && SameComposition(o, n)
    requires AllHold(p.meaning, NarrowDocument(p, d), o.allOf, v)
    ensures AllHold(p.meaning, WideDocument(p, d), o.allOf, v)
  {
    if o.allOf.Branches? {
      forall t | t in o.allOf.list ensures Accepts(p.meaning, WideDocument(p, d), t, v) {
        BranchCarries(p, o, n, d, v, t);
      }
    }
  }

  lemma {:induction false} CompositionCarries(p: Pair, o: Schema, n: Schema, d: Direction, v: Value)
    requires Readable(p) && SameComposition(o, n) && Disjoint(p.meaning, WideDocument(p, d), List(o.oneOf))
    requires Inherited(p, o, n, d, v) && Composed(p.meaning, NarrowDocument(p, d), Narrow(o, n, d), v)
    ensures Composed(p.meaning, WideDocument(p, d), Wide(o, n, d), v)
  {
    ComposedReads(p.meaning, NarrowDocument(p, d), Narrow(o, n, d), v);
    ComposedReads(p.meaning, WideDocument(p, d), Wide(o, n, d), v);
    AnyCarries(p, o, n, d, v);
    AllCarry(p, o, n, d, v);
    OneCarries(p, o, n, d, v);
    if o.negation.Is? { NegationCarries(p, o, n, d, v); }
  }

  lemma {:induction false} Carries(p: Pair, o: Schema, n: Schema, d: Direction, v: Value)
    requires Readable(p) && Fit(o, n, d) && Inherited(p, o, n, d, v)
    requires Disjoint(p.meaning, WideDocument(p, d), List(Wide(o, n, d).oneOf)) && (d.Request? ==> Closes(o, n))
    requires AcceptsHere(p.meaning, NarrowDocument(p, d), Narrow(o, n, d), v)
    ensures AcceptsHere(p.meaning, WideDocument(p, d), Wide(o, n, d), v)
  {
    var m, a, b, x, y := p.meaning, NarrowDocument(p, d), WideDocument(p, d), Narrow(o, n, d), Wide(o, n, d);
    HereReads(m, a, x, v);
    HereReads(m, b, y, v);
    PlainCarries(m, o, n, d, v);
    NameCarries(p, o, n, d, v);
    CompositionCarries(p, o, n, d, v);
    if v.Record? {
      forall k | k in v.fields ensures Governed(m, b, Governing(y, k), v.fields[k]) {
        assert Governed(m, a, Governing(x, k), v.fields[k]);
        FieldCarries(p, o, n, d, v, k);
      }
    }
    if v.Items? && y.items.Is? {
      forall w | w in v.list ensures Accepts(m, b, y.items.schema, w) { ElementCarries(p, o, n, d, v, w); }
    }
  }

  // ----- the induction -----

  /** The comparisons a comparison rests on at the very same value. */
  ghost function Turns(p: Pair, c: Comparison): set<Comparison> {
    var o, n := Resolve(p.older.definitions, c.older), Resolve(p.newer.definitions, c.newer);
    if o.Some? && n.Some? then CompositionNeeds(o.value, n.value, c.direction) else {}
  }

  lemma {:induction false} TurnsRank(p: Pair, c: Comparison, x: Comparison)
    requires Readable(p) && x in Turns(p, c)
    ensures p.older.rank(x.older) < p.older.rank(c.older) && p.newer.rank(x.newer) < p.newer.rank(c.newer)
    ensures x in Rests(p.older.definitions, p.newer.definitions, c)
  {
    ResolvedBelow(p.older, c.older, x.older);
    ResolvedBelow(p.newer, c.newer, x.newer);
  }

  lemma {:induction false} BelowSmaller(w: Value, v: Value)
    requires Below(w, v)
    ensures Shape(w) < Shape(v) || (Shape(w) == Shape(v) && w < v)
  {
  }

  lemma {:induction false} ComparisonCarries(p: Pair, c: Comparison, v: Value)
    requires Readable(p) && Tame(p, c) && Fits(p.older.definitions, p.newer.definitions, c)
    requires forall x, w | x in Rests(p.older.definitions, p.newer.definitions, c) && Below(w, v) :: Holds(p, x, w)
    requires forall x | x in Turns(p, c) :: Holds(p, x, v)
    ensures Holds(p, c, v)
  {
    var older, newer, d := p.older.definitions, p.newer.definitions, c.direction;
    if Accepts(p.meaning, NarrowDocument(p, d), Narrow(c.older, c.newer, d), v) {
      AcceptedResolved(p.meaning, NarrowDocument(p, d), Narrow(c.older, c.newer, d), v);
      Carries(p, Resolve(older, c.older).value, Resolve(newer, c.newer).value, d, v);
      ResolvedAccepted(p.meaning, WideDocument(p, d), Wide(c.older, c.newer, d), v);
    }
  }

  /** `holds` is known for what `c` rests on below `v`, and for its turns at `v` itself. */
  ghost predicate Supported(rests: Comparison -> set<Comparison>, turns: Comparison -> set<Comparison>,
                            holds: (Comparison, Value) -> bool, c: Comparison, v: Value)
  {
    && (forall x, w | x in rests(c) && Below(w, v) :: holds(x, w))
    && (forall x | x in turns(c) :: holds(x, v))
  }

  /** A closed set of comparisons on which every supported comparison holds; turns lower the rank. */
  ghost predicate Inductive(all: set<Comparison>, rests: Comparison -> set<Comparison>,
                            turns: Comparison -> set<Comparison>, rank: Comparison -> nat,
                            holds: (Comparison, Value) -> bool)
  {
    && (forall x | x in all :: rests(x) <= all)
    && (forall x, y | y in turns(x) :: y in rests(x) && rank(y) < rank(x))
    && (forall x, w | x in all && Supported(rests, turns, holds, x, w) :: holds(x, w))
  }

  /** Induction: values get smaller, or stay while the rank falls. */
  lemma {:induction false} Throughout(
    all: set<Comparison>, rests: Comparison -> set<Comparison>, turns: Comparison -> set<Comparison>,
    rank: Comparison -> nat, holds: (Comparison, Value) -> bool, c: Comparison, v: Value)
    requires c in all && Inductive(all, rests, turns, rank, holds)
    ensures holds(c, v)
    decreases Shape(v), v, rank(c)
  {
    forall x, w | x in rests(c) && Below(w, v) ensures holds(x, w) {
      BelowSmaller(w, v);
      Throughout(all, rests, turns, rank, holds, x, w);
    }
    forall x | x in turns(c) ensures holds(x, v) {
      Throughout(all, rests, turns, rank, holds, x, v);
    }
    assert Supported(rests, turns, holds, c, v);
  }

  ghost function RestsOf(p: Pair): Comparison -> set<Comparison> {
    x => Rests(p.older.definitions, p.newer.definitions, x)
  }
  ghost function TurnsOf(p: Pair): Comparison -> set<Comparison> { x => Turns(p, x) }
  ghost function Rank(p: Pair, c: Comparison): nat { p.older.rank(c.older) + p.newer.rank(c.newer) }
  ghost function RankOf(p: Pair): Comparison -> nat { x => Rank(p, x) }
  ghost function HoldsOf(p: Pair): (Comparison, Value) -> bool
    requires Readable(p)
  {
    (x, w) => Holds(p, x, w)
  }

  lemma {:induction false} SupportedHolds(p: Pair, c: Comparison, v: Value)
    requires Readable(p) && Tame(p, c) && Fits(p.older.definitions, p.newer.definitions, c)
    requires Supported(RestsOf(p), TurnsOf(p), HoldsOf(p), c, v)
    ensures HoldsOf(p)(c, v)
  {
    var rests, turns, holds := RestsOf(p), TurnsOf(p), HoldsOf(p);
    forall x, w | x in Rests(p.older.definitions, p.newer.definitions, c) && Below(w, v) ensures Holds(p, x, w) {
      assert x in rests(c) && holds(x, w);
    }
    forall x | x in Turns(p, c) ensures Holds(p, x, v) { assert x in turns(c) && holds(x, v); }
    ComparisonCarries(p, c, v);
  }

  ghost predicate Sound(p: Pair, all: set<Comparison>)
    requires Readable(p)
  {
    Simulation(p.older.definitions, p.newer.definitions, all) && forall x | x in all :: Tame(p, x)
  }

  lemma {:induction false} SoundAt(p: Pair, all: set<Comparison>, x: Comparison)
    requires Readable(p) && Sound(p, all) && x in all
    ensures Tame(p, x) && Fits(p.older.definitions, p.newer.definitions, x) && RestsOf(p)(x) <= all
  {
  }

  lemma {:induction false} SoundInductive(p: Pair, all: set<Comparison>)
    requires Readable(p) && Sound(p, all)
    ensures Inductive(all, RestsOf(p), TurnsOf(p), RankOf(p), HoldsOf(p))
  {
    forall x | x in all ensures RestsOf(p)(x) <= all { SoundAt(p, all, x); }
    forall x, y | y in TurnsOf(p)(x) ensures y in RestsOf(p)(x) && RankOf(p)(y) < RankOf(p)(x) { TurnsRank(p, x, y); }
    forall x, w | x in all && Supported(RestsOf(p), TurnsOf(p), HoldsOf(p), x, w) ensures HoldsOf(p)(x, w) {
      SoundAt(p, all, x);
      SupportedHolds(p, x, w);
    }
  }

  /** In a simulation inside the fragment, every comparison is an inclusion, through recursive references as well. */
  lemma {:induction false} Included(p: Pair, all: set<Comparison>, c: Comparison, v: Value)
    requires Readable(p) && Sound(p, all) && c in all
    ensures Holds(p, c, v)
  {
    SoundInductive(p, all);
    Throughout(all, RestsOf(p), TurnsOf(p), RankOf(p), HoldsOf(p), c, v);
    assert HoldsOf(p)(c, v);
  }

  /** Every value that `s` accepts in one document, `t` accepts in the other. */
  ghost predicate Includes(m: Meaning, a: Document, s: Schema, b: Document, t: Schema)
    requires Guarded(a) && Guarded(b)
  {
    forall v | Accepts(m, a, s, v) :: Accepts(m, b, t, v)
  }

  lemma {:induction false} HoldsEverywhere(p: Pair, c: Comparison)
    requires Readable(p) && forall v :: Holds(p, c, v)
    ensures var d := c.direction;
            Includes(p.meaning, NarrowDocument(p, d), Narrow(c.older, c.newer, d),
                     WideDocument(p, d), Wide(c.older, c.newer, d))
  {
    var d := c.direction;
    forall v | Accepts(p.meaning, NarrowDocument(p, d), Narrow(c.older, c.newer, d), v)
      ensures Accepts(p.meaning, WideDocument(p, d), Wide(c.older, c.newer, d), v)
    {
      assert Holds(p, c, v);
    }
  }

  // ----- the theorem -----

  /** What is reached, cut out of a simulation, is a simulation. */
  lemma {:induction false} ReachedSimulation(older: Definitions, newer: Definitions, c: Comparison)
    returns (all: set<Comparison>)
    requires Similar(older, newer, c)
    ensures c in all && Simulation(older, newer, all) && forall x | x in all :: Reaches(older, newer, c, x)
  {
    var whole: set<Comparison> :| c in whole && Simulation(older, newer, whole);
    all := set x | x in whole && Reaches(older, newer, c, x);
    forall x | x in all ensures Fits(older, newer, x) && Rests(older, newer, x) <= all {
      forall y | y in Rests(older, newer, x) ensures y in all { ReachesOn(older, newer, c, x, y); }
    }
  }

  /** No response issue: every value the new schema accepts, the old one accepted. No request issue: every value the
      old schema accepted, the new one accepts. All it takes is that what can come up is in the fragment. */
  lemma {:induction false} NoIssuesInclude(p: Pair, c: Comparison)
    requires Readable(p) && Similar(p.older.definitions, p.newer.definitions, c)
    requires forall x | Reaches(p.older.definitions, p.newer.definitions, c, x) :: Tame(p, x)
    ensures c.direction.Response? ==> Includes(p.meaning, p.newer, c.newer, p.older, c.older)
    ensures c.direction.Request? ==> Includes(p.meaning, p.older, c.older, p.newer, c.newer)
  {
    var all := ReachedSimulation(p.older.definitions, p.newer.definitions, c);
    forall v ensures Holds(p, c, v) { Included(p, all, c, v); }
    HoldsEverywhere(p, c);
  }

  // ----- unchanged documents -----

  lemma {:induction false} FitsItself(s: Schema, d: Direction)
    ensures Fit(s, s, d)
  {
  }

  lemma {:induction false} NeedsItself(s: Schema, d: Direction, c: Comparison)
    requires c in Needs(s, s, d)
    ensures c.older == c.newer
  {
  }

  /** Every reference leads to a schema object, and so does every schema of property names. */
  ghost predicate Proper(defs: Definitions, s: Schema) {
    Resolve(defs, s).Some? && NamesWellFormed(Resolve(defs, s).value)
  }

  lemma {:induction false} SelfFits(defs: Definitions, s: Schema, d: Direction)
    requires Proper(defs, s)
    ensures Fits(defs, defs, Comparison(s, s, d))
    ensures forall x | x in Rests(defs, defs, Comparison(s, s, d)) :: x.older == x.newer
  {
    var r := Resolve(defs, s).value;
    FitsItself(r, d);
    forall x | x in Rests(defs, defs, Comparison(s, s, d)) ensures x.older == x.newer { NeedsItself(r, d, x); }
  }

  /** A document whose references and property names are proper is never reported against itself. */
  lemma {:induction false} UnchangedSimilar(defs: Definitions, s: Schema, d: Direction)
    requires forall x | x in Pool(defs, s) :: Proper(defs, x)
    ensures Similar(defs, defs, Comparison(s, s, d))
  {
    var universe := Universe(Pool(defs, s), Pool(defs, s));
    UniverseCloses(defs, defs, Comparison(s, s, d));
    var all := set c | c in universe && c.older == c.newer;
    forall c | c in all ensures Fits(defs, defs, c) && Rests(defs, defs, c) <= all {
      InUniverse(Pool(defs, s), Pool(defs, s), c);
      SelfFits(defs, c.older, c.direction);
      assert c == Comparison(c.older, c.older, c.direction);
    }
    assert Comparison(s, s, d) in all && Simulation(defs, defs, all);
  }
}
