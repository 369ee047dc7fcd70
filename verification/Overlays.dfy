/** Laying keywords over a definition, as the checker does, against meeting both, as a schema means. */
module Overlays {
  import opened Core
  import opened Schemas
  import opened Plans

  // ----- the keywords that look at a value alone -----

  /** What is written beside the reference takes nothing away that the definition asks of a value alone. */
  ghost predicate KeepsPlain(target: Schema, s: Schema) {
    && (s.types.Some? && Types(target) != {} ==> Types(s) != {} && Types(s) <= Types(target))
    && (s.choices.Some? && target.choices.Some? ==> forall x | x in s.choices.value :: x in target.choices.value)
    && (s.constant.Some? && target.constant.Some? ==> s.constant == target.constant)
    && (s.unique.Some? && target.unique == Some(true) ==> s.unique == Some(true))
    && (s.required.Some? ==> Required(target) <= Required(s))
    && (s.format.Some? && target.format.Some? ==> s.format == target.format)
    && (s.pattern.Some? && target.pattern.Some? ==> s.pattern == target.pattern)
    && (forall b | b in target.bounds && b in s.bounds :: Tighter(s, target, b))
  }

  lemma {:induction false} BoundCarries(b: Bound, x: real, y: real, v: Value)
    requires Within(b, x, v) && if Lower(b) then x >= y else x <= y
    ensures Within(b, y, v)
  {
    EveryBound(b);
  }

  lemma {:induction false} MergedTyped(target: Schema, s: Schema, v: Value)
    ensures Typed(target, v) && Typed(s, v) ==> Typed(Merge(target, s), v)
    ensures KeepsPlain(target, s) && Typed(Merge(target, s), v) ==> Typed(target, v) && Typed(s, v)
  {
    var r := Merge(target, s);
    assert s.types.Some? ==> Types(r) == Types(s);
    assert s.types.None? ==> Types(r) == Types(target) && Types(s) == {};
  }

  lemma {:induction false} MergedBounds(target: Schema, s: Schema, v: Value, b: Bound)
    requires b in target.bounds || b in s.bounds
    ensures b in Merge(target, s).bounds
    ensures Merge(target, s).bounds[b] == if b in s.bounds then s.bounds[b] else target.bounds[b]
    ensures b in target.bounds && KeepsPlain(target, s) && Within(b, Merge(target, s).bounds[b], v) ==>
              Within(b, target.bounds[b], v)
  {
    if b in target.bounds && b in s.bounds && KeepsPlain(target, s) && Within(b, s.bounds[b], v) {
      assert Tighter(s, target, b);
      BoundCarries(b, s.bounds[b], target.bounds[b], v);
    }
  }

  lemma {:induction false} PlainBoth(m: Meaning, target: Schema, s: Schema, v: Value)
    requires Plain(m, target, v) && Plain(m, s, v)
    ensures Plain(m, Merge(target, s), v)
  {
    forall b | b in Merge(target, s).bounds ensures Within(b, Merge(target, s).bounds[b], v) {
      MergedBounds(target, s, v, b);
    }
  }

  lemma {:induction false} PlainMerged(m: Meaning, target: Schema, s: Schema, v: Value)
    requires KeepsPlain(target, s) && Plain(m, Merge(target, s), v)
    ensures Plain(m, target, v) && Plain(m, s, v)
  {
    var r := Merge(target, s);
    forall b | b in target.bounds ensures Within(b, target.bounds[b], v) {
      MergedBounds(target, s, v, b);
      assert Within(b, r.bounds[b], v);
    }
    forall b | b in s.bounds ensures Within(b, s.bounds[b], v) {
      MergedBounds(target, s, v, b);
      assert Within(b, r.bounds[b], v);
    }
  }

  // ----- the keywords that look further -----

  ghost predicate AnyHolds(m: Meaning, d: Document, b: Branches, v: Value)
    requires Guarded(d)
  {
    b.Branches? ==> exists t | t in b.list :: Accepts(m, d, t, v)
  }

  ghost predicate AllHold(m: Meaning, d: Document, b: Branches, v: Value)
    requires Guarded(d)
  {
    b.Branches? ==> forall t | t in b.list :: Accepts(m, d, t, v)
  }

  ghost predicate OneHolds(m: Meaning, d: Document, b: Branches, v: Value)
    requires Guarded(d)
  {
    b.Branches? ==> exists i :: OnlyHolds(m, d, b.list, i, v)
  }

  ghost predicate OnlyHolds(m: Meaning, d: Document, list: seq<Schema>, i: int, v: Value)
    requires Guarded(d)
  {
    && 0 <= i < |list| && Accepts(m, d, list[i], v)
    && forall j | 0 <= j < |list| && j != i :: !Accepts(m, d, list[j], v)
  }

  ghost predicate NotHolds(m: Meaning, d: Document, c: Child, v: Value)
    requires Guarded(d)
  {
    c.Is? ==> !Accepts(m, d, c.schema, v)
  }

  lemma {:induction false} OnlyReads(m: Meaning, d: Document, s: Schema, i: int, v: Value)
    requires Guarded(d)
    ensures Only(m, d, s, i, v) <==> OnlyHolds(m, d, List(s.oneOf), i, v)
  {
    var list := List(s.oneOf);
    forall j | 0 <= j < |list| ensures InPlace(d.definitions, s, list[j]) { assert list[j] in list; }
    if Only(m, d, s, i, v) {
      forall j | 0 <= j < |list| && j != i ensures !Accepts(m, d, list[j], v) {}
    }
    if OnlyHolds(m, d, list, i, v) {
      forall j | 0 <= j < |list| && j != i ensures InPlace(d.definitions, s, list[j]) && !Accepts(m, d, list[j], v) {}
    }
  }

  lemma {:induction false} OneReads(m: Meaning, d: Document, s: Schema, v: Value)
    requires Guarded(d)
    ensures MeetsOne(m, d, s, v) <==> OneHolds(m, d, s.oneOf, v)
  {
    if s.oneOf.Branches? {
      if i :| Only(m, d, s, i, v) { OnlyReads(m, d, s, i, v); }
      if i :| OnlyHolds(m, d, s.oneOf.list, i, v) { OnlyReads(m, d, s, i, v); }
    }
  }

  lemma {:induction false} AnyReads(m: Meaning, d: Document, s: Schema, v: Value)
    requires Guarded(d)
    ensures MeetsAny(m, d, s, v) <==> AnyHolds(m, d, s.anyOf, v)
  {
    if s.anyOf.Branches? && AnyHolds(m, d, s.anyOf, v) {
      var t :| t in s.anyOf.list && Accepts(m, d, t, v);
      assert InPlace(d.definitions, s, t);
    }
  }

  lemma {:induction false} AllRead(m: Meaning, d: Document, s: Schema, v: Value)
    requires Guarded(d)
    ensures MeetsAll(m, d, s, v) <==> AllHold(m, d, s.allOf, v)
  {
    if s.allOf.Branches? {
      forall t | t in s.allOf.list ensures InPlace(d.definitions, s, t) {}
    }
  }

  lemma {:induction false} NotReads(m: Meaning, d: Document, s: Schema, v: Value)
    requires Guarded(d)
    ensures MeetsNot(m, d, s, v) <==> NotHolds(m, d, s.negation, v)
  {
    assert s.negation.Is? ==> InPlace(d.definitions, s, s.negation.schema);
  }

  lemma {:induction false} ComposedReads(m: Meaning, d: Document, s: Schema, v: Value)
    requires Guarded(d)
    ensures Composed(m, d, s, v)
            <==> AnyHolds(m, d, s.anyOf, v) && AllHold(m, d, s.allOf, v) && NotHolds(m, d, s.negation, v)
                 && OneHolds(m, d, s.oneOf, v)
  {
    AnyReads(m, d, s, v);
    AllRead(m, d, s, v);
    NotReads(m, d, s, v);
    OneReads(m, d, s, v);
  }

  ghost predicate NamesHold(m: Meaning, d: Document, c: Child, v: Value)
    requires Guarded(d)
  {
    v.Record? && c.Is? ==> forall k | k in v.fields :: Accepts(m, d, c.schema, Text(k))
  }

  ghost predicate ElementsHold(m: Meaning, d: Document, c: Child, v: Value)
    requires Guarded(d)
  {
    v.Items? && c.Is? ==> forall x | x in v.list :: Accepts(m, d, c.schema, x)
  }

  /** One field is accepted by whatever governs its name. */
  ghost predicate Governed(m: Meaning, d: Document, g: Rule, x: Value)
    requires Guarded(d)
  {
    g != Forbid && (g.Rest? ==> Accepts(m, d, g.schema, x))
  }

  ghost predicate FieldsHold(m: Meaning, d: Document, s: Schema, v: Value)
    requires Guarded(d)
  {
    v.Record? ==> forall k | k in v.fields :: Governed(m, d, Governing(s, k), v.fields[k])
  }

  lemma {:induction false} HereReads(m: Meaning, d: Document, s: Schema, v: Value)
    requires Guarded(d)
    ensures AcceptsHere(m, d, s, v)
            <==> Typed(s, v) && Plain(m, s, v) && NamesHold(m, d, s.names, v) && FieldsHold(m, d, s, v)
                 && ElementsHold(m, d, s.items, v) && Composed(m, d, s, v)
  {
    if v.Record? && FieldsHold(m, d, s, v) {
      assert forall k | k in v.fields :: Governed(m, d, Governing(s, k), v.fields[k]);
    }
  }

  // ----- both at once -----

  predicate Silent(s: Schema) { s.properties.NoProperties? && s.additional.Absent? }
  predicate OneChild(a: Child, b: Child) { a.Absent? || b.Absent? || a == b }
  predicate OneList(a: Branches, b: Branches) { a.NoBranches? || b.NoBranches? || a == b }

  /** The object rules are written on one side only, or twice alike. */
  predicate KeepsFields(target: Schema, s: Schema) {
    Silent(s) || Silent(target) || (s.properties == target.properties && s.additional == target.additional)
  }

  /** Laying the schema over the definition loses nothing that either asks. */
  ghost predicate Keeps(target: Schema, s: Schema) {
    && KeepsPlain(target, s) && KeepsFields(target, s)
    && OneChild(target.names, s.names) && OneChild(target.items, s.items) && OneChild(target.negation, s.negation)
    && OneList(target.anyOf, s.anyOf) && OneList(target.oneOf, s.oneOf) && OneList(target.allOf, s.allOf)
  }

  /** It adds nothing either: the definition's rule for other names does not catch a name that only the definition
      lists. */
  predicate Blends(target: Schema, s: Schema) {
    s.properties.Properties? && s.additional.Absent? && !Others(target).AllowAny?
    ==> Named(target).Keys <= Named(s).Keys
  }

  lemma {:induction false} FieldsBoth(m: Meaning, d: Document, target: Schema, s: Schema, v: Value)
    requires Guarded(d) && Blends(target, s) && FieldsHold(m, d, target, v) && FieldsHold(m, d, s, v)
    ensures FieldsHold(m, d, Merge(target, s), v)
  {
    var r := Merge(target, s);
    if v.Record? {
      forall k | k in v.fields ensures Governed(m, d, Governing(r, k), v.fields[k]) {
        assert Governed(m, d, Governing(target, k), v.fields[k]) && Governed(m, d, Governing(s, k), v.fields[k]);
        assert Governing(r, k) == Governing(target, k) || Governing(r, k) == Governing(s, k)
               || Governing(r, k) == AllowAny;
      }
    }
  }

  lemma {:induction false} FieldsMerged(m: Meaning, d: Document, target: Schema, s: Schema, v: Value)
    requires Guarded(d) && KeepsFields(target, s) && FieldsHold(m, d, Merge(target, s), v)
    ensures FieldsHold(m, d, target, v) && FieldsHold(m, d, s, v)
  {
    var r := Merge(target, s);
    if v.Record? {
      forall k | k in v.fields
        ensures Governed(m, d, Governing(target, k), v.fields[k]) && Governed(m, d, Governing(s, k), v.fields[k])
      {
        assert Governed(m, d, Governing(r, k), v.fields[k]);
        assert Silent(s) ==> Governing(s, k) == AllowAny;
        assert Silent(target) ==> Governing(target, k) == AllowAny;
      }
    }
  }

  lemma {:induction false} ComposedBoth(m: Meaning, d: Document, target: Schema, s: Schema, v: Value)
    requires Guarded(d) && Composed(m, d, target, v) && Composed(m, d, s, v)
    ensures Composed(m, d, Merge(target, s), v)
  {
    ComposedReads(m, d, target, v);
    ComposedReads(m, d, s, v);
    ComposedReads(m, d, Merge(target, s), v);
  }

  lemma {:induction false} ComposedMerged(m: Meaning, d: Document, target: Schema, s: Schema, v: Value)
    requires Guarded(d) && Keeps(target, s) && Composed(m, d, Merge(target, s), v)
    ensures Composed(m, d, target, v) && Composed(m, d, s, v)
  {
    ComposedReads(m, d, target, v);
    ComposedReads(m, d, s, v);
    ComposedReads(m, d, Merge(target, s), v);
  }

  /** A value that meets both the definition and what is beside the reference meets the overlay. */
  lemma {:induction false} BothMerged(m: Meaning, d: Document, target: Schema, s: Schema, v: Value)
    requires Guarded(d) && Blends(target, s) && AcceptsHere(m, d, target, v) && AcceptsHere(m, d, s, v)
    ensures AcceptsHere(m, d, Merge(target, s), v)
  {
    HereReads(m, d, target, v);
    HereReads(m, d, s, v);
    HereReads(m, d, Merge(target, s), v);
    MergedTyped(target, s, v);
    PlainBoth(m, target, s, v);
    FieldsBoth(m, d, target, s, v);
    ComposedBoth(m, d, target, s, v);
  }

  /** A value that meets the overlay meets the definition and what is beside the reference. */
  lemma {:induction false} MergedBoth(m: Meaning, d: Document, target: Schema, s: Schema, v: Value)
    requires Guarded(d) && Keeps(target, s) && AcceptsHere(m, d, Merge(target, s), v)
    ensures AcceptsHere(m, d, target, v) && AcceptsHere(m, d, s, v)
  {
    HereReads(m, d, target, v);
    HereReads(m, d, s, v);
    HereReads(m, d, Merge(target, s), v);
    MergedTyped(target, s, v);
    PlainMerged(m, target, s, v);
    FieldsMerged(m, d, target, s, v);
    ComposedMerged(m, d, target, s, v);
  }

  // ----- what the checker compares, against what the schema means -----

  /** The resolved schema asks no more than the schema. */
  predicate Blended(defs: Definitions, s: Schema) {
    s.literal.None? && s.ref.Some? && s.ref.value in defs ==> Blends(defs[s.ref.value], s)
  }

  /** The resolved schema asks no less: one step of reference was enough, nothing was overridden, and an empty schema
      does not stand for a boolean one that refuses everything. */
  ghost predicate Kept(defs: Definitions, s: Schema) {
    && s.literal != Some(false)
    && (s.ref.Some? && s.ref.value in defs ==> defs[s.ref.value].ref.None? && Keeps(defs[s.ref.value], s))
  }

  lemma {:induction false} AnythingHere(m: Meaning, d: Document, v: Value)
    requires Guarded(d)
    ensures AcceptsHere(m, d, Anything, v) && Accepts(m, d, Anything, v)
  {
    HereReads(m, d, Anything, v);
    ComposedReads(m, d, Anything, v);
  }

  lemma {:induction false} AcceptedResolved(m: Meaning, d: Document, s: Schema, v: Value)
    requires Guarded(d) && Blended(d.definitions, s) && Resolve(d.definitions, s).Some? && Accepts(m, d, s, v)
    ensures AcceptsHere(m, d, Resolve(d.definitions, s).value, v)
  {
    if s.literal.Some? {
      AnythingHere(m, d, v);
    } else if s.ref.Some? {
      BothMerged(m, d, d.definitions[s.ref.value], s, v);
    }
  }

  lemma {:induction false} ResolvedAccepted(m: Meaning, d: Document, s: Schema, v: Value)
    requires Guarded(d) && Kept(d.definitions, s) && Resolve(d.definitions, s).Some?
    requires AcceptsHere(m, d, Resolve(d.definitions, s).value, v)
    ensures Accepts(m, d, s, v)
  {
    if s.literal.None? && s.ref.Some? {
      MergedBoth(m, d, d.definitions[s.ref.value], s, v);
      assert InPlace(d.definitions, s, d.definitions[s.ref.value]);
    }
  }

  /** Where nothing is overridden or caught, the one-step overlay means what the schema means. */
  lemma {:induction false} ResolvedMeans(m: Meaning, d: Document, s: Schema, v: Value)
    requires Guarded(d) && Blended(d.definitions, s) && Kept(d.definitions, s) && Resolve(d.definitions, s).Some?
    ensures Accepts(m, d, s, v) <==> AcceptsHere(m, d, Resolve(d.definitions, s).value, v)
  {
    if Accepts(m, d, s, v) { AcceptedResolved(m, d, s, v); }
    if AcceptsHere(m, d, Resolve(d.definitions, s).value, v) { ResolvedAccepted(m, d, s, v); }
  }

  /** Every branch of a resolved schema lies below the schema it was resolved from. */
  lemma {:induction false} ResolvedBelow(d: Document, s: Schema, t: Schema)
    requires Guarded(d) && Resolve(d.definitions, s).Some?
    requires var r := Resolve(d.definitions, s).value;
             t in List(r.anyOf) || t in List(r.oneOf) || t in List(r.allOf) || r.negation == Is(t)
    ensures d.rank(t) < d.rank(s)
  {
    if InPlace(d.definitions, s, t) {
    } else {
      var target := d.definitions[s.ref.value];
      assert InPlace(d.definitions, s, target) && InPlace(d.definitions, target, t);
    }
  }
}
