/** When alternatives exclude each other, which is what `oneOf` needs to be comparable. */
module Alternatives {
  import opened Core
  import opened Schemas
  import opened Overlays
  import opened Inclusion

  // ----- told apart by what is written -----

  /** Both state types and share none; whole numbers are numbers. */
  ghost predicate TypesApart(a: Schema, b: Schema) {
    && Types(a) != {} && Types(b) != {} && Types(a) !! Types(b)
    && !("number" in Types(a) && "integer" in Types(b)) && !("integer" in Types(a) && "number" in Types(b))
  }

  /** The keywords that a tag must meet: its own, or those of the definition it refers to. */
  function Stating(defs: Definitions, s: Schema): Schema {
    if s.ref.Some? && s.ref.value in defs then defs[s.ref.value] else s
  }

  /** A property that must take one of the values returned. */
  predicate Tags(defs: Definitions, s: Schema, k: string) {
    && Types(s) == {"object"} && k in Required(s) && k in Named(s)
    && Named(s)[k].literal.None? && Stating(defs, Named(s)[k]).literal.None?
    && Allowed(Stating(defs, Named(s)[k])).Some?
  }

  /** Both are objects that must carry the field `k`, with values that never agree. */
  predicate TaggedApart(defs: Definitions, a: Schema, b: Schema, k: string) {
    && Tags(defs, a, k) && Tags(defs, b, k)
    && Allowed(Stating(defs, Named(a)[k])).value !! Allowed(Stating(defs, Named(b)[k])).value
  }

  ghost predicate WrittenApart(defs: Definitions, a: Schema, b: Schema) {
    && a.literal.None? && b.literal.None?
    && (TypesApart(a, b) || exists k :: TaggedApart(defs, a, b, k))
  }

  // ----- told apart through references and compositions -----

  /** `a` and `b` are told apart where they stand, or by what either refers to or is made of. */
  ghost predicate Apart(d: Document, a: Schema, b: Schema)
    requires Guarded(d)
    decreases d.rank(a) + d.rank(b), 1
  {
    || a.literal == Some(false) || b.literal == Some(false)
    || WrittenApart(d.definitions, a, b)
    || PartsApart(d, a, b) || PartsApart(d, b, a)
  }

  /** Something that every value of `a` must meet is apart from `b`: its definition, each of its alternatives, or one
      of its conjuncts. */
  ghost predicate PartsApart(d: Document, a: Schema, b: Schema)
    requires Guarded(d)
    decreases d.rank(a) + d.rank(b), 0
  {
    && a.literal.None?
    && (|| (a.ref.Some? && a.ref.value in d.definitions && InPlace(d.definitions, a, d.definitions[a.ref.value])
            && Apart(d, d.definitions[a.ref.value], b))
        || (a.oneOf.Branches? && forall x | x in a.oneOf.list :: InPlace(d.definitions, a, x) && Apart(d, x, b))
        || (a.anyOf.Branches? && forall x | x in a.anyOf.list :: InPlace(d.definitions, a, x) && Apart(d, x, b))
        || (a.allOf.Branches? && exists x | x in a.allOf.list :: InPlace(d.definitions, a, x) && Apart(d, x, b)))
  }

  // ----- and so without a common value -----

  lemma {:induction false} TypesExclude(a: Schema, b: Schema, v: Value)
    requires TypesApart(a, b) && Typed(a, v)
    ensures !Typed(b, v)
  {
    var t :| t in Types(a) && HasType(v, t);
    forall u | u in Types(b) ensures !HasType(v, u) { assert u !in Types(a) && t !in Types(b); }
  }

  lemma {:induction false} StatingHolds(m: Meaning, d: Document, s: Schema, v: Value)
    requires Guarded(d) && s.literal.None? && Stating(d.definitions, s).literal.None? && Accepts(m, d, s, v)
    ensures AcceptsHere(m, d, Stating(d.definitions, s), v)
  {
  }

  lemma {:induction false} TagHolds(m: Meaning, d: Document, s: Schema, k: string, v: Value)
    requires Guarded(d) && AcceptsHere(m, d, s, v) && Tags(d.definitions, s, k)
    ensures v.Record? && k in v.fields && v.fields[k] in Allowed(Stating(d.definitions, Named(s)[k])).value
  {
    HereReads(m, d, s, v);
    var t :| t in Types(s) && HasType(v, t);
    assert Governed(m, d, Governing(s, k), v.fields[k]);
    var tag := Named(s)[k];
    StatingHolds(m, d, tag, v.fields[k]);
    AllowedMeans(Stating(d.definitions, tag), v.fields[k]);
  }

  lemma {:induction false} WrittenExclude(m: Meaning, d: Document, a: Schema, b: Schema, v: Value)
    requires Guarded(d) && WrittenApart(d.definitions, a, b) && AcceptsHere(m, d, a, v)
    ensures !AcceptsHere(m, d, b, v)
  {
    if TypesApart(a, b) {
      TypesExclude(a, b, v);
    } else {
      var k :| TaggedApart(d.definitions, a, b, k);
      TagHolds(m, d, a, k, v);
      if AcceptsHere(m, d, b, v) {
        TagHolds(m, d, b, k, v);
        assert false;
      }
    }
  }

  ghost predicate Excludes(m: Meaning, d: Document, a: Schema, b: Schema, v: Value)
    requires Guarded(d)
  {
    !(Accepts(m, d, a, v) && Accepts(m, d, b, v))
  }

  lemma {:induction false} PartsExclude(m: Meaning, d: Document, a: Schema, b: Schema, v: Value)
    requires Guarded(d) && PartsApart(d, a, b)
    ensures Excludes(m, d, a, b, v)
    decreases d.rank(a) + d.rank(b), 0
  {
    forall x | InPlace(d.definitions, a, x) && Apart(d, x, b) ensures Excludes(m, d, x, b, v) {
      ApartExcludes(m, d, x, b, v);
    }
    if Accepts(m, d, a, v) { MetBelow(m, d, a, v); }
  }

  /** A value that a schema accepts is accepted by its definition, by one of its alternatives and by all conjuncts. */
  lemma {:induction false} MetBelow(m: Meaning, d: Document, a: Schema, v: Value)
    requires Guarded(d) && a.literal.None? && Accepts(m, d, a, v)
    ensures a.ref.Some? ==> a.ref.value in d.definitions && Accepts(m, d, d.definitions[a.ref.value], v)
    ensures a.oneOf.Branches? ==> exists x | x in a.oneOf.list :: Accepts(m, d, x, v)
    ensures a.anyOf.Branches? ==> exists x | x in a.anyOf.list :: Accepts(m, d, x, v)
    ensures a.allOf.Branches? ==> forall x | x in a.allOf.list :: Accepts(m, d, x, v)
  {
    ComposedReads(m, d, a, v);
    if a.oneOf.Branches? {
      var i :| OnlyHolds(m, d, a.oneOf.list, i, v);
      assert a.oneOf.list[i] in a.oneOf.list;
    }
  }

  lemma {:induction false} ApartExcludes(m: Meaning, d: Document, a: Schema, b: Schema, v: Value)
    requires Guarded(d) && Apart(d, a, b)
    ensures Excludes(m, d, a, b, v)
    decreases d.rank(a) + d.rank(b), 1
  {
    if a.literal != Some(false) && b.literal != Some(false) {
      if WrittenApart(d.definitions, a, b) {
        if AcceptsHere(m, d, a, v) { WrittenExclude(m, d, a, b, v); }
      } else if PartsApart(d, a, b) {
        PartsExclude(m, d, a, b, v);
      } else {
        PartsExclude(m, d, b, a, v);
      }
    }
  }

  /** Alternatives pairwise told apart exclude each other. */
  lemma {:induction false} ApartDisjoint(m: Meaning, d: Document, list: seq<Schema>)
    requires Guarded(d) && forall i, j | 0 <= i < j < |list| :: Apart(d, list[i], list[j])
    ensures Disjoint(m, d, list)
  {
    forall i, j, v | 0 <= i < j < |list| && Accepts(m, d, list[i], v) ensures !Accepts(m, d, list[j], v) {
      ApartExcludes(m, d, list[i], list[j], v);
    }
  }
}
