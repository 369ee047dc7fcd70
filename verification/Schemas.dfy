/** JSON Schema documents as the compatibility checker reads them, and which values a schema accepts. */
module Schemas {
  import opened Core

  datatype Value =
    | Nothing
    | Truth(b: bool)
    | Number(r: real)
    | Text(s: string)
    | Items(list: seq<Value>)
    | Record(fields: map<string, Value>)

  datatype Bound =
    | Minimum | ExclusiveMinimum | MinLength | MinItems | MinProperties
    | Maximum | ExclusiveMaximum | MaxLength | MaxItems | MaxProperties

  datatype Child = Absent | Is(schema: Schema)
  datatype Branches = NoBranches | Branches(list: seq<Schema>)
  datatype Properties = NoProperties | Properties(named: map<string, Schema>)
  /** What the fields without a property of their own are held to. */
  datatype Rule = AllowAny | Forbid | Rest(schema: Schema)

  /** A boolean schema, or one schema object: every keyword may be left unstated. `notes` are the keywords that
      constrain nothing. */
  datatype Schema = Schema(
    literal: Option<bool>,
    ref: Option<string>,
    types: Option<seq<string>>,
    choices: Option<seq<Value>>,
    constant: Option<Value>,
    names: Child,
    unique: Option<bool>,
    required: Option<seq<string>>,
    properties: Properties,
    additional: Child,
    items: Child,
    anyOf: Branches,
    oneOf: Branches,
    allOf: Branches,
    negation: Child,
    discriminator: Option<Value>,
    format: Option<string>,
    writeOnly: Option<bool>,
    pattern: Option<string>,
    bounds: map<Bound, real>,
    notes: map<string, Value>)

  const Anything := Schema(None, None, None, None, None, Absent, None, None, NoProperties, Absent, Absent, NoBranches,
                           NoBranches, NoBranches, Absent, None, None, None, None, map[], map[])

  /** The meaning of regular expressions and formats, which the checker never looks into. */
  datatype Meaning = Meaning(matches: (string, string) -> bool, conforms: (string, Value) -> bool)

  type Definitions = map<string, Schema>

  /** The definitions of a document, with a rank that falls along every step that stays at the same value. */
  datatype Document = Document(definitions: Definitions, rank: Schema -> nat)

  // ----- what a schema says -----

  function Types(s: Schema): set<string> {
    if s.types.Some? then set t | t in s.types.value else {}
  }

  function Allowed(s: Schema): Option<set<Value>> {
    var listed := if s.choices.Some? then Some(set x | x in s.choices.value) else None;
    if s.constant.None? then listed
    else if listed.None? then Some({s.constant.value})
    else Some(listed.value * {s.constant.value})
  }

  function Required(s: Schema): set<string> {
    if s.required.Some? then set x | x in s.required.value else {}
  }

  function Named(s: Schema): map<string, Schema> {
    if s.properties.Properties? then s.properties.named else map[]
  }

  function Others(s: Schema): Rule {
    if s.additional.Absent? || s.additional.schema.literal == Some(true) then AllowAny
    else if s.additional.schema.literal == Some(false) then Forbid
    else Rest(s.additional.schema)
  }

  /** What a field of the given name is held to: its property, or whatever governs the other names. */
  function Governing(s: Schema, k: string): Rule {
    if k in Named(s) then Rest(Named(s)[k]) else Others(s)
  }

  function List(b: Branches): seq<Schema> {
    if b.Branches? then b.list else []
  }

  // ----- which values it accepts -----

  predicate HasType(v: Value, t: string) {
    match v
    case Nothing => t == "null"
    case Truth(_) => t == "boolean"
    case Number(r) => t == "number" || (t == "integer" && r == r.Floor as real)
    case Text(_) => t == "string"
    case Items(_) => t == "array"
    case Record(_) => t == "object"
  }

  predicate Within(b: Bound, x: real, v: Value) {
    match b
    case Minimum => v.Number? ==> v.r >= x
    case ExclusiveMinimum => v.Number? ==> v.r > x
    case MinLength => v.Text? ==> |v.s| as real >= x
    case MinItems => v.Items? ==> |v.list| as real >= x
    case MinProperties => v.Record? ==> |v.fields| as real >= x
    case Maximum => v.Number? ==> v.r <= x
    case ExclusiveMaximum => v.Number? ==> v.r < x
    case MaxLength => v.Text? ==> |v.s| as real <= x
    case MaxItems => v.Items? ==> |v.list| as real <= x
    case MaxProperties => v.Record? ==> |v.fields| as real <= x
  }

  predicate Distinct(list: seq<Value>) {
    forall i, j :: 0 <= i < j < |list| ==> list[i] != list[j]
  }

  ghost predicate Typed(s: Schema, v: Value) {
    Types(s) == {} || exists t :: t in Types(s) && HasType(v, t)
  }

  /** The keywords that look at the value alone, types aside. */
  ghost predicate Plain(m: Meaning, s: Schema, v: Value) {
    && (s.choices.Some? ==> v in s.choices.value)
    && (s.constant.Some? ==> v == s.constant.value)
    && (s.unique == Some(true) && v.Items? ==> Distinct(v.list))
    && (v.Record? ==> Required(s) <= v.fields.Keys)
    && (s.format.Some? ==> m.conforms(s.format.value, v))
    && (s.pattern.Some? && v.Text? ==> m.matches(s.pattern.value, v.s))
    && (forall b :: b in s.bounds ==> Within(b, s.bounds[b], v))
  }

  /** A step from a schema to one that judges the same value. */
  predicate InPlace(defs: Definitions, s: Schema, t: Schema) {
    || (s.ref.Some? && s.ref.value in defs && t == defs[s.ref.value])
    || t in List(s.anyOf) || t in List(s.oneOf) || t in List(s.allOf) || s.negation == Is(t)
  }

  ghost predicate Guarded(d: Document) {
    forall s, t :: InPlace(d.definitions, s, t) ==> d.rank(t) < d.rank(s)
  }

  function Shape(v: Value): nat { if v.Text? then 0 else 1 }

  /** A boolean schema accepts everything or nothing (section 4.3.2 of JSON Schema Core 2020-12); a reference and the
      keywords beside it must all be met (section 8.2.3.1). */
  ghost predicate Accepts(m: Meaning, d: Document, s: Schema, v: Value)
    requires Guarded(d)
    decreases Shape(v), v, d.rank(s), 4
  {
    if s.literal.Some? then s.literal.value
    else
      && (s.ref.Some? ==>
            && s.ref.value in d.definitions && InPlace(d.definitions, s, d.definitions[s.ref.value])
            && Accepts(m, d, d.definitions[s.ref.value], v))
      && AcceptsHere(m, d, s, v)
  }

  /** The keywords of the schema itself. */
  ghost predicate AcceptsHere(m: Meaning, d: Document, s: Schema, v: Value)
    requires Guarded(d)
    decreases Shape(v), v, d.rank(s), 3
  {
    && Typed(s, v) && Plain(m, s, v)
    && (v.Record? && s.names.Is? ==> forall k | k in v.fields :: Accepts(m, d, s.names.schema, Text(k)))
    && (v.Record? ==> forall k | k in v.fields :: Governing(s, k) != Forbid)
    && (v.Record? ==> forall k | k in v.fields && Governing(s, k).Rest? ::
                        Accepts(m, d, Governing(s, k).schema, v.fields[k]))
    && (v.Items? && s.items.Is? ==> forall x | x in v.list :: Accepts(m, d, s.items.schema, x))
    && Composed(m, d, s, v)
  }

  /** The keywords that judge the same value by other schemas. */
  ghost predicate Composed(m: Meaning, d: Document, s: Schema, v: Value)
    requires Guarded(d)
    decreases Shape(v), v, d.rank(s), 2
  {
    MeetsAny(m, d, s, v) && MeetsAll(m, d, s, v) && MeetsNot(m, d, s, v) && MeetsOne(m, d, s, v)
  }

  ghost predicate MeetsAny(m: Meaning, d: Document, s: Schema, v: Value)
    requires Guarded(d)
    decreases Shape(v), v, d.rank(s), 1
  {
    s.anyOf.Branches? ==> exists t | t in s.anyOf.list :: InPlace(d.definitions, s, t) && Accepts(m, d, t, v)
  }

  ghost predicate MeetsAll(m: Meaning, d: Document, s: Schema, v: Value)
    requires Guarded(d)
    decreases Shape(v), v, d.rank(s), 1
  {
    s.allOf.Branches? ==> forall t | t in s.allOf.list :: InPlace(d.definitions, s, t) && Accepts(m, d, t, v)
  }

  ghost predicate MeetsNot(m: Meaning, d: Document, s: Schema, v: Value)
    requires Guarded(d)
    decreases Shape(v), v, d.rank(s), 1
  {
    s.negation.Is? ==> InPlace(d.definitions, s, s.negation.schema) && !Accepts(m, d, s.negation.schema, v)
  }

  ghost predicate MeetsOne(m: Meaning, d: Document, s: Schema, v: Value)
    requires Guarded(d)
    decreases Shape(v), v, d.rank(s), 1
  {
    s.oneOf.Branches? ==> exists i :: Only(m, d, s, i, v)
  }

  /** Of the alternatives of `oneOf`, the one at `i` accepts the value and no other does. */
  ghost predicate Only(m: Meaning, d: Document, s: Schema, i: int, v: Value)
    requires Guarded(d)
    decreases Shape(v), v, d.rank(s), 0
  {
    var list := List(s.oneOf);
    && 0 <= i < |list| && InPlace(d.definitions, s, list[i]) && Accepts(m, d, list[i], v)
    && forall j | 0 <= j < |list| && j != i :: InPlace(d.definitions, s, list[j]) && !Accepts(m, d, list[j], v)
  }
}
