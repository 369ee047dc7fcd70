/** The closure of a schema under its references, with the references renamed. */
module Selection {
  import opened Core
  import Ordering

  datatype SelectionError = ReferenceInvalid | DefinitionMissing

  const Marker := "$ref"
  const Prefix := "#/components/schemas/"

  predicate Local(v: Json) { v.Str? && Prefix <= v.text }
  function Target(v: Json): string requires Local(v) { v.text[|Prefix|..] }

  // ----- what one schema refers to and becomes -----

  predicate Prefixed(v: Json) {
    match v
    case Arr(items) => forall i :: 0 <= i < |items| ==> Prefixed(items[i])
    case Obj(fields) => forall i :: 0 <= i < |fields| ==>
                          if fields[i].0 == Marker then Local(fields[i].1) else Prefixed(fields[i].1)
    case _ => true
  }

  function Refs(v: Json): set<string>
    requires Prefixed(v)
  {
    match v
    case Arr(items) => set i, t | 0 <= i < |items| && t in Refs(items[i]) :: t
    case Obj(fields) =>
      (set i | 0 <= i < |fields| && fields[i].0 == Marker :: Target(fields[i].1))
      + (set i, t | 0 <= i < |fields| && fields[i].0 != Marker && t in Refs(fields[i].1) :: t)
    case _ => {}
  }

  function Renamed(v: Json): Json
    requires Prefixed(v)
  {
    match v
    case Arr(items) => Arr(seq(|items|, i requires 0 <= i < |items| => Renamed(items[i])))
    case Obj(fields) =>
      Obj(seq(|fields|, i requires 0 <= i < |fields| =>
                (fields[i].0, if fields[i].0 == Marker then Moved(fields[i].1) else Renamed(fields[i].1))))
    case _ => v
  }

  function Moved(v: Json): Json requires Local(v) { Str("#/$defs/" + Target(v)) }

  predicate FieldPrefixed(f: (string, Json)) { if f.0 == Marker then Local(f.1) else Prefixed(f.1) }

  function FieldRefs(f: (string, Json)): set<string>
    requires FieldPrefixed(f)
  {
    if f.0 == Marker then {Target(f.1)} else Refs(f.1)
  }

  function RenamedField(f: (string, Json)): (string, Json)
    requires FieldPrefixed(f)
  {
    (f.0, if f.0 == Marker then Moved(f.1) else Renamed(f.1))
  }

  lemma {:induction false} ItemsSplit(items: seq<Json>, i: nat)
    requires i < |items|
    ensures Prefixed(Arr(items[..i + 1])) <==> Prefixed(Arr(items[..i])) && Prefixed(items[i])
    ensures Prefixed(Arr(items[..i + 1])) ==>
              && Refs(Arr(items[..i + 1])) == Refs(Arr(items[..i])) + Refs(items[i])
              && Renamed(Arr(items[..i + 1])).items == Renamed(Arr(items[..i])).items + [Renamed(items[i])]
  {
    var n, m := items[..i + 1], items[..i];
    assert n[i] == items[i] && forall j :: 0 <= j < i ==> n[j] == m[j];
    if Prefixed(Arr(n)) {
      forall t | t in Refs(Arr(m)) + Refs(items[i]) ensures t in Refs(Arr(n)) {
        if t in Refs(items[i]) {
          assert t in Refs(n[i]);
        } else {
          var j :| 0 <= j < i && t in Refs(m[j]);
          assert t in Refs(n[j]);
        }
      }
    }
  }

  lemma {:induction false} ObjPrefixed(fields: seq<(string, Json)>)
    ensures Prefixed(Obj(fields)) <==> forall i :: 0 <= i < |fields| ==> FieldPrefixed(fields[i])
  {
  }

  lemma {:induction false} ObjRefs(fields: seq<(string, Json)>, t: string)
    requires Prefixed(Obj(fields))
    ensures t in Refs(Obj(fields))
            <==> exists i :: 0 <= i < |fields| && FieldPrefixed(fields[i]) && t in FieldRefs(fields[i])
  {
    if i :| 0 <= i < |fields| && FieldPrefixed(fields[i]) && t in FieldRefs(fields[i]) {
      if fields[i].0 == Marker { assert t == Target(fields[i].1); } else { assert t in Refs(fields[i].1); }
    }
    if t in Refs(Obj(fields)) {
      if i :| 0 <= i < |fields| && fields[i].0 == Marker && t == Target(fields[i].1) {
        assert FieldPrefixed(fields[i]) && t in FieldRefs(fields[i]);
      } else {
        var i :| 0 <= i < |fields| && fields[i].0 != Marker && t in Refs(fields[i].1);
        assert FieldPrefixed(fields[i]) && t in FieldRefs(fields[i]);
      }
    }
  }

  lemma {:induction false} FieldsSplitRefs(fields: seq<(string, Json)>, i: nat, t: string)
    requires i < |fields| && Prefixed(Obj(fields[..i + 1])) && Prefixed(Obj(fields[..i])) && FieldPrefixed(fields[i])
    ensures t in Refs(Obj(fields[..i + 1])) <==> t in Refs(Obj(fields[..i])) || t in FieldRefs(fields[i])
  {
    var n, m := fields[..i + 1], fields[..i];
    ObjRefs(n, t);
    ObjRefs(m, t);
    assert n[i] == fields[i];
    if j :| 0 <= j < |m| && FieldPrefixed(m[j]) && t in FieldRefs(m[j]) { assert n[j] == m[j]; }
    if j :| 0 <= j < |n| && FieldPrefixed(n[j]) && t in FieldRefs(n[j]) {
      if j < i { assert m[j] == n[j]; }
    }
  }

  lemma {:induction false} FieldsSplitRenamed(fields: seq<(string, Json)>, i: nat)
    requires i < |fields| && Prefixed(Obj(fields[..i + 1])) && Prefixed(Obj(fields[..i])) && FieldPrefixed(fields[i])
    ensures Renamed(Obj(fields[..i + 1])).fields == Renamed(Obj(fields[..i])).fields + [RenamedField(fields[i])]
  {
    var n, m := fields[..i + 1], fields[..i];
    assert n[i] == fields[i] && forall j :: 0 <= j < i ==> n[j] == m[j];
  }

  lemma {:induction false} FieldsSplit(fields: seq<(string, Json)>, i: nat)
    requires i < |fields|
    ensures Prefixed(Obj(fields[..i + 1])) <==> Prefixed(Obj(fields[..i])) && FieldPrefixed(fields[i])
    ensures Prefixed(Obj(fields[..i + 1])) ==>
              && Refs(Obj(fields[..i + 1])) == Refs(Obj(fields[..i])) + FieldRefs(fields[i])
              && Renamed(Obj(fields[..i + 1])).fields == Renamed(Obj(fields[..i])).fields + [RenamedField(fields[i])]
  {
    var n, m := fields[..i + 1], fields[..i];
    assert n[i] == fields[i] && forall j :: 0 <= j < i ==> n[j] == m[j];
    ObjPrefixed(n);
    ObjPrefixed(m);
    if Prefixed(Obj(n)) {
      FieldsSplitRenamed(fields, i);
      forall t ensures t in Refs(Obj(n)) <==> t in Refs(Obj(m)) + FieldRefs(fields[i]) {
        FieldsSplitRefs(fields, i, t);
      }
    }
  }

  // ----- the closure -----

  type Definitions = map<string, Json>

  /** Every name is defined and refers only to names of the set. */
  ghost predicate Complete(defs: Definitions, names: set<string>) {
    forall t | t in names :: t in defs && Prefixed(defs[t]) && Refs(defs[t]) <= names
  }

  /** Whatever can be reached from the names is well formed and defined. */
  ghost predicate Followable(defs: Definitions, names: set<string>) {
    exists all: set<string> :: names <= all && Complete(defs, all)
  }

  /** The smallest complete set that holds the names. */
  ghost predicate Least(defs: Definitions, names: set<string>, all: set<string>) {
    names <= all && Complete(defs, all) && Bounded(defs, names, {}, all)
  }

  /** Between two moments nothing was selected that the names do not reach. */
  ghost predicate Bounded(defs: Definitions, names: set<string>, before: set<string>, now: set<string>) {
    forall all: set<string> | names <= all && Complete(defs, all) :: now <= before + all
  }

  type Selected = map<string, Option<Json>>

  /** Between two moments exactly what the names reach was selected, renamed; nothing selected earlier was touched. */
  ghost predicate Progress(defs: Definitions, before: Selected, now: Selected, names: set<string>) {
    && (forall t | t in before :: t in now && now[t] == before[t])
    && now.Keys <= defs.Keys && names <= now.Keys
    && (forall t | t in now && t !in before :: Visited(defs, now, t))
    && Bounded(defs, names, before.Keys, now.Keys)
  }

  ghost predicate Visited(defs: Definitions, now: Selected, t: string)
    requires t in now
  {
    t in defs && Prefixed(defs[t]) && now[t] == Some(Renamed(defs[t])) && Refs(defs[t]) <= now.Keys
  }

  lemma {:induction false} ProgressJoin(
    defs: Definitions, a: Selected, b: Selected, c: Selected, first: set<string>, second: set<string>)
    requires Progress(defs, a, b, first) && Progress(defs, b, c, second)
    ensures Progress(defs, a, c, first + second)
  {
    forall t | t in c && t !in a ensures Visited(defs, c, t) {
      if t in b { assert Visited(defs, b, t); }
    }
    forall all: set<string> | first + second <= all && Complete(defs, all) ensures c.Keys <= a.Keys + all {
      assert b.Keys <= a.Keys + all && c.Keys <= b.Keys + all;
    }
  }

  lemma {:induction false} ProgressMarked(defs: Definitions, a: Selected, b: Selected, t: string)
    requires t !in a && t in defs && Prefixed(defs[t]) && Progress(defs, a[t := None], b, Refs(defs[t]))
    ensures Progress(defs, a, b[t := Some(Renamed(defs[t]))], {t})
  {
    var c := b[t := Some(Renamed(defs[t]))];
    assert t in a[t := None];
    forall s | s in c && s !in a ensures Visited(defs, c, s) {
      if s != t { assert Visited(defs, b, s); }
    }
    forall all: set<string> | {t} <= all && Complete(defs, all) ensures c.Keys <= a.Keys + all {
      assert t in all;
      assert b.Keys <= a[t := None].Keys + all;
    }
  }

  lemma {:induction false} FollowableStep(defs: Definitions, names: set<string>, fewer: set<string>)
    requires Followable(defs, names) && fewer <= names
    ensures Followable(defs, fewer)
    ensures forall t | t in names :: t in defs && Prefixed(defs[t]) && Followable(defs, Refs(defs[t]))
  {
    var all: set<string> :| names <= all && Complete(defs, all);
    assert fewer <= all;
    forall t | t in names ensures t in defs && Prefixed(defs[t]) && Followable(defs, Refs(defs[t])) {
      assert t in all;
    }
  }

  ghost predicate Sound(defs: Definitions, v: Json) { Prefixed(v) && Followable(defs, Refs(v)) }
  ghost predicate SoundField(defs: Definitions, f: (string, Json)) {
    FieldPrefixed(f) && Followable(defs, FieldRefs(f))
  }

  lemma {:induction false} SoundItem(defs: Definitions, items: seq<Json>, i: nat)
    requires Sound(defs, Arr(items)) && i < |items|
    ensures Sound(defs, items[i])
  {
    FollowableStep(defs, Refs(Arr(items)), Refs(items[i]));
  }

  lemma {:induction false} SoundMember(defs: Definitions, fields: seq<(string, Json)>, i: nat)
    requires Sound(defs, Obj(fields)) && i < |fields|
    ensures SoundField(defs, fields[i])
  {
    assert FieldPrefixed(fields[i]);
    FollowableStep(defs, Refs(Obj(fields)), FieldRefs(fields[i]));
  }

  /** What has been translated of a schema, and what that selected. */
  ghost predicate Translated(defs: Definitions, before: Selected, now: Selected, v: Json, r: Json) {
    Prefixed(v) && r == Renamed(v) && Progress(defs, before, now, Refs(v))
  }

  lemma {:induction false} ItemTranslated(
    defs: Definitions, a: Selected, b: Selected, c: Selected, items: seq<Json>, i: nat, done: seq<Json>, r: Json)
    requires i < |items| && Translated(defs, a, b, Arr(items[..i]), Arr(done)) && Translated(defs, b, c, items[i], r)
    ensures Translated(defs, a, c, Arr(items[..i + 1]), Arr(done + [r]))
  {
    ItemsSplit(items, i);
    ProgressJoin(defs, a, b, c, Refs(Arr(items[..i])), Refs(items[i]));
  }

  lemma {:induction false} FieldTranslated(
    defs: Definitions, a: Selected, b: Selected, c: Selected, fields: seq<(string, Json)>, i: nat,
    done: seq<(string, Json)>)
    requires i < |fields| && Translated(defs, a, b, Obj(fields[..i]), Obj(done))
    requires FieldPrefixed(fields[i]) && Progress(defs, b, c, FieldRefs(fields[i]))
    ensures Translated(defs, a, c, Obj(fields[..i + 1]), Obj(done + [RenamedField(fields[i])]))
  {
    FieldsSplit(fields, i);
    ProgressJoin(defs, a, b, c, Refs(Obj(fields[..i])), FieldRefs(fields[i]));
  }

  /** Translates schemas, selecting the definitions they refer to. A name is marked before its definition is visited, so
      recursive definitions end. */
  class Translator {
    const definitions: Definitions
    var selected: Selected

    constructor (definitions: Definitions)
      ensures this.definitions == definitions && selected == map[]
    {
      this.definitions, selected := definitions, map[];
    }

    ghost function Left(): set<string> reads this { definitions.Keys - selected.Keys }

    method Translate(v: Json) returns (r: Result<Json, SelectionError>)
      requires selected.Keys <= definitions.Keys
      modifies this
      ensures r.Ok? ==> Translated(definitions, old(selected), selected, v, r.value)
      ensures Sound(definitions, v) ==> r.Ok?
      decreases |Left()|, v, 0
    {
      match v
      case Arr(items) => r := TranslateItems(v, items);
      case Obj(fields) => r := TranslateMembers(v, fields);
      case _ => return Ok(v);
    }

    method TranslateItems(v: Json, items: seq<Json>) returns (r: Result<Json, SelectionError>)
      requires v == Arr(items) && selected.Keys <= definitions.Keys
      modifies this
      ensures r.Ok? ==> Translated(definitions, old(selected), selected, v, r.value)
      ensures Sound(definitions, v) ==> r.Ok?
      decreases |Left()|, items, 1
    {
      var done := [];
      for i := 0 to |items|
        invariant Translated(definitions, old(selected), selected, Arr(items[..i]), Arr(done))
      {
        Subsets(Left(), old(Left()));
        if Sound(definitions, v) { SoundItem(definitions, items, i); }
        ghost var before := selected;
        var item := Translate(items[i]);
        if item.Err? { return item; }
        ItemTranslated(definitions, old(selected), before, selected, items, i, done, item.value);
        done := done + [item.value];
      }
      assert items[..|items|] == items;
      return Ok(Arr(done));
    }

    method TranslateMembers(v: Json, fields: seq<(string, Json)>) returns (r: Result<Json, SelectionError>)
      requires v == Obj(fields) && selected.Keys <= definitions.Keys
      modifies this
      ensures r.Ok? ==> Translated(definitions, old(selected), selected, v, r.value)
      ensures Sound(definitions, v) ==> r.Ok?
      decreases |Left()|, fields, 1
    {
      var done := [];
      for i := 0 to |fields|
        invariant Translated(definitions, old(selected), selected, Obj(fields[..i]), Obj(done))
      {
        Subsets(Left(), old(Left()));
        if Sound(definitions, v) { SoundMember(definitions, fields, i); }
        ghost var before := selected;
        var field := TranslateField(fields[i]);
        if field.Err? { return Err(field.error); }
        FieldTranslated(definitions, old(selected), before, selected, fields, i, done);
        done := done + [field.value];
      }
      assert fields[..|fields|] == fields;
      return Ok(Obj(done));
    }

    method TranslateField(f: (string, Json)) returns (r: Result<(string, Json), SelectionError>)
      requires selected.Keys <= definitions.Keys
      modifies this
      ensures r.Ok? ==> FieldPrefixed(f) && r.value == RenamedField(f)
                        && Progress(definitions, old(selected), selected, FieldRefs(f))
      ensures SoundField(definitions, f) ==> r.Ok?
      decreases |Left()|, f.1, 1
    {
      if f.0 == Marker {
        if !Local(f.1) { return Err(ReferenceInvalid); }
        var target := Target(f.1);
        if target !in selected {
          if SoundField(definitions, f) { FollowableStep(definitions, {target}, {}); }
          ghost var before := selected;
          selected := selected[target := None];
          if target !in definitions { return Err(DefinitionMissing); }
          assert old(Left()) == Left() + {target};
          var inner := Translate(definitions[target]);
          if inner.Err? { return Err(inner.error); }
          ProgressMarked(definitions, before, selected, target);
          selected := selected[target := Some(inner.value)];
        }
        return Ok((f.0, Moved(f.1)));
      } else {
        var inner := Translate(f.1);
        if inner.Err? { return Err(inner.error); }
        return Ok((f.0, inner.value));
      }
    }
  }

  /** The document of one definition: itself, renamed, with exactly the definitions it reaches, renamed. Refused
      exactly when something it reaches is undefined or not a local reference. */
  method SchemaDocument(definitions: Definitions, name: string)
    returns (r: Result<(Json, Selected), SelectionError>)
    ensures r.Ok? <==> name in definitions && Sound(definitions, definitions[name])
    ensures r.Ok? ==>
              && r.value.0 == Renamed(definitions[name])
              && Least(definitions, Refs(definitions[name]), r.value.1.Keys)
              && forall t | t in r.value.1 :: r.value.1[t] == Some(Renamed(definitions[t]))
  {
    if name !in definitions { return Err(DefinitionMissing); }
    var translator := new Translator(definitions);
    var root := translator.Translate(definitions[name]);
    if root.Err? { return Err(root.error); }
    return Ok((root.value, translator.selected));
  }

  // ----- the selected document mentions what it refers to -----

  lemma {:induction false} SegmentAfter(head: string, t: string)
    requires '/' !in t
    ensures Ordering.LastSegment(head + "/" + t) == t
  {
    var s := head + "/" + t;
    if t == "" {
      assert s[|s| - 1] == '/';
    } else {
      var front := t[..|t| - 1];
      assert s[..|s| - 1] == head + "/" + front;
      SegmentAfter(head, front);
      assert s[|s| - 1] == t[|t| - 1] && t == front + [t[|t| - 1]];
      assert t[|t| - 1] in t;
    }
  }

  lemma {:induction false} MovedMentions(v: Json)
    requires Local(v) && '/' !in Target(v)
    ensures Ordering.LastSegment(Moved(v).text) == Target(v)
  {
    assert "#/$defs/" + Target(v) == "#/$defs" + "/" + Target(v);
    SegmentAfter("#/$defs", Target(v));
  }

  lemma {:induction false} ItemMentions(items: seq<Json>, moved: seq<Json>)
    requires Prefixed(Arr(items)) && |items| == |moved|
    requires forall i :: 0 <= i < |items| ==> Ordering.Mentions(moved[i]) == Refs(items[i])
    ensures Ordering.Mentions(Arr(moved)) == Refs(Arr(items))
  {
    forall t | t in Refs(Arr(items)) ensures t in Ordering.Mentions(Arr(moved)) {
      var i :| 0 <= i < |items| && t in Refs(items[i]);
      assert t in Ordering.Mentions(moved[i]);
    }
    forall t | t in Ordering.Mentions(Arr(moved)) ensures t in Refs(Arr(items)) {
      var i :| 0 <= i < |moved| && t in Ordering.Mentions(moved[i]);
      assert t in Refs(items[i]);
    }
  }

  lemma {:induction false} MemberMentions(fields: seq<(string, Json)>, moved: seq<(string, Json)>)
    requires Prefixed(Obj(fields)) && |fields| == |moved|
    requires forall i :: 0 <= i < |fields| ==> FieldPrefixed(fields[i]) && moved[i] == RenamedField(fields[i])
    requires forall i :: 0 <= i < |fields| && fields[i].0 == Marker ==>
               moved[i].1.Str? && Ordering.LastSegment(moved[i].1.text) == Target(fields[i].1)
    requires forall i :: 0 <= i < |fields| && fields[i].0 != Marker ==>
               Ordering.Mentions(moved[i].1) == Refs(fields[i].1)
    ensures Ordering.Mentions(Obj(moved)) == Refs(Obj(fields))
  {
    forall t | t in Refs(Obj(fields)) ensures t in Ordering.Mentions(Obj(moved)) {
      ObjRefs(fields, t);
      var i :| 0 <= i < |fields| && FieldPrefixed(fields[i]) && t in FieldRefs(fields[i]);
      if fields[i].0 == Marker {
        assert moved[i].0 == "$ref" && moved[i].1.Str? && t == Ordering.LastSegment(moved[i].1.text);
      } else {
        assert t in Ordering.Mentions(moved[i].1);
      }
    }
    forall t | t in Ordering.Mentions(Obj(moved)) ensures t in Refs(Obj(fields)) {
      ObjRefs(fields, t);
      if i :| 0 <= i < |moved| && moved[i].0 == "$ref" && moved[i].1.Str?
              && t == Ordering.LastSegment(moved[i].1.text)
      {
        assert t in FieldRefs(fields[i]);
      } else {
        var i :| 0 <= i < |moved| && t in Ordering.Mentions(moved[i].1);
        assert t in FieldRefs(fields[i]);
      }
    }
  }

  /** After renaming, a definition mentions exactly the names it referred to. */
  lemma {:induction false} RenamedMentions(v: Json)
    requires Prefixed(v) && forall t | t in Refs(v) :: '/' !in t
    ensures Ordering.Mentions(Renamed(v)) == Refs(v)
  {
    match v
    case Arr(items) =>
      forall i | 0 <= i < |items| ensures Ordering.Mentions(Renamed(items[i])) == Refs(items[i]) {
        RenamedMentions(items[i]);
      }
      ItemMentions(items, Renamed(v).items);
    case Obj(fields) =>
      forall i | 0 <= i < |fields| && fields[i].0 == Marker
        ensures Ordering.LastSegment(Moved(fields[i].1).text) == Target(fields[i].1)
      {
        assert Target(fields[i].1) in Refs(v);
        MovedMentions(fields[i].1);
      }
      forall i | 0 <= i < |fields| && fields[i].0 != Marker
        ensures Ordering.Mentions(Renamed(fields[i].1)) == Refs(fields[i].1)
      {
        forall t | t in Refs(fields[i].1) ensures t in Refs(v) {}
        RenamedMentions(fields[i].1);
      }
      MemberMentions(fields, Renamed(v).fields);
    case _ =>
  }

  // ----- what renaming and referring come to -----

  const Moves := "#/$defs/"

  /** Every reference points into the document's own definitions. */
  predicate Relocated(v: Json) {
    match v
    case Arr(items) => forall i :: 0 <= i < |items| ==> Relocated(items[i])
    case Obj(fields) => forall i :: 0 <= i < |fields| ==>
                          if fields[i].0 == Marker then fields[i].1.Str? && Moves <= fields[i].1.text
                          else Relocated(fields[i].1)
    case _ => true
  }

  /** Undoes the renaming. */
  function Restored(v: Json): Json
    requires Relocated(v)
  {
    match v
    case Arr(items) => Arr(seq(|items|, i requires 0 <= i < |items| => Restored(items[i])))
    case Obj(fields) => Obj(seq(|fields|, i requires 0 <= i < |fields| => RestoredField(fields[i])))
    case _ => v
  }

  function RestoredField(f: (string, Json)): (string, Json)
    requires if f.0 == Marker then f.1.Str? && Moves <= f.1.text else Relocated(f.1)
  {
    (f.0, if f.0 == Marker then Str(Prefix + f.1.text[|Moves|..]) else Restored(f.1))
  }

  lemma {:induction false} MovedBack(v: Json)
    requires Local(v)
    ensures Moves <= Moved(v).text && Str(Prefix + Moved(v).text[|Moves|..]) == v
  {
    assert Moved(v).text == Moves + Target(v);
    assert Moved(v).text[|Moves|..] == Target(v) && v.text == Prefix + Target(v);
  }

  /** Renaming changes the references and nothing else: it can be undone. */
  lemma {:induction false} RenamedRestored(v: Json)
    requires Prefixed(v)
    ensures Relocated(Renamed(v)) && Restored(Renamed(v)) == v
  {
    match v
    case Arr(items) =>
      forall i | 0 <= i < |items| ensures Relocated(Renamed(items[i])) && Restored(Renamed(items[i])) == items[i] {
        RenamedRestored(items[i]);
      }
      assert Restored(Renamed(v)).items == items;
    case Obj(fields) =>
      forall i | 0 <= i < |fields|
        ensures var f := Renamed(v).fields[i];
                && (if f.0 == Marker then f.1.Str? && Moves <= f.1.text else Relocated(f.1))
                && RestoredField(f) == fields[i]
      {
        if fields[i].0 == Marker { MovedBack(fields[i].1); } else { RenamedRestored(fields[i].1); }
      }
      assert Restored(Renamed(v)).fields == fields;
    case _ =>
  }

  /** The value at a place, each step a position in a list or an object. */
  function At(v: Json, path: seq<nat>): Option<Json> {
    if path == [] then Some(v)
    else if v.Arr? && path[0] < |v.items| then At(v.items[path[0]], path[1..])
    else if v.Obj? && path[0] < |v.fields| then At(v.fields[path[0]].1, path[1..])
    else None
  }

  /** Some object at some place has a reference with this text. */
  ghost predicate RefersTo(v: Json, text: string) { exists path: seq<nat>, i: nat :: RefersAt(v, path, i, text) }

  predicate RefersAt(v: Json, path: seq<nat>, i: nat, text: string) {
    && At(v, path).Some? && At(v, path).value.Obj? && i < |At(v, path).value.fields|
    && At(v, path).value.fields[i] == (Marker, Str(text))
  }

  lemma {:induction false} StepIn(v: Json, k: nat, path: seq<nat>, i: nat, text: string)
    requires v.Arr? ==> k < |v.items| && RefersAt(v.items[k], path, i, text)
    requires v.Obj? ==> k < |v.fields| && RefersAt(v.fields[k].1, path, i, text)
    requires v.Arr? || v.Obj?
    ensures RefersAt(v, [k] + path, i, text)
  {
    assert ([k] + path)[1..] == path;
  }

  /** The names referred to are those of the references found anywhere in the value. */
  lemma {:induction false} RefsMean(v: Json, t: string)
    requires Prefixed(v)
    ensures t in Refs(v) <==> RefersTo(v, Prefix + t)
  {
    if t in Refs(v) { RefFound(v, t); }
    if path: seq<nat>, i: nat :| RefersAt(v, path, i, Prefix + t) { FoundRef(v, t, path, i); }
  }

  lemma {:induction false} RefFound(v: Json, t: string)
    requires Prefixed(v) && t in Refs(v)
    ensures RefersTo(v, Prefix + t)
  {
    match v
    case Arr(items) =>
      var k :| 0 <= k < |items| && t in Refs(items[k]);
      RefFound(items[k], t);
      var path: seq<nat>, i: nat :| RefersAt(items[k], path, i, Prefix + t);
      StepIn(v, k, path, i, Prefix + t);
    case Obj(fields) =>
      if k :| 0 <= k < |fields| && fields[k].0 == Marker && t == Target(fields[k].1) {
        assert fields[k].1.text == Prefix + t;
        assert RefersAt(v, [], k, Prefix + t);
      } else {
        var k :| 0 <= k < |fields| && fields[k].0 != Marker && t in Refs(fields[k].1);
        RefFound(fields[k].1, t);
        var path: seq<nat>, i: nat :| RefersAt(fields[k].1, path, i, Prefix + t);
        StepIn(v, k, path, i, Prefix + t);
      }
  }

  lemma {:induction false} FoundRef(v: Json, t: string, path: seq<nat>, i: nat)
    requires Prefixed(v) && RefersAt(v, path, i, Prefix + t)
    ensures t in Refs(v)
    decreases |path|
  {
    if path == [] {
      assert v.fields[i] == (Marker, Str(Prefix + t));
      assert (Prefix + t)[|Prefix|..] == t && Target(v.fields[i].1) == t;
    } else if v.Arr? {
      FoundRef(v.items[path[0]], t, path[1..], i);
    } else {
      var f := v.fields[path[0]];
      if f.0 == Marker {
        assert At(f.1, path[1..]).Some?;
        LeafOnly(f.1, path[1..], i, Prefix + t);
      } else {
        FoundRef(f.1, t, path[1..], i);
      }
    }
  }

  lemma {:induction false} LeafOnly(v: Json, path: seq<nat>, i: nat, text: string)
    requires v.Str?
    ensures !RefersAt(v, path, i, text)
  {
  }
}
