/** What the comparison does not see: each clause of the fragment is needed. */
module Gaps {
  import opened Core
  import opened Schemas
  import opened Plans
  import opened Compatibility
  import opened Overlays
  import opened Inclusion

  function Reference(name: string): Schema { Anything.(ref := Some(name)) }
  function OfTypes(types: seq<string>): Schema { Anything.(types := Some(types)) }

  lemma {:induction false} LeavesSettle(
    fits: Comparison -> bool, rests: Comparison -> set<Comparison>, c: Comparison, leaves: set<Comparison>)
    requires fits(c) && rests(c) <= leaves
    requires forall x | x in leaves :: fits(x) && rests(x) == {}
    ensures forall x | x in {c} + leaves :: fits(x) && rests(x) <= {c} + leaves
  {
  }

  lemma {:induction false} LeavesSimilar(older: Definitions, newer: Definitions, c: Comparison, leaves: set<Comparison>)
    requires Fits(older, newer, c) && Rests(older, newer, c) <= leaves
    requires forall x | x in leaves :: Fits(older, newer, x) && Rests(older, newer, x) == {}
    ensures Similar(older, newer, c)
  {
    LeavesSettle(x => Fits(older, newer, x), x => Rests(older, newer, x), c, leaves);
    assert c in {c} + leaves && Simulation(older, newer, {c} + leaves);
  }

  // ----- a property added to an open object -----

  function WithProperty(k: string, s: Schema): Schema { Anything.(properties := Properties(map[k := s])) }

  lemma {:induction false} AddedPropertyUnseen(older: Definitions, newer: Definitions, k: string, s: Schema)
    ensures Similar(older, newer, Comparison(Anything, WithProperty(k, s), Request))
  {
    var c := Comparison(Anything, WithProperty(k, s), Request);
    assert Rests(older, newer, c) == {};
    LeavesSimilar(older, newer, c, {});
  }

  lemma {:induction false} WithPropertyAccepts(m: Meaning, d: Document, k: string, s: Schema, v: Value)
    requires Guarded(d)
    ensures Accepts(m, d, WithProperty(k, s), v) <==> (v.Record? && k in v.fields ==> Accepts(m, d, s, v.fields[k]))
  {
    var t := WithProperty(k, s);
    HereReads(m, d, t, v);
    ComposedReads(m, d, t, v);
    assert Typed(t, v) && Plain(m, t, v);
    assert forall j :: Governing(t, j) == if j == k then Rest(s) else AllowAny;
    if v.Record? && k in v.fields {
      assert Governed(m, d, Governing(t, k), v.fields[k]) <==> Accepts(m, d, s, v.fields[k]);
    }
  }

  ghost predicate AcceptsAll(m: Meaning, d: Document, s: Schema)
    requires Guarded(d)
  {
    forall w :: Accepts(m, d, s, w)
  }

  lemma {:induction false} AddedConstrains(p: Pair, k: string, s: Schema, w: Value)
    requires Readable(p) && Includes(p.meaning, p.older, Anything, p.newer, WithProperty(k, s))
    ensures Accepts(p.meaning, p.newer, s, w)
  {
    var v := Record(map[k := w]);
    AnythingHere(p.meaning, p.older, v);
    assert Accepts(p.meaning, p.newer, WithProperty(k, s), v);
    WithPropertyAccepts(p.meaning, p.newer, k, s, v);
  }

  lemma {:induction false} AddedHarmless(p: Pair, k: string, s: Schema, v: Value)
    requires Readable(p) && AcceptsAll(p.meaning, p.newer, s)
    ensures Accepts(p.meaning, p.newer, WithProperty(k, s), v)
  {
    WithPropertyAccepts(p.meaning, p.newer, k, s, v);
    if v.Record? && k in v.fields { assert Accepts(p.meaning, p.newer, s, v.fields[k]); }
  }

  /** Giving an open object a named property is never reported for requests, yet it is harmless exactly when the
      property accepts every value. */
  lemma {:induction false} AddedProperty(p: Pair, k: string, s: Schema)
    requires Readable(p)
    ensures Similar(p.older.definitions, p.newer.definitions, Comparison(Anything, WithProperty(k, s), Request))
    ensures Includes(p.meaning, p.older, Anything, p.newer, WithProperty(k, s))
            <==> AcceptsAll(p.meaning, p.newer, s)
  {
    AddedPropertyUnseen(p.older.definitions, p.newer.definitions, k, s);
    if Includes(p.meaning, p.older, Anything, p.newer, WithProperty(k, s)) {
      forall w ensures Accepts(p.meaning, p.newer, s, w) { AddedConstrains(p, k, s, w); }
    } else if AcceptsAll(p.meaning, p.newer, s) {
      forall v ensures Accepts(p.meaning, p.newer, WithProperty(k, s), v) { AddedHarmless(p, k, s, v); }
    }
  }

  // ----- a reference to a bare reference -----

  lemma {:induction false} ReferenceAccepts(m: Meaning, d: Document, name: string, v: Value)
    requires Guarded(d) && name in d.definitions
    ensures Accepts(m, d, Reference(name), v) <==> Accepts(m, d, d.definitions[name], v)
  {
    var s := Reference(name);
    assert InPlace(d.definitions, s, d.definitions[name]);
    HereReads(m, d, s, v);
    ComposedReads(m, d, s, v);
  }

  /** Only the first hop of a chain of references is followed, so whatever the second hop leads to goes unseen. */
  lemma {:induction false} ReferenceChain(p: Pair, first: string, second: string, d: Direction)
    requires Readable(p) && first in p.older.definitions && first in p.newer.definitions
    requires p.older.definitions[first] == p.newer.definitions[first] == Reference(second)
    ensures Similar(p.older.definitions, p.newer.definitions, Comparison(Reference(first), Reference(first), d))
    ensures Includes(p.meaning, p.older, Reference(first), p.newer, Reference(first))
            <==> Includes(p.meaning, p.older, Reference(second), p.newer, Reference(second))
  {
    var c := Comparison(Reference(first), Reference(first), d);
    var older, newer := p.older.definitions, p.newer.definitions;
    assert Merge(Reference(second), Reference(first)) == Reference(second);
    assert Rests(older, newer, c) == {};
    LeavesSimilar(older, newer, c, {});
    forall v
      ensures Accepts(p.meaning, p.older, Reference(first), v) <==> Accepts(p.meaning, p.older, Reference(second), v)
    {
      ReferenceAccepts(p.meaning, p.older, first, v);
    }
    forall v
      ensures Accepts(p.meaning, p.newer, Reference(first), v) <==> Accepts(p.meaning, p.newer, Reference(second), v)
    {
      ReferenceAccepts(p.meaning, p.newer, first, v);
    }
  }

  // ----- definitions that only state types -----

  predicate Takes(types: seq<string>, v: Value) { exists t :: t in types && HasType(v, t) }

  lemma {:induction false} TypedAccepts(m: Meaning, d: Document, name: string, types: seq<string>, v: Value)
    requires Guarded(d) && name in d.definitions && d.definitions[name] == OfTypes(types) && types != []
    ensures Accepts(m, d, Reference(name), v) <==> Takes(types, v)
  {
    var s := OfTypes(types);
    ReferenceAccepts(m, d, name, v);
    HereReads(m, d, s, v);
    ComposedReads(m, d, s, v);
    assert types[0] in Types(s);
  }

  /** One value of every kind that types can tell apart. */
  const Samples := [Nothing, Truth(true), Number(0.0), Number(0.5), Text(""), Items([]), Record(map[])]

  function SampleOf(v: Value): Value {
    match v
    case Nothing => Nothing
    case Truth(_) => Truth(true)
    case Number(r) => if r == r.Floor as real then Number(0.0) else Number(0.5)
    case Text(_) => Text("")
    case Items(_) => Items([])
    case Record(_) => Record(map[])
  }

  lemma {:induction false} SampleStands(types: seq<string>, v: Value)
    ensures SampleOf(v) in Samples && (Takes(types, SampleOf(v)) <==> Takes(types, v))
  {
    match v {
      case Nothing => assert Samples[0] == SampleOf(v);
      case Truth(_) => assert Samples[1] == SampleOf(v);
      case Number(r) => assert Samples[2] == Number(0.0) && Samples[3] == Number(0.5);
      case Text(_) => assert Samples[4] == SampleOf(v);
      case Items(_) => assert Samples[5] == SampleOf(v);
      case Record(_) => assert Samples[6] == SampleOf(v);
    }
    assert forall t :: HasType(SampleOf(v), t) <==> HasType(v, t);
  }

  // ----- exactly one of several branches -----

  function OneOf(x: Schema, y: Schema): Schema { Anything.(oneOf := Branches([x, y])) }

  lemma {:induction false} TwoHold(m: Meaning, d: Document, x: Schema, y: Schema, v: Value)
    requires Guarded(d)
    ensures OneHolds(m, d, Branches([x, y]), v) <==> (Accepts(m, d, x, v) <==> !Accepts(m, d, y, v))
  {
    var list := [x, y];
    forall i | OnlyHolds(m, d, list, i, v) ensures Accepts(m, d, x, v) <==> !Accepts(m, d, y, v) {
      assert Accepts(m, d, list[i], v) && !Accepts(m, d, list[1 - i], v);
    }
    if Accepts(m, d, x, v) && !Accepts(m, d, y, v) {
      assert OnlyHolds(m, d, list, 0, v);
    } else if Accepts(m, d, y, v) && !Accepts(m, d, x, v) {
      assert OnlyHolds(m, d, list, 1, v);
    }
  }

  lemma {:induction false} OneOfAccepts(m: Meaning, d: Document, x: Schema, y: Schema, v: Value)
    requires Guarded(d)
    ensures Accepts(m, d, OneOf(x, y), v) <==> (Accepts(m, d, x, v) <==> !Accepts(m, d, y, v))
  {
    TwoHold(m, d, x, y, v);
    HereReads(m, d, OneOf(x, y), v);
    ComposedReads(m, d, OneOf(x, y), v);
  }

  lemma {:induction false} OneOfUnseen(older: Definitions, newer: Definitions, x: Schema, y: Schema, d: Direction)
    requires Fits(older, newer, Comparison(x, x, d)) && Rests(older, newer, Comparison(x, x, d)) == {}
    requires Fits(older, newer, Comparison(y, y, d)) && Rests(older, newer, Comparison(y, y, d)) == {}
    ensures Similar(older, newer, Comparison(OneOf(x, y), OneOf(x, y), d))
  {
    FitsItself(OneOf(x, y), d);
    OneOfNeeds(x, y, d);
    LeavesSimilar(older, newer, Comparison(OneOf(x, y), OneOf(x, y), d), {Comparison(x, x, d), Comparison(y, y, d)});
  }

  lemma {:induction false} OneOfNeeds(x: Schema, y: Schema, d: Direction)
    ensures Needs(OneOf(x, y), OneOf(x, y), d) <= {Comparison(x, x, d), Comparison(y, y, d)}
  {
    var s := OneOf(x, y);
    assert forall t :: t in List(s.oneOf) ==> t == x || t == y;
    assert Needs(s, s, d) == BranchNeeds(s.oneOf, s.oneOf, d);
  }

  lemma {:induction false} WiderTypes(
    older: Definitions, newer: Definitions, name: string, xs: seq<string>, ys: seq<string>, c: Comparison)
    requires name in older && name in newer && older[name] == OfTypes(xs) && newer[name] == OfTypes(ys)
    requires xs != [] && forall t :: t in xs ==> t in ys
    requires c == Comparison(Reference(name), Reference(name), Request)
    ensures Fits(older, newer, c) && Rests(older, newer, c) == {}
  {
    assert Merge(older[name], Reference(name)) == older[name];
    assert Merge(newer[name], Reference(name)) == newer[name];
    assert xs[0] in Types(older[name]) && xs[0] in Types(newer[name]);
  }

  const Either := OneOf(Reference("A"), Reference("B"))

  /** `A` is of types `a`, and `B` goes from `b` to at least as many types `c`. */
  ghost predicate Widening(older: Definitions, newer: Definitions, a: seq<string>, b: seq<string>, c: seq<string>) {
    && a != [] && b != [] && (forall t :: t in b ==> t in c)
    && older == map["A" := OfTypes(a), "B" := OfTypes(b)] && newer == map["A" := OfTypes(a), "B" := OfTypes(c)]
  }

  lemma {:induction false} WidenedUnseen(
    older: Definitions, newer: Definitions, a: seq<string>, b: seq<string>, c: seq<string>)
    requires Widening(older, newer, a, b, c)
    ensures Similar(older, newer, Comparison(Either, Either, Request))
  {
    WiderTypes(older, newer, "A", a, a, Comparison(Reference("A"), Reference("A"), Request));
    WiderTypes(older, newer, "B", b, c, Comparison(Reference("B"), Reference("B"), Request));
    OneOfUnseen(older, newer, Reference("A"), Reference("B"), Request);
  }

  lemma {:induction false} EitherAccepts(m: Meaning, d: Document, a: seq<string>, b: seq<string>, v: Value)
    requires Guarded(d) && d.definitions == map["A" := OfTypes(a), "B" := OfTypes(b)] && a != [] && b != []
    ensures Accepts(m, d, Either, v) <==> (Takes(a, v) <==> !Takes(b, v))
  {
    OneOfAccepts(m, d, Reference("A"), Reference("B"), v);
    TypedAccepts(m, d, "A", a, v);
    TypedAccepts(m, d, "B", b, v);
  }

  /** A value that was accepted through `A` alone must not be taken by the widened branch. */
  predicate Spared(a: seq<string>, b: seq<string>, c: seq<string>, v: Value) {
    Takes(a, v) && !Takes(b, v) ==> !Takes(c, v)
  }

  lemma {:induction false} WidenedValue(p: Pair, a: seq<string>, b: seq<string>, c: seq<string>, v: Value)
    requires Readable(p) && Widening(p.older.definitions, p.newer.definitions, a, b, c)
    ensures (Accepts(p.meaning, p.older, Either, v) ==> Accepts(p.meaning, p.newer, Either, v)) <==> Spared(a, b, c, v)
  {
    assert b[0] in c;
    EitherAccepts(p.meaning, p.older, a, b, v);
    EitherAccepts(p.meaning, p.newer, a, c, v);
    assert Takes(b, v) ==> Takes(c, v);
  }

  /** Widening one branch of `oneOf` for requests is never reported. It is harmless exactly when the widened branch
      takes none of the seven samples that only the other branch took: such a value is now taken by both, so refused. */
  lemma {:induction false} WidenedBranch(p: Pair, a: seq<string>, b: seq<string>, c: seq<string>)
    requires Readable(p) && Widening(p.older.definitions, p.newer.definitions, a, b, c)
    ensures Similar(p.older.definitions, p.newer.definitions, Comparison(Either, Either, Request))
    ensures Includes(p.meaning, p.older, Either, p.newer, Either) <==> forall v :: v in Samples ==> Spared(a, b, c, v)
  {
    WidenedUnseen(p.older.definitions, p.newer.definitions, a, b, c);
    if Includes(p.meaning, p.older, Either, p.newer, Either) {
      forall v | v in Samples ensures Spared(a, b, c, v) { WidenedValue(p, a, b, c, v); }
    }
    if forall v :: v in Samples ==> Spared(a, b, c, v) {
      forall v | Accepts(p.meaning, p.older, Either, v) ensures Accepts(p.meaning, p.newer, Either, v) {
        SampleStands(a, v);
        SampleStands(b, v);
        SampleStands(c, v);
        assert Spared(a, b, c, SampleOf(v));
        WidenedValue(p, a, b, c, v);
      }
    }
  }

  /** Widening `integer` beside `string` to both: every text was accepted and now is not. */
  lemma {:induction false} WidenedInteger(p: Pair, x: string)
    requires Readable(p)
    requires Widening(p.older.definitions, p.newer.definitions, ["string"], ["integer"], ["integer", "string"])
    ensures Similar(p.older.definitions, p.newer.definitions, Comparison(Either, Either, Request))
    ensures Accepts(p.meaning, p.older, Either, Text(x)) && !Accepts(p.meaning, p.newer, Either, Text(x))
  {
    WidenedBranch(p, ["string"], ["integer"], ["integer", "string"]);
    EitherAccepts(p.meaning, p.older, ["string"], ["integer"], Text(x));
    EitherAccepts(p.meaning, p.newer, ["string"], ["integer", "string"], Text(x));
    assert HasType(Text(x), "string") && "string" in ["integer", "string"] && "string" in ["string"];
  }

  // ----- property names held to a definition that no text meets -----

  function NamesLike(name: string): Schema { Anything.(names := Is(Reference(name))) }

  lemma {:induction false} NamesUnseen(older: Definitions, newer: Definitions, xs: seq<string>, ys: seq<string>)
    requires older == map["A" := OfTypes(xs)] && newer == map["A" := OfTypes(ys)]
    ensures Similar(older, newer, Comparison(NamesLike("A"), NamesLike("A"), Response))
  {
    var s := NamesLike("A");
    var x := Stated(Reference("A"));
    var c, a := Comparison(s, s, Response), Comparison(x, x, Response);
    assert Resolve(older, x) == Some(OfTypes(["string"])) == Resolve(newer, x);
    assert Fits(older, newer, a) && Rests(older, newer, a) == {};
    assert Fits(older, newer, c) && Rests(older, newer, c) == {a};
    LeavesSimilar(older, newer, c, {a});
  }

  lemma {:induction false} NamedAccepts(m: Meaning, d: Document, types: seq<string>, v: Value)
    requires Guarded(d) && d.definitions == map["A" := OfTypes(types)] && types != []
    ensures Accepts(m, d, NamesLike("A"), v) <==> (v.Record? && v.fields != map[] ==> "string" in types)
  {
    var s := NamesLike("A");
    HereReads(m, d, s, v);
    ComposedReads(m, d, s, v);
    assert forall k :: Governing(s, k) == AllowAny;
    if v.Record? {
      forall k | k in v.fields ensures Accepts(m, d, Reference("A"), Text(k)) <==> "string" in types {
        TypedAccepts(m, d, "A", types, Text(k));
        assert HasType(Text(k), "string");
      }
      if v.fields != map[] {
        var k :| k in v.fields;
        assert Accepts(m, d, Reference("A"), Text(k)) <==> "string" in types;
      }
    }
  }

  /** The comparison of property names adds a type of its own, which hides the types behind a reference: changing those
      is never reported for responses, and is harmless exactly when text is not newly among them. */
  lemma {:induction false} NameReference(p: Pair, xs: seq<string>, ys: seq<string>)
    requires Readable(p) && xs != [] && ys != []
    requires p.older.definitions == map["A" := OfTypes(xs)] && p.newer.definitions == map["A" := OfTypes(ys)]
    ensures Similar(p.older.definitions, p.newer.definitions, Comparison(NamesLike("A"), NamesLike("A"), Response))
    ensures Includes(p.meaning, p.newer, NamesLike("A"), p.older, NamesLike("A"))
            <==> ("string" in ys ==> "string" in xs)
  {
    NamesUnseen(p.older.definitions, p.newer.definitions, xs, ys);
    forall v
      ensures Accepts(p.meaning, p.newer, NamesLike("A"), v) <==> NamesMeet(ys)(v)
      ensures Accepts(p.meaning, p.older, NamesLike("A"), v) <==> NamesMeet(xs)(v)
    {
      NamedAccepts(p.meaning, p.older, xs, v);
      NamedAccepts(p.meaning, p.newer, ys, v);
    }
    NamesDecide(xs, ys);
    Decided(p.meaning, p.newer, NamesLike("A"), p.older, NamesLike("A"), NamesMeet(ys), NamesMeet(xs));
  }

  lemma {:induction false} Decided(
    m: Meaning, a: Document, s: Schema, b: Document, t: Schema, f: Value -> bool, g: Value -> bool)
    requires Guarded(a) && Guarded(b)
    requires forall v :: Accepts(m, a, s, v) <==> f(v)
    requires forall v :: Accepts(m, b, t, v) <==> g(v)
    ensures Includes(m, a, s, b, t) <==> Under(f, g)
  {
    if Under(f, g) {
      forall v | Accepts(m, a, s, v) ensures Accepts(m, b, t, v) { assert f(v) && g(v); }
    }
    if Includes(m, a, s, b, t) {
      forall v | f(v) ensures g(v) { assert Accepts(m, a, s, v) && Accepts(m, b, t, v); }
    }
  }

  ghost predicate Under(f: Value -> bool, g: Value -> bool) { forall v | f(v) :: g(v) }

  lemma {:induction false} NamesDecide(xs: seq<string>, ys: seq<string>)
    ensures Under(NamesMeet(ys), NamesMeet(xs)) <==> ("string" in ys ==> "string" in xs)
  {
    var v := Record(map["a" := Nothing]);
    assert "a" in v.fields;
    assert NamesMeet(ys)(v) <==> "string" in ys;
    assert NamesMeet(xs)(v) <==> "string" in xs;
  }

  /** What property names of the given types leave of the objects. */
  ghost function NamesMeet(types: seq<string>): Value -> bool {
    (v: Value) => v.Record? && v.fields != map[] ==> "string" in types
  }

  /** From `integer` to `string`: an object with any field is new, and nothing is said. */
  lemma {:induction false} NameInteger(p: Pair, k: string)
    requires Readable(p)
    requires p.older.definitions == map["A" := OfTypes(["integer"])]
    requires p.newer.definitions == map["A" := OfTypes(["string"])]
    ensures Similar(p.older.definitions, p.newer.definitions, Comparison(NamesLike("A"), NamesLike("A"), Response))
    ensures Accepts(p.meaning, p.newer, NamesLike("A"), Record(map[k := Nothing]))
    ensures !Accepts(p.meaning, p.older, NamesLike("A"), Record(map[k := Nothing]))
  {
    NameReference(p, ["integer"], ["string"]);
    assert k in map[k := Nothing];
    NamedAccepts(p.meaning, p.older, ["integer"], Record(map[k := Nothing]));
    NamedAccepts(p.meaning, p.newer, ["string"], Record(map[k := Nothing]));
  }

  // ----- boolean schemas -----

  const Never := Anything.(literal := Some(false))

  /** A boolean schema is compared as an empty one, so a property that was forbidden may be allowed unseen in a
      response; that is harmless exactly when the new property still accepts nothing. */
  lemma {:induction false} ForbiddenProperty(p: Pair, k: string, types: seq<string>)
    requires Readable(p)
    ensures Similar(p.older.definitions, p.newer.definitions,
                    Comparison(WithProperty(k, Never), WithProperty(k, OfTypes(types)), Response))
    ensures Includes(p.meaning, p.newer, WithProperty(k, OfTypes(types)), p.older, WithProperty(k, Never))
            <==> forall w :: !Accepts(p.meaning, p.newer, OfTypes(types), w)
  {
    ForbiddenUnseen(p.older.definitions, p.newer.definitions, k, types);
    if Includes(p.meaning, p.newer, WithProperty(k, OfTypes(types)), p.older, WithProperty(k, Never)) {
      forall w ensures !Accepts(p.meaning, p.newer, OfTypes(types), w) { ForbiddenValue(p, k, types, w); }
    } else {
      var v :| Accepts(p.meaning, p.newer, WithProperty(k, OfTypes(types)), v)
               && !Accepts(p.meaning, p.older, WithProperty(k, Never), v);
      WithPropertyAccepts(p.meaning, p.newer, k, OfTypes(types), v);
      WithPropertyAccepts(p.meaning, p.older, k, Never, v);
    }
  }

  lemma {:induction false} ForbiddenValue(p: Pair, k: string, types: seq<string>, w: Value)
    requires Readable(p)
    requires Includes(p.meaning, p.newer, WithProperty(k, OfTypes(types)), p.older, WithProperty(k, Never))
    ensures !Accepts(p.meaning, p.newer, OfTypes(types), w)
  {
    var v := Record(map[k := w]);
    assert k in v.fields && v.fields[k] == w;
    WithPropertyAccepts(p.meaning, p.newer, k, OfTypes(types), v);
    WithPropertyAccepts(p.meaning, p.older, k, Never, v);
  }

  lemma {:induction false} ForbiddenUnseen(older: Definitions, newer: Definitions, k: string, types: seq<string>)
    ensures Similar(older, newer, Comparison(WithProperty(k, Never), WithProperty(k, OfTypes(types)), Response))
  {
    var o, n := WithProperty(k, Never), WithProperty(k, OfTypes(types));
    var c, x := Comparison(o, n, Response), Comparison(Never, OfTypes(types), Response);
    assert Fits(older, newer, x) && Rests(older, newer, x) == {};
    assert Fits(older, newer, c) && Rests(older, newer, c) <= {x};
    LeavesSimilar(older, newer, c, {x});
  }

  // ----- keywords beside a reference -----

  function Longest(n: nat): Schema { Anything.(bounds := map[MaxLength := n as real]) }

  lemma {:induction false} LongestAccepts(m: Meaning, d: Document, n: nat, v: Value)
    requires Guarded(d)
    ensures AcceptsHere(m, d, Longest(n), v) <==> (v.Text? ==> |v.s| <= n)
  {
    var s := Longest(n);
    HereReads(m, d, s, v);
    ComposedReads(m, d, s, v);
    assert MaxLength in s.bounds && s.bounds[MaxLength] == n as real;
    assert Plain(m, s, v) <==> Within(MaxLength, n as real, v);
  }

  /** A reference to `A` with a bound of its own beside it. */
  function Beside(n: nat): Schema { Longest(n).(ref := Some("A")) }

  lemma {:induction false} BesideAccepts(m: Meaning, d: Document, n: nat, k: nat, v: Value)
    requires Guarded(d) && "A" in d.definitions && d.definitions["A"] == Longest(n)
    ensures Accepts(m, d, Beside(k), v) <==> (v.Text? ==> |v.s| <= n && |v.s| <= k)
  {
    var s, t := Beside(k), Longest(k);
    assert InPlace(d.definitions, s, d.definitions["A"]);
    LongestAccepts(m, d, n, v);
    LongestAccepts(m, d, k, v);
    HereReads(m, d, s, v);
    HereReads(m, d, t, v);
    ComposedReads(m, d, s, v);
    ComposedReads(m, d, t, v);
  }

  lemma {:induction false} BesideUnseen(older: Definitions, newer: Definitions, x: nat, y: nat, k: nat, d: Direction)
    requires older == map["A" := Longest(x)] && newer == map["A" := Longest(y)]
    ensures Similar(older, newer, Comparison(Beside(k), Beside(k), d))
  {
    var c := Comparison(Beside(k), Beside(k), d);
    assert map[MaxLength := x as real] + map[MaxLength := k as real] == map[MaxLength := k as real];
    assert map[MaxLength := y as real] + map[MaxLength := k as real] == map[MaxLength := k as real];
    assert Merge(Longest(x), Beside(k)) == Longest(k) == Merge(Longest(y), Beside(k));
    assert Rests(older, newer, c) == {};
    LeavesSimilar(older, newer, c, {});
  }

  /** A bound `k` beside a reference hides the definition's bound, so raising that from `x` to `y` is never reported for
      responses; the values stay within the old ones exactly when `y` or `k` is no looser than `x`. */
  lemma {:induction false} SiblingOverride(p: Pair, x: nat, y: nat, k: nat)
    requires Readable(p)
    requires p.older.definitions == map["A" := Longest(x)] && p.newer.definitions == map["A" := Longest(y)]
    ensures Similar(p.older.definitions, p.newer.definitions, Comparison(Beside(k), Beside(k), Response))
    ensures Includes(p.meaning, p.newer, Beside(k), p.older, Beside(k)) <==> y <= x || k <= x
  {
    BesideUnseen(p.older.definitions, p.newer.definitions, x, y, k, Response);
    if y <= x || k <= x {
      forall v | Accepts(p.meaning, p.newer, Beside(k), v) ensures Accepts(p.meaning, p.older, Beside(k), v) {
        BesideAccepts(p.meaning, p.newer, y, k, v);
        BesideAccepts(p.meaning, p.older, x, k, v);
      }
    } else {
      var v := Text(seq(x + 1, _ => 'a'));
      BesideAccepts(p.meaning, p.newer, y, k, v);
      BesideAccepts(p.meaning, p.older, x, k, v);
      assert Accepts(p.meaning, p.newer, Beside(k), v) && !Accepts(p.meaning, p.older, Beside(k), v);
    }
  }

  /** The definition goes from 5 to 8 under a bound of 10: a response of seven letters is new, and nothing is said. */
  lemma {:induction false} SiblingLength(p: Pair)
    requires Readable(p)
    requires p.older.definitions == map["A" := Longest(5)] && p.newer.definitions == map["A" := Longest(8)]
    ensures Similar(p.older.definitions, p.newer.definitions, Comparison(Beside(10), Beside(10), Response))
    ensures Accepts(p.meaning, p.newer, Beside(10), Text("1234567"))
    ensures !Accepts(p.meaning, p.older, Beside(10), Text("1234567"))
  {
    BesideUnseen(p.older.definitions, p.newer.definitions, 5, 8, 10, Response);
    BesideAccepts(p.meaning, p.newer, 8, 10, Text("1234567"));
    BesideAccepts(p.meaning, p.older, 5, 10, Text("1234567"));
  }
}
