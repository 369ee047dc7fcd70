/** What one comparison of two schemas reports, and which comparisons it goes on to. */
module Plans {
  import opened Core
  import opened Schemas

  datatype Direction = Request | Response
  datatype Comparison = Comparison(older: Schema, newer: Schema, direction: Direction)

  datatype Change =
    | TypeChanged | ValuesChanged | UniquenessChanged | RequirednessChanged | PropertyRemoved | PropertyForbidden
    | ItemsChanged | OthersChanged | CompositionChanged(keyword: string) | NegationChanged | DiscriminatorChanged
    | FormatChanged | WriteOnlyChanged | BoundChanged(bound: Bound) | PatternChanged
  datatype Issue = Issue(location: string, change: Change)

  /** The visited set knows a schema by its content; `true` and `false` are the same to it. */
  function Identity(s: Schema): Schema { if s.literal.Some? then Always else s }
  const Always := Anything.(literal := Some(true))

  function Marked(c: Comparison): Comparison { Comparison(Identity(c.older), Identity(c.newer), c.direction) }

  /** A comparison, and the place in the document where it came up. */
  datatype Visit = Visit(comparison: Comparison, location: string)

  function Or<T>(a: Option<T>, b: Option<T>): Option<T> { if a.Some? then a else b }

  /** A definition with the keywords written beside the reference laid over it. */
  function Merge(target: Schema, s: Schema): Schema {
    Schema(target.literal, target.ref, Or(s.types, target.types), Or(s.choices, target.choices),
           Or(s.constant, target.constant),
           if s.names.Is? then s.names else target.names, Or(s.unique, target.unique), Or(s.required, target.required),
           if s.properties.Properties? then s.properties else target.properties,
           if s.additional.Is? then s.additional else target.additional,
           if s.items.Is? then s.items else target.items,
           if s.anyOf.Branches? then s.anyOf else target.anyOf,
           if s.oneOf.Branches? then s.oneOf else target.oneOf,
           if s.allOf.Branches? then s.allOf else target.allOf,
           if s.negation.Is? then s.negation else target.negation,
           Or(s.discriminator, target.discriminator), Or(s.format, target.format), Or(s.writeOnly, target.writeOnly),
           Or(s.pattern, target.pattern), target.bounds + s.bounds, target.notes + s.notes)
  }

  /** One reference step; the definition is taken as it stands, and a boolean schema is read as an empty object. */
  function Resolve(defs: Definitions, s: Schema): Option<Schema> {
    if s.literal.Some? then Some(Anything)
    else if s.ref.None? then Some(s)
    else if Defined(defs, s.ref.value) then Some(Merge(defs[s.ref.value], s))
    else None
  }

  /** A reference must lead to a schema object. */
  predicate Defined(defs: Definitions, name: string) { name in defs && defs[name].literal.None? }

  /** The schema of property names must be an object too. */
  predicate NamesWellFormed(s: Schema) { s.names.Is? ==> s.names.schema.literal.None? }

  predicate Object(c: Child) { c.Is? && c.schema.literal.None? }

  function Stated(s: Schema): Schema { s.(types := Or(s.types, Some(["string"]))) }

  function Opposite(d: Direction): Direction { if d.Request? then Response else Request }

  // ----- the checks, keyword by keyword, in the order the issues are reported -----

  /** What one comparison does: report an issue, or go on to another comparison. */
  datatype Item = Found(issue: Issue) | Descend(to: Comparison, location: string)

  function When(broken: bool, location: string, change: Change): seq<Item> {
    if broken then [Found(Issue(location, change))] else []
  }

  function TypeItems(o: Schema, n: Schema, d: Direction, at: string): seq<Item> {
    var was, now := Types(o), Types(n);
    if was != {} && now != {} then When(!(if d.Request? then was <= now else now <= was), at, TypeChanged)
    else if d.Request? && was == {} && now != {} then When(true, at, TypeChanged)
    else When(d.Response? && was != {} && now == {}, at, TypeChanged)
  }

  function ValueItems(o: Schema, n: Schema, d: Direction, at: string): seq<Item> {
    var was, now := Allowed(o), Allowed(n);
    if was.Some? && now.Some? then
      When(!(if d.Request? then was.value <= now.value else now.value <= was.value), at, ValuesChanged)
    else if d.Request? && was.None? && now.Some? then When(true, at, ValuesChanged)
    else When(d.Response? && was.Some? && now.None?, at, ValuesChanged)
  }

  function NameOf(c: Child): Schema { Stated(if c.Is? then c.schema else Anything) }

  function NameItems(o: Schema, n: Schema, d: Direction, at: string): seq<Item> {
    if o.names.Is? || n.names.Is? then
      [Descend(Comparison(NameOf(o.names), NameOf(n.names), d), at + ".<property-name>")]
    else []
  }

  function UniqueItems(o: Schema, n: Schema, d: Direction, at: string): seq<Item> {
    var was, now := o.unique == Some(true), n.unique == Some(true);
    When(was != now && (if d.Request? then now else was), at, UniquenessChanged)
  }

  function RequiredBreaks(o: Schema, n: Schema, d: Direction): set<string> {
    if d.Request? then Required(n) - Required(o) else Required(o) - Required(n)
  }

  function RequiredItems(broken: seq<string>, at: string): seq<Item> {
    seq(|broken|, i requires 0 <= i < |broken| => Found(Issue(at + "." + broken[i], RequirednessChanged)))
  }

  function PropertyItem(o: Schema, n: Schema, d: Direction, at: string, k: string): Item
    requires k in Named(o)
  {
    if k !in Named(n) then Found(Issue(at + "." + k, PropertyRemoved))
    else Descend(Comparison(Named(o)[k], Named(n)[k], d), at + "." + k)
  }

  function PropertyItems(o: Schema, n: Schema, d: Direction, at: string, kept: seq<string>): seq<Item>
    requires forall k :: k in kept ==> k in Named(o)
  {
    seq(|kept|, i requires 0 <= i < |kept| => PropertyItem(o, n, d, at, kept[i]))
  }

  function AddedItem(o: Schema, n: Schema, at: string, k: string): seq<Item>
    requires k in Named(n)
  {
    match Others(o)
    case Forbid => When(true, at + "." + k, PropertyForbidden)
    case Rest(other) => [Descend(Comparison(other, Named(n)[k], Response), at + "." + k)]
    case _ => []
  }

  function AddedItems(o: Schema, n: Schema, d: Direction, at: string, added: seq<string>): seq<Item>
    requires forall k :: k in added ==> k in Named(n)
  {
    if d.Request? || added == [] then []
    else AddedItem(o, n, at, added[0]) + AddedItems(o, n, d, at, added[1..])
  }

  function ElementItems(o: Schema, n: Schema, d: Direction, at: string): seq<Item> {
    if o.items.Is? && n.items.Is? then [Descend(Comparison(o.items.schema, n.items.schema, d), at + "[]")]
    else if d.Request? && o.items.Absent? && n.items.Is? then When(true, at + "[]", ItemsChanged)
    else When(d.Response? && o.items.Is? && n.items.Absent?, at + "[]", ItemsChanged)
  }

  function OtherItems(o: Schema, n: Schema, d: Direction, at: string): seq<Item> {
    var was, now := Others(o), Others(n);
    if was.Rest? && now.Rest? then [Descend(Comparison(was.schema, now.schema, d), at + ".*")]
    else if d.Request? then When(!(was.Forbid? || now.AllowAny?), at + ".*", OthersChanged)
    else When(!(was.AllowAny? || now.Forbid?), at + ".*", OthersChanged)
  }

  function BranchItems(o: Branches, n: Branches, d: Direction, at: string, keyword: string): seq<Item> {
    if o != n then When(true, at, CompositionChanged(keyword))
    else seq(|List(o)|, i requires 0 <= i < |List(o)| =>
               Descend(Comparison(List(o)[i], List(n)[i], d), at + "." + keyword + "[" + Digits(i) + "]"))
  }

  function NegationItems(o: Schema, n: Schema, d: Direction, at: string): seq<Item> {
    if o.negation != n.negation then When(true, at, NegationChanged)
    else if Object(o.negation) then
      [Descend(Comparison(o.negation.schema, n.negation.schema, Opposite(d)), at + ".not")]
    else []
  }

  function LabelItems(o: Schema, n: Schema, at: string): seq<Item> {
    When(o.discriminator != n.discriminator, at, DiscriminatorChanged)
    + When(o.format != n.format, at, FormatChanged)
    + When(o.writeOnly != n.writeOnly, at, WriteOnlyChanged)
  }

  const LowerBounds := [Minimum, ExclusiveMinimum, MinLength, MinItems, MinProperties]
  const UpperBounds := [Maximum, ExclusiveMaximum, MaxLength, MaxItems, MaxProperties]

  predicate Tightened(o: Schema, n: Schema, d: Direction, b: Bound, lower: bool) {
    if d.Request? then
      if b !in n.bounds then false
      else if b !in o.bounds then true
      else if lower then n.bounds[b] > o.bounds[b] else n.bounds[b] < o.bounds[b]
    else if b !in o.bounds then false
    else if b !in n.bounds then true
    else if lower then n.bounds[b] < o.bounds[b] else n.bounds[b] > o.bounds[b]
  }

  function BoundItems(o: Schema, n: Schema, d: Direction, at: string, bounds: seq<Bound>, lower: bool): seq<Item> {
    if bounds == [] then []
    else When(Tightened(o, n, d, bounds[0], lower), at, BoundChanged(bounds[0]))
         + BoundItems(o, n, d, at, bounds[1..], lower)
  }

  function PatternItems(o: Schema, n: Schema, d: Direction, at: string): seq<Item> {
    When(o.pattern != n.pattern && !((d.Request? && n.pattern.None?) || (d.Response? && o.pattern.None?)),
         at, PatternChanged)
  }

  /** The names a comparison goes through, each set listed in some order. */
  datatype Names = Names(broken: seq<string>, kept: seq<string>, added: seq<string>)

  ghost predicate Lists(names: Names, o: Schema, n: Schema, d: Direction) {
    && Enumerates(names.broken, RequiredBreaks(o, n, d))
    && Enumerates(names.kept, Named(o).Keys)
    && Enumerates(names.added, Named(n).Keys - Named(o).Keys)
  }

  /** Each member of the set, once. */
  ghost predicate Enumerates(list: seq<string>, names: set<string>) {
    (forall k :: k in list <==> k in names) && forall i, j | 0 <= i < j < |list| :: list[i] != list[j]
  }

  function ValueSection(o: Schema, n: Schema, d: Direction, at: string): seq<Item> {
    TypeItems(o, n, d, at) + ValueItems(o, n, d, at) + NameItems(o, n, d, at) + UniqueItems(o, n, d, at)
  }

  function ElementSection(o: Schema, n: Schema, d: Direction, at: string): seq<Item> {
    ElementItems(o, n, d, at) + OtherItems(o, n, d, at)
  }

  function ObjectItems(o: Schema, n: Schema, d: Direction, at: string, names: Names): seq<Item>
    requires Lists(names, o, n, d)
  {
    RequiredItems(names.broken, at) + PropertyItems(o, n, d, at, names.kept)
    + AddedItems(o, n, d, at, names.added)
  }

  function CompositionItems(o: Schema, n: Schema, d: Direction, at: string): seq<Item> {
    BranchItems(o.anyOf, n.anyOf, d, at, "anyOf") + BranchItems(o.oneOf, n.oneOf, d, at, "oneOf")
    + BranchItems(o.allOf, n.allOf, d, at, "allOf") + NegationItems(o, n, d, at)
  }

  function LimitItems(o: Schema, n: Schema, d: Direction, at: string): seq<Item> {
    LabelItems(o, n, at) + BoundItems(o, n, d, at, LowerBounds, true) + BoundItems(o, n, d, at, UpperBounds, false)
    + PatternItems(o, n, d, at)
  }

  function Plan(o: Schema, n: Schema, d: Direction, at: string, names: Names): seq<Item>
    requires Lists(names, o, n, d)
  {
    ValueSection(o, n, d, at) + ObjectItems(o, n, d, at, names) + ElementSection(o, n, d, at)
    + CompositionItems(o, n, d, at) + LimitItems(o, n, d, at)
  }

  // ----- what a clean comparison means -----

  /** The side whose values must all be accepted by the other side. */
  function Narrow(o: Schema, n: Schema, d: Direction): Schema { if d.Request? then o else n }
  function Wide(o: Schema, n: Schema, d: Direction): Schema { if d.Request? then n else o }

  predicate Lower(b: Bound) { b in LowerBounds }

  ghost predicate TypesFit(narrow: Schema, wide: Schema) {
    Types(wide) != {} ==> Types(narrow) != {} && Types(narrow) <= Types(wide)
  }

  ghost predicate AllowedFit(narrow: Schema, wide: Schema) {
    Allowed(wide).Some? ==> Allowed(narrow).Some? && Allowed(narrow).value <= Allowed(wide).value
  }

  ghost predicate UniqueFit(narrow: Schema, wide: Schema) { wide.unique == Some(true) ==> narrow.unique == Some(true) }

  ghost predicate ItemsFit(narrow: Schema, wide: Schema) { wide.items.Is? ==> narrow.items.Is? }

  ghost predicate OthersFit(narrow: Schema, wide: Schema) {
    (Others(narrow).Rest? && Others(wide).Rest?) || Others(narrow).Forbid? || Others(wide).AllowAny?
  }

  ghost predicate PatternFit(narrow: Schema, wide: Schema) { wide.pattern.Some? ==> narrow.pattern == wide.pattern }

  /** Nothing the wide side asks of a value by itself is left unasked by the narrow side. */
  ghost predicate ValueFit(narrow: Schema, wide: Schema) {
    TypesFit(narrow, wide) && AllowedFit(narrow, wide) && UniqueFit(narrow, wide)
  }

  ghost predicate ElementFit(narrow: Schema, wide: Schema) { ItemsFit(narrow, wide) && OthersFit(narrow, wide) }

  ghost predicate LimitFit(narrow: Schema, wide: Schema) {
    PatternFit(narrow, wide) && forall b | b in wide.bounds :: Tighter(narrow, wide, b)
  }

  predicate Tighter(narrow: Schema, wide: Schema, b: Bound)
    requires b in wide.bounds
  {
    && b in narrow.bounds
    && if Lower(b) then narrow.bounds[b] >= wide.bounds[b] else narrow.bounds[b] <= wide.bounds[b]
  }

  /** The property rules tell old from new, not narrow from wide: a property may never be removed. */
  ghost predicate ObjectFit(o: Schema, n: Schema, d: Direction) {
    && Required(Wide(o, n, d)) <= Required(Narrow(o, n, d))
    && Named(o).Keys <= Named(n).Keys
    && (d.Response? && Others(o).Forbid? ==> Named(n).Keys <= Named(o).Keys)
  }

  /** The keywords that may not change at all. */
  ghost predicate SameComposition(o: Schema, n: Schema) {
    o.anyOf == n.anyOf && o.oneOf == n.oneOf && o.allOf == n.allOf && o.negation == n.negation
  }

  ghost predicate SameLabels(o: Schema, n: Schema) {
    o.discriminator == n.discriminator && o.format == n.format && o.writeOnly == n.writeOnly
  }

  ghost predicate Fit(o: Schema, n: Schema, d: Direction) {
    && ValueFit(Narrow(o, n, d), Wide(o, n, d))
    && ObjectFit(o, n, d)
    && ElementFit(Narrow(o, n, d), Wide(o, n, d))
    && SameComposition(o, n) && SameLabels(o, n)
    && LimitFit(Narrow(o, n, d), Wide(o, n, d))
  }

  // ----- what a comparison reports -----

  /** Both sides together break the rule of this kind of change at this place. */
  ghost predicate Breaks(o: Schema, n: Schema, d: Direction, at: string, i: Issue) {
    || ValueBreaks(Narrow(o, n, d), Wide(o, n, d), at, i)
    || ObjectBreaks(o, n, d, at, i)
    || ElementBreaks(Narrow(o, n, d), Wide(o, n, d), at, i)
    || CompositionBreaks(o, n, at, i)
    || LabelBreaks(o, n, at, i)
    || LimitBreaks(Narrow(o, n, d), Wide(o, n, d), at, i)
  }

  ghost predicate ValueBreaks(narrow: Schema, wide: Schema, at: string, i: Issue) {
    match i.change
    case TypeChanged => i.location == at && !TypesFit(narrow, wide)
    case ValuesChanged => i.location == at && !AllowedFit(narrow, wide)
    case UniquenessChanged => i.location == at && !UniqueFit(narrow, wide)
    case _ => false
  }

  ghost predicate ObjectBreaks(o: Schema, n: Schema, d: Direction, at: string, i: Issue) {
    match i.change
    case RequirednessChanged => Below(i.location, at, Required(Wide(o, n, d)) - Required(Narrow(o, n, d)))
    case PropertyRemoved => Below(i.location, at, Named(o).Keys - Named(n).Keys)
    case PropertyForbidden => d.Response? && Others(o).Forbid? && Below(i.location, at, Named(n).Keys - Named(o).Keys)
    case _ => false
  }

  ghost predicate ElementBreaks(narrow: Schema, wide: Schema, at: string, i: Issue) {
    match i.change
    case ItemsChanged => i.location == at + "[]" && !ItemsFit(narrow, wide)
    case OthersChanged => i.location == at + ".*" && !OthersFit(narrow, wide)
    case _ => false
  }

  ghost predicate CompositionBreaks(o: Schema, n: Schema, at: string, i: Issue) {
    match i.change
    case CompositionChanged(keyword) =>
      i.location == at && ((keyword == "anyOf" && o.anyOf != n.anyOf) || (keyword == "oneOf" && o.oneOf != n.oneOf)
                           || (keyword == "allOf" && o.allOf != n.allOf))
    case NegationChanged => i.location == at && o.negation != n.negation
    case _ => false
  }

  ghost predicate LabelBreaks(o: Schema, n: Schema, at: string, i: Issue) {
    match i.change
    case DiscriminatorChanged => i.location == at && o.discriminator != n.discriminator
    case FormatChanged => i.location == at && o.format != n.format
    case WriteOnlyChanged => i.location == at && o.writeOnly != n.writeOnly
    case _ => false
  }

  ghost predicate LimitBreaks(narrow: Schema, wide: Schema, at: string, i: Issue) {
    match i.change
    case BoundChanged(_) => Loosened(narrow, wide, at, i)
    case PatternChanged => i.location == at && !PatternFit(narrow, wide)
    case _ => false
  }

  /** The place of one of the named properties. */
  ghost predicate Below(location: string, at: string, names: set<string>) {
    exists k :: k in names && location == at + "." + k
  }

  ghost predicate Loosened(narrow: Schema, wide: Schema, at: string, i: Issue)
    requires i.change.BoundChanged?
  {
    i.location == at && i.change.bound in wide.bounds && !Tighter(narrow, wide, i.change.bound)
  }

  // ----- what a comparison rests on -----

  ghost function NameNeeds(o: Schema, n: Schema, d: Direction): set<Comparison> {
    if o.names.Is? || n.names.Is? then {Comparison(NameOf(o.names), NameOf(n.names), d)} else {}
  }

  ghost function KeptNeeds(o: Schema, n: Schema, d: Direction): set<Comparison> {
    set k | k in Named(o) && k in Named(n) :: Comparison(Named(o)[k], Named(n)[k], d)
  }

  ghost function AddedNeeds(o: Schema, n: Schema, d: Direction): set<Comparison> {
    if d.Response? && Others(o).Rest? then
      set k | k in Named(n) && k !in Named(o) :: Comparison(Others(o).schema, Named(n)[k], Response)
    else {}
  }

  ghost function ElementNeeds(o: Schema, n: Schema, d: Direction): set<Comparison> {
    (if o.items.Is? && n.items.Is? then {Comparison(o.items.schema, n.items.schema, d)} else {})
    + (if Others(o).Rest? && Others(n).Rest? then {Comparison(Others(o).schema, Others(n).schema, d)} else {})
  }

  ghost function CompositionNeeds(o: Schema, n: Schema, d: Direction): set<Comparison> {
    BranchNeeds(o.anyOf, n.anyOf, d) + BranchNeeds(o.oneOf, n.oneOf, d) + BranchNeeds(o.allOf, n.allOf, d)
    + NegationNeeds(o, n, d)
  }

  ghost function NegationNeeds(o: Schema, n: Schema, d: Direction): set<Comparison> {
    if o.negation == n.negation && Object(o.negation) then
      {Comparison(o.negation.schema, n.negation.schema, Opposite(d))}
    else {}
  }

  /** The comparisons a comparison of resolved schemas rests on. */
  ghost function Needs(o: Schema, n: Schema, d: Direction): set<Comparison> {
    NameNeeds(o, n, d) + (KeptNeeds(o, n, d) + AddedNeeds(o, n, d)) + ElementNeeds(o, n, d) + CompositionNeeds(o, n, d)
  }

  ghost function BranchNeeds(o: Branches, n: Branches, d: Direction): set<Comparison> {
    if o == n then set t | t in List(o) :: Comparison(t, t, d) else {}
  }

  // ----- where it goes on to them -----

  ghost function Place(o: Schema, n: Schema, d: Direction, location: string): Visit {
    Visit(Marked(Comparison(o, n, d)), location)
  }

  ghost function NamePlaces(o: Schema, n: Schema, d: Direction, at: string): set<Visit> {
    if o.names.Is? || n.names.Is? then {Place(NameOf(o.names), NameOf(n.names), d, at + ".<property-name>")} else {}
  }

  ghost function KeptPlaces(o: Schema, n: Schema, d: Direction, at: string): set<Visit> {
    set k | k in Named(o) && k in Named(n) :: Place(Named(o)[k], Named(n)[k], d, at + "." + k)
  }

  ghost function AddedPlaces(o: Schema, n: Schema, d: Direction, at: string): set<Visit> {
    if d.Response? && Others(o).Rest? then
      set k | k in Named(n) && k !in Named(o) :: Place(Others(o).schema, Named(n)[k], Response, at + "." + k)
    else {}
  }

  ghost function ItemPlaces(o: Schema, n: Schema, d: Direction, at: string): set<Visit> {
    if o.items.Is? && n.items.Is? then {Place(o.items.schema, n.items.schema, d, at + "[]")} else {}
  }

  ghost function OtherPlaces(o: Schema, n: Schema, d: Direction, at: string): set<Visit> {
    if Others(o).Rest? && Others(n).Rest? then {Place(Others(o).schema, Others(n).schema, d, at + ".*")} else {}
  }

  ghost function BranchPlace(t: Schema, d: Direction, at: string, keyword: string, j: nat): Visit {
    Place(t, t, d, at + "." + keyword + "[" + Digits(j) + "]")
  }

  ghost function BranchPlaces(o: Branches, n: Branches, d: Direction, at: string, keyword: string): set<Visit> {
    if o == n then
      set j | 0 <= j < |List(o)| :: BranchPlace(List(o)[j], d, at, keyword, j)
    else {}
  }

  ghost function NegationPlaces(o: Schema, n: Schema, d: Direction, at: string): set<Visit> {
    if o.negation == n.negation && Object(o.negation) then
      {Place(o.negation.schema, o.negation.schema, Opposite(d), at + ".not")}
    else {}
  }

  ghost function CompositionPlaces(o: Schema, n: Schema, d: Direction, at: string): set<Visit> {
    BranchPlaces(o.anyOf, n.anyOf, d, at, "anyOf") + BranchPlaces(o.oneOf, n.oneOf, d, at, "oneOf")
    + BranchPlaces(o.allOf, n.allOf, d, at, "allOf") + NegationPlaces(o, n, d, at)
  }

  /** The comparisons a comparison at `at` goes on to, each with its own place. */
  ghost function Places(o: Schema, n: Schema, d: Direction, at: string): set<Visit> {
    NamePlaces(o, n, d, at) + (KeptPlaces(o, n, d, at) + AddedPlaces(o, n, d, at))
    + (ItemPlaces(o, n, d, at) + OtherPlaces(o, n, d, at)) + CompositionPlaces(o, n, d, at)
  }

  /** They are the comparisons it rests on, and no others. */
  ghost predicate Houses(places: set<Visit>, needs: set<Comparison>) {
    (forall v | v in places :: Needed(v, needs)) && forall x | x in needs :: Placed(x, places)
  }

  ghost predicate Needed(v: Visit, needs: set<Comparison>) { exists x :: x in needs && v.comparison == Marked(x) }
  ghost predicate Placed(x: Comparison, places: set<Visit>) {
    exists v :: v in places && v.comparison == Marked(x)
  }

  // ----- the plan says exactly that -----

  ghost function Bit(b: bool): nat { if b then 1 else 0 }

  ghost function Count<T>(list: seq<T>, x: T): nat {
    if list == [] then 0 else Count(list[..|list| - 1], x) + Bit(list[|list| - 1] == x)
  }

  lemma {:induction false} CountConcat<T>(a: seq<T>, b: seq<T>, x: T)
    ensures Count(a + b, x) == Count(a, x) + Count(b, x)
    decreases |b|
  {
    if b == [] {
      assert a + b == a;
    } else {
      var n := |b| - 1;
      CountConcat(a, b[..n], x);
      assert (a + b)[..|a + b| - 1] == a + b[..n];
    }
  }

  lemma {:induction false} Once<T>(list: seq<T>, x: T)
    ensures x !in list ==> Count(list, x) == 0
    ensures (forall i, j | 0 <= i < j < |list| :: list[i] != list[j]) ==> Count(list, x) == Bit(x in list)
  {
    if list != [] {
      var n := |list| - 1;
      Once(list[..n], x);
      assert list == list[..n] + [list[n]];
    }
  }

  /** How often an issue is reported by a plan itself, and where the plan goes on to. */
  ghost function Tally(items: seq<Item>, i: Issue): nat { Count(items, Found(i)) }
  ghost function Targets(items: seq<Item>): set<Visit> {
    set x | x in items && x.Descend? :: Visit(Marked(x.to), x.location)
  }

  lemma {:induction false} Concat(a: seq<Item>, b: seq<Item>, i: Issue)
    ensures Tally(a + b, i) == Tally(a, i) + Tally(b, i)
    ensures Targets(a + b) == Targets(a) + Targets(b)
  {
    CountConcat(a, b, Found(i));
  }

  lemma {:induction false} ThreeParts(a: seq<Item>, b: seq<Item>, c: seq<Item>, i: Issue)
    ensures Tally(a + b + c, i) == Tally(a, i) + Tally(b, i) + Tally(c, i)
    ensures Targets(a + b + c) == Targets(a) + Targets(b) + Targets(c)
  {
    Concat(a, b, i);
    Concat(a + b, c, i);
  }

  lemma {:induction false} FourParts(a: seq<Item>, b: seq<Item>, c: seq<Item>, e: seq<Item>, i: Issue)
    ensures Tally(a + b + c + e, i) == Tally(a, i) + Tally(b, i) + Tally(c, i) + Tally(e, i)
    ensures Targets(a + b + c + e) == Targets(a) + Targets(b) + Targets(c) + Targets(e)
  {
    ThreeParts(a, b, c, i);
    Concat(a + b + c, e, i);
  }

  lemma {:induction false} WhenReads(broken: bool, at: string, change: Change, i: Issue)
    ensures Tally(When(broken, at, change), i) == Bit(broken && i == Issue(at, change))
    ensures Targets(When(broken, at, change)) == {}
  {
    Once(When(broken, at, change), Found(i));
  }

  lemma {:induction false} DescendReads(to: Comparison, at: string, i: Issue)
    ensures Tally([Descend(to, at)], i) == 0
    ensures Targets([Descend(to, at)]) == {Visit(Marked(to), at)}
  {
    Once([Descend(to, at)], Found(i));
    assert Descend(to, at) in [Descend(to, at)];
  }

  lemma {:induction false} TypesRead(o: Schema, n: Schema, d: Direction, at: string, i: Issue)
    ensures Tally(TypeItems(o, n, d, at), i)
            == Bit(i == Issue(at, TypeChanged) && !TypesFit(Narrow(o, n, d), Wide(o, n, d)))
    ensures Targets(TypeItems(o, n, d, at)) == {}
  {
    WhenReads(true, at, TypeChanged, i);
    WhenReads(false, at, TypeChanged, i);
  }

  lemma {:induction false} AllowedRead(o: Schema, n: Schema, d: Direction, at: string, i: Issue)
    ensures Tally(ValueItems(o, n, d, at), i)
            == Bit(i == Issue(at, ValuesChanged) && !AllowedFit(Narrow(o, n, d), Wide(o, n, d)))
    ensures Targets(ValueItems(o, n, d, at)) == {}
  {
    WhenReads(true, at, ValuesChanged, i);
    WhenReads(false, at, ValuesChanged, i);
  }

  lemma {:induction false} NamesRead(o: Schema, n: Schema, d: Direction, at: string, i: Issue)
    ensures Tally(NameItems(o, n, d, at), i) == 0 && Targets(NameItems(o, n, d, at)) == NamePlaces(o, n, d, at)
  {
    DescendReads(Comparison(NameOf(o.names), NameOf(n.names), d), at + ".<property-name>", i);
  }

  lemma {:induction false} UniqueRead(o: Schema, n: Schema, d: Direction, at: string, i: Issue)
    ensures Tally(UniqueItems(o, n, d, at), i)
            == Bit(i == Issue(at, UniquenessChanged) && !UniqueFit(Narrow(o, n, d), Wide(o, n, d)))
    ensures Targets(UniqueItems(o, n, d, at)) == {}
  {
    WhenReads(true, at, UniquenessChanged, i);
    WhenReads(false, at, UniquenessChanged, i);
  }

  lemma {:induction false} ValuesRead(o: Schema, n: Schema, d: Direction, at: string, i: Issue)
    ensures Tally(ValueSection(o, n, d, at), i) == Bit(ValueBreaks(Narrow(o, n, d), Wide(o, n, d), at, i))
    ensures Targets(ValueSection(o, n, d, at)) == NamePlaces(o, n, d, at)
  {
    var a, b, c, e := TypeItems(o, n, d, at), ValueItems(o, n, d, at), NameItems(o, n, d, at), UniqueItems(o, n, d, at);
    FourParts(a, b, c, e, i);
    TypesRead(o, n, d, at, i);
    AllowedRead(o, n, d, at, i);
    NamesRead(o, n, d, at, i);
    UniqueRead(o, n, d, at, i);
  }

  /** Different names make different places. */
  lemma {:induction false} PlacesDiffer(at: string, j: string, k: string)
    requires j != k
    ensures at + "." + j != at + "." + k
  {
    assert (at + "." + j)[|at + "."|..] == j && (at + "." + k)[|at + "."|..] == k;
  }

  lemma {:induction false} RequiredRead(
    o: Schema, n: Schema, d: Direction, at: string, broken: seq<string>, i: Issue)
    requires Enumerates(broken, RequiredBreaks(o, n, d))
    ensures Tally(RequiredItems(broken, at), i) == Bit(i.change.RequirednessChanged? && ObjectBreaks(o, n, d, at, i))
    ensures Targets(RequiredItems(broken, at)) == {}
  {
    var items := RequiredItems(broken, at);
    forall j, k | 0 <= j < k < |items| ensures items[j] != items[k] { PlacesDiffer(at, broken[j], broken[k]); }
    Once(items, Found(i));
    assert RequiredBreaks(o, n, d) == Required(Wide(o, n, d)) - Required(Narrow(o, n, d));
    if i.change.RequirednessChanged? && ObjectBreaks(o, n, d, at, i) {
      var k :| k in RequiredBreaks(o, n, d) && i.location == at + "." + k;
      var j :| 0 <= j < |broken| && broken[j] == k;
      assert items[j] == Found(i);
    }
    if Found(i) in items {
      var j :| 0 <= j < |items| && items[j] == Found(i);
      assert broken[j] in broken;
      assert Below(i.location, at, RequiredBreaks(o, n, d));
    }
  }

  lemma {:induction false} PropertiesDiffer(o: Schema, n: Schema, d: Direction, at: string, kept: seq<string>)
    requires Enumerates(kept, Named(o).Keys)
    ensures var items := PropertyItems(o, n, d, at, kept); forall j, k | 0 <= j < k < |items| :: items[j] != items[k]
  {
    var items := PropertyItems(o, n, d, at, kept);
    forall j, k | 0 <= j < k < |items| ensures items[j] != items[k] { PlacesDiffer(at, kept[j], kept[k]); }
  }

  lemma {:induction false} PropertyListed(o: Schema, n: Schema, d: Direction, at: string, kept: seq<string>, x: Item)
    requires Enumerates(kept, Named(o).Keys)
    ensures x in PropertyItems(o, n, d, at, kept) <==> exists k :: k in Named(o) && x == PropertyItem(o, n, d, at, k)
  {
    var items := PropertyItems(o, n, d, at, kept);
    if x in items {
      var j :| 0 <= j < |items| && items[j] == x;
      assert kept[j] in kept && x == PropertyItem(o, n, d, at, kept[j]);
    }
    if k :| k in Named(o) && x == PropertyItem(o, n, d, at, k) {
      var j :| 0 <= j < |kept| && kept[j] == k;
      assert items[j] == x;
    }
  }

  lemma {:induction false} RemovedRead(o: Schema, n: Schema, d: Direction, at: string, kept: seq<string>, i: Issue)
    requires Enumerates(kept, Named(o).Keys)
    ensures Tally(PropertyItems(o, n, d, at, kept), i) == Bit(i.change.PropertyRemoved? && ObjectBreaks(o, n, d, at, i))
  {
    PropertiesDiffer(o, n, d, at, kept);
    Once(PropertyItems(o, n, d, at, kept), Found(i));
    PropertyListed(o, n, d, at, kept, Found(i));
    if i.change.PropertyRemoved? && ObjectBreaks(o, n, d, at, i) {
      var k :| k in Named(o).Keys - Named(n).Keys && i.location == at + "." + k;
      assert Found(i) == PropertyItem(o, n, d, at, k);
    }
  }

  lemma {:induction false} KeptRead(o: Schema, n: Schema, d: Direction, at: string, kept: seq<string>)
    requires Enumerates(kept, Named(o).Keys)
    ensures Targets(PropertyItems(o, n, d, at, kept)) == KeptPlaces(o, n, d, at)
  {
    var items := PropertyItems(o, n, d, at, kept);
    forall k | k in Named(o) && k in Named(n)
      ensures Place(Named(o)[k], Named(n)[k], d, at + "." + k) in Targets(items)
    {
      PropertyListed(o, n, d, at, kept, PropertyItem(o, n, d, at, k));
    }
    forall x | x in items && x.Descend? ensures Visit(Marked(x.to), x.location) in KeptPlaces(o, n, d, at) {
      PropertyListed(o, n, d, at, kept, x);
    }
  }

  lemma {:induction false} OneAddedRead(o: Schema, n: Schema, at: string, k: string, i: Issue)
    requires k in Named(n)
    ensures Tally(AddedItem(o, n, at, k), i) == Bit(Others(o).Forbid? && i == Issue(at + "." + k, PropertyForbidden))
    ensures Targets(AddedItem(o, n, at, k))
            == if Others(o).Rest? then {Place(Others(o).schema, Named(n)[k], Response, at + "." + k)} else {}
  {
    WhenReads(true, at + "." + k, PropertyForbidden, i);
    if Others(o).Rest? { DescendReads(Comparison(Others(o).schema, Named(n)[k], Response), at + "." + k, i); }
  }

  lemma {:induction false} AddedTally(o: Schema, n: Schema, d: Direction, at: string, added: seq<string>, i: Issue)
    requires forall k :: k in added ==> k in Named(n)
    requires forall j, k | 0 <= j < k < |added| :: added[j] != added[k]
    ensures Tally(AddedItems(o, n, d, at, added), i)
            == Bit(d.Response? && Others(o).Forbid? && i.change.PropertyForbidden?
                   && exists k :: k in added && i.location == at + "." + k)
  {
    if d.Response? && added != [] {
      var k, rest := added[0], added[1..];
      AddedTally(o, n, d, at, rest, i);
      Concat(AddedItem(o, n, at, k), AddedItems(o, n, d, at, rest), i);
      OneAddedRead(o, n, at, k, i);
      assert added == [k] + rest && k !in rest;
      if i.location == at + "." + k {
        forall j | j in rest ensures i.location != at + "." + j { PlacesDiffer(at, j, k); }
      }
    }
  }

  lemma {:induction false} AddedTargets(o: Schema, n: Schema, d: Direction, at: string, added: seq<string>)
    requires forall k :: k in added ==> k in Named(n)
    ensures Targets(AddedItems(o, n, d, at, added))
            == if d.Response? && Others(o).Rest? then
                 set k | k in added :: Place(Others(o).schema, Named(n)[k], Response, at + "." + k)
               else {}
  {
    if d.Response? && added != [] {
      AddedTargets(o, n, d, at, added[1..]);
      Concat(AddedItem(o, n, at, added[0]), AddedItems(o, n, d, at, added[1..]), Issue(at, TypeChanged));
      OneAddedRead(o, n, at, added[0], Issue(at, TypeChanged));
      assert added == [added[0]] + added[1..];
    }
  }

  lemma {:induction false} AddedRead(o: Schema, n: Schema, d: Direction, at: string, added: seq<string>, i: Issue)
    requires Enumerates(added, Named(n).Keys - Named(o).Keys)
    ensures Tally(AddedItems(o, n, d, at, added), i) == Bit(i.change.PropertyForbidden? && ObjectBreaks(o, n, d, at, i))
    ensures Targets(AddedItems(o, n, d, at, added)) == AddedPlaces(o, n, d, at)
  {
    AddedTally(o, n, d, at, added, i);
    AddedTargets(o, n, d, at, added);
    assert Below(i.location, at, Named(n).Keys - Named(o).Keys)
           <==> exists k :: k in added && i.location == at + "." + k;
  }

  lemma {:induction false} ObjectsRead(o: Schema, n: Schema, d: Direction, at: string, names: Names, i: Issue)
    requires Lists(names, o, n, d)
    ensures Tally(ObjectItems(o, n, d, at, names), i) == Bit(ObjectBreaks(o, n, d, at, i))
    ensures Targets(ObjectItems(o, n, d, at, names)) == KeptPlaces(o, n, d, at) + AddedPlaces(o, n, d, at)
  {
    var a, b, c := RequiredItems(names.broken, at), PropertyItems(o, n, d, at, names.kept),
                   AddedItems(o, n, d, at, names.added);
    ThreeParts(a, b, c, i);
    RequiredRead(o, n, d, at, names.broken, i);
    RemovedRead(o, n, d, at, names.kept, i);
    KeptRead(o, n, d, at, names.kept);
    AddedRead(o, n, d, at, names.added, i);
  }

  lemma {:induction false} ItemsRead(o: Schema, n: Schema, d: Direction, at: string, i: Issue)
    ensures Tally(ElementItems(o, n, d, at), i)
            == Bit(i == Issue(at + "[]", ItemsChanged) && !ItemsFit(Narrow(o, n, d), Wide(o, n, d)))
    ensures Targets(ElementItems(o, n, d, at)) == ItemPlaces(o, n, d, at)
  {
    WhenReads(true, at + "[]", ItemsChanged, i);
    WhenReads(false, at + "[]", ItemsChanged, i);
    if o.items.Is? && n.items.Is? { DescendReads(Comparison(o.items.schema, n.items.schema, d), at + "[]", i); }
  }

  lemma {:induction false} OthersRead(o: Schema, n: Schema, d: Direction, at: string, i: Issue)
    ensures Tally(OtherItems(o, n, d, at), i)
            == Bit(i == Issue(at + ".*", OthersChanged) && !OthersFit(Narrow(o, n, d), Wide(o, n, d)))
    ensures Targets(OtherItems(o, n, d, at)) == OtherPlaces(o, n, d, at)
  {
    WhenReads(true, at + ".*", OthersChanged, i);
    WhenReads(false, at + ".*", OthersChanged, i);
    if Others(o).Rest? && Others(n).Rest? {
      DescendReads(Comparison(Others(o).schema, Others(n).schema, d), at + ".*", i);
    }
  }

  lemma {:induction false} ElementsRead(o: Schema, n: Schema, d: Direction, at: string, i: Issue)
    ensures Tally(ElementSection(o, n, d, at), i)
            == Bit(ElementBreaks(Narrow(o, n, d), Wide(o, n, d), at, i))
    ensures Targets(ElementSection(o, n, d, at)) == ItemPlaces(o, n, d, at) + OtherPlaces(o, n, d, at)
  {
    Concat(ElementItems(o, n, d, at), OtherItems(o, n, d, at), i);
    ItemsRead(o, n, d, at, i);
    OthersRead(o, n, d, at, i);
  }

  lemma {:induction false} BranchTargets(o: Branches, d: Direction, at: string, keyword: string)
    ensures forall x | x in BranchItems(o, o, d, at, keyword) :: x.Descend?
    ensures Targets(BranchItems(o, o, d, at, keyword)) == BranchPlaces(o, o, d, at, keyword)
  {
    var items := BranchItems(o, o, d, at, keyword);
    forall j | 0 <= j < |List(o)| ensures BranchPlace(List(o)[j], d, at, keyword, j) in Targets(items) {
      assert items[j] in items;
    }
  }

  lemma {:induction false} BranchesRead(
    o: Branches, n: Branches, d: Direction, at: string, keyword: string, i: Issue)
    ensures Tally(BranchItems(o, n, d, at, keyword), i) == Bit(o != n && i == Issue(at, CompositionChanged(keyword)))
    ensures Targets(BranchItems(o, n, d, at, keyword)) == BranchPlaces(o, n, d, at, keyword)
  {
    if o == n {
      BranchTargets(o, d, at, keyword);
      Once(BranchItems(o, n, d, at, keyword), Found(i));
    } else {
      WhenReads(true, at, CompositionChanged(keyword), i);
    }
  }

  lemma {:induction false} NegationRead(o: Schema, n: Schema, d: Direction, at: string, i: Issue)
    ensures Tally(NegationItems(o, n, d, at), i) == Bit(i == Issue(at, NegationChanged) && o.negation != n.negation)
    ensures Targets(NegationItems(o, n, d, at)) == NegationPlaces(o, n, d, at)
  {
    WhenReads(true, at, NegationChanged, i);
    if o.negation == n.negation && Object(o.negation) {
      DescendReads(Comparison(o.negation.schema, n.negation.schema, Opposite(d)), at + ".not", i);
    }
  }

  lemma {:induction false} KeywordsDiffer(o: Schema, n: Schema, at: string, i: Issue)
    ensures Bit(CompositionBreaks(o, n, at, i))
            == Bit(o.anyOf != n.anyOf && i == Issue(at, CompositionChanged("anyOf")))
               + Bit(o.oneOf != n.oneOf && i == Issue(at, CompositionChanged("oneOf")))
               + Bit(o.allOf != n.allOf && i == Issue(at, CompositionChanged("allOf")))
               + Bit(o.negation != n.negation && i == Issue(at, NegationChanged))
  {
    assert "anyOf"[0] == 'a' && "oneOf"[0] == 'o' && "anyOf"[1] == 'n' && "allOf"[1] == 'l' && "allOf"[0] == 'a';
  }

  lemma {:induction false} CompositionsRead(o: Schema, n: Schema, d: Direction, at: string, i: Issue)
    ensures Tally(CompositionItems(o, n, d, at), i)
            == Bit(CompositionBreaks(o, n, at, i))
    ensures Targets(CompositionItems(o, n, d, at)) == CompositionPlaces(o, n, d, at)
  {
    var a, b, c, e := BranchItems(o.anyOf, n.anyOf, d, at, "anyOf"), BranchItems(o.oneOf, n.oneOf, d, at, "oneOf"),
                      BranchItems(o.allOf, n.allOf, d, at, "allOf"), NegationItems(o, n, d, at);
    BranchesRead(o.anyOf, n.anyOf, d, at, "anyOf", i);
    BranchesRead(o.oneOf, n.oneOf, d, at, "oneOf", i);
    BranchesRead(o.allOf, n.allOf, d, at, "allOf", i);
    NegationRead(o, n, d, at, i);
    FourParts(a, b, c, e, i);
    KeywordsDiffer(o, n, at, i);
  }

  lemma {:induction false} BoundsRead(
    o: Schema, n: Schema, d: Direction, at: string, bounds: seq<Bound>, lower: bool, i: Issue)
    requires forall b :: b in bounds ==> Lower(b) == lower
    requires forall j, k | 0 <= j < k < |bounds| :: bounds[j] != bounds[k]
    ensures Tally(BoundItems(o, n, d, at, bounds, lower), i)
            == Bit(i.change.BoundChanged? && i.change.bound in bounds
                   && Loosened(Narrow(o, n, d), Wide(o, n, d), at, i))
    ensures Targets(BoundItems(o, n, d, at, bounds, lower)) == {}
  {
    if bounds != [] {
      BoundsRead(o, n, d, at, bounds[1..], lower, i);
      Concat(When(Tightened(o, n, d, bounds[0], lower), at, BoundChanged(bounds[0])),
             BoundItems(o, n, d, at, bounds[1..], lower), i);
      WhenReads(Tightened(o, n, d, bounds[0], lower), at, BoundChanged(bounds[0]), i);
      assert Lower(bounds[0]) == lower;
      assert bounds == [bounds[0]] + bounds[1..] && bounds[0] !in bounds[1..];
    }
  }

  lemma {:induction false} LabelsDiffer(o: Schema, n: Schema, at: string, i: Issue)
    ensures Bit(LabelBreaks(o, n, at, i))
            == Bit(o.discriminator != n.discriminator && i == Issue(at, DiscriminatorChanged))
               + Bit(o.format != n.format && i == Issue(at, FormatChanged))
               + Bit(o.writeOnly != n.writeOnly && i == Issue(at, WriteOnlyChanged))
  {
  }

  lemma {:induction false} LabelsRead(o: Schema, n: Schema, at: string, i: Issue)
    ensures Tally(LabelItems(o, n, at), i) == Bit(LabelBreaks(o, n, at, i))
    ensures Targets(LabelItems(o, n, at)) == {}
  {
    ThreeParts(When(o.discriminator != n.discriminator, at, DiscriminatorChanged),
               When(o.format != n.format, at, FormatChanged),
               When(o.writeOnly != n.writeOnly, at, WriteOnlyChanged), i);
    WhenReads(o.discriminator != n.discriminator, at, DiscriminatorChanged, i);
    WhenReads(o.format != n.format, at, FormatChanged, i);
    WhenReads(o.writeOnly != n.writeOnly, at, WriteOnlyChanged, i);
    LabelsDiffer(o, n, at, i);
  }

  lemma {:induction false} PatternRead(o: Schema, n: Schema, d: Direction, at: string, i: Issue)
    ensures Tally(PatternItems(o, n, d, at), i)
            == Bit(i == Issue(at, PatternChanged) && !PatternFit(Narrow(o, n, d), Wide(o, n, d)))
    ensures Targets(PatternItems(o, n, d, at)) == {}
  {
    WhenReads(true, at, PatternChanged, i);
    WhenReads(false, at, PatternChanged, i);
  }

  lemma {:induction false} EveryBound(b: Bound)
    ensures b in LowerBounds || b in UpperBounds
    ensures b in UpperBounds ==> !Lower(b)
  {
    match b {
      case Minimum => assert LowerBounds[0] == b;
      case ExclusiveMinimum => assert LowerBounds[1] == b;
      case MinLength => assert LowerBounds[2] == b;
      case MinItems => assert LowerBounds[3] == b;
      case MinProperties => assert LowerBounds[4] == b;
      case Maximum => assert UpperBounds[0] == b;
      case ExclusiveMaximum => assert UpperBounds[1] == b;
      case MaxLength => assert UpperBounds[2] == b;
      case MaxItems => assert UpperBounds[3] == b;
      case MaxProperties => assert UpperBounds[4] == b;
    }
  }

  lemma {:induction false} AllBoundsRead(o: Schema, n: Schema, d: Direction, at: string, i: Issue)
    ensures var lower, upper := BoundItems(o, n, d, at, LowerBounds, true), BoundItems(o, n, d, at, UpperBounds, false);
            && Targets(lower) == Targets(upper) == {}
            && Tally(lower, i) + Tally(upper, i)
               == Bit(i.change.BoundChanged? && Loosened(Narrow(o, n, d), Wide(o, n, d), at, i))
  {
    forall b: Bound ensures (b in LowerBounds || b in UpperBounds) && (b in UpperBounds ==> !Lower(b)) {
      EveryBound(b);
    }
    BoundsRead(o, n, d, at, LowerBounds, true, i);
    BoundsRead(o, n, d, at, UpperBounds, false, i);
  }

  lemma {:induction false} LimitsDiffer(narrow: Schema, wide: Schema, at: string, i: Issue)
    ensures Bit(LimitBreaks(narrow, wide, at, i))
            == Bit(i.change.BoundChanged? && Loosened(narrow, wide, at, i))
               + Bit(i == Issue(at, PatternChanged) && !PatternFit(narrow, wide))
  {
  }

  lemma {:induction false} LimitsRead(o: Schema, n: Schema, d: Direction, at: string, i: Issue)
    ensures Tally(LimitItems(o, n, d, at), i)
            == Bit(LabelBreaks(o, n, at, i)) + Bit(LimitBreaks(Narrow(o, n, d), Wide(o, n, d), at, i))
    ensures Targets(LimitItems(o, n, d, at)) == {}
  {
    FourParts(LabelItems(o, n, at), BoundItems(o, n, d, at, LowerBounds, true),
              BoundItems(o, n, d, at, UpperBounds, false), PatternItems(o, n, d, at), i);
    LabelsRead(o, n, at, i);
    AllBoundsRead(o, n, d, at, i);
    PatternRead(o, n, d, at, i);
    LimitsDiffer(Narrow(o, n, d), Wide(o, n, d), at, i);
  }

  /** No issue belongs to two groups. */
  lemma {:induction false} GroupsDiffer(o: Schema, n: Schema, d: Direction, at: string, i: Issue)
    ensures Bit(Breaks(o, n, d, at, i))
            == Bit(ValueBreaks(Narrow(o, n, d), Wide(o, n, d), at, i)) + Bit(ObjectBreaks(o, n, d, at, i))
               + Bit(ElementBreaks(Narrow(o, n, d), Wide(o, n, d), at, i)) + Bit(CompositionBreaks(o, n, at, i))
               + (Bit(LabelBreaks(o, n, at, i)) + Bit(LimitBreaks(Narrow(o, n, d), Wide(o, n, d), at, i)))
  {
  }

  lemma {:induction false} FiveParts(
    a: seq<Item>, b: seq<Item>, c: seq<Item>, e: seq<Item>, f: seq<Item>, i: Issue)
    ensures Tally(a + b + c + e + f, i) == Tally(a, i) + Tally(b, i) + Tally(c, i) + Tally(e, i) + Tally(f, i)
    ensures Targets(a + b + c + e + f) == Targets(a) + Targets(b) + Targets(c) + Targets(e) + Targets(f)
  {
    FourParts(a, b, c, e, i);
    Concat(a + b + c + e, f, i);
  }

  lemma {:induction false} PlanParts(o: Schema, n: Schema, d: Direction, at: string, names: Names, i: Issue)
    requires Lists(names, o, n, d)
    ensures Tally(Plan(o, n, d, at, names), i)
            == Tally(ValueSection(o, n, d, at), i) + Tally(ObjectItems(o, n, d, at, names), i)
               + Tally(ElementSection(o, n, d, at), i) + Tally(CompositionItems(o, n, d, at), i)
               + Tally(LimitItems(o, n, d, at), i)
    ensures Targets(Plan(o, n, d, at, names))
            == Targets(ValueSection(o, n, d, at)) + Targets(ObjectItems(o, n, d, at, names))
               + Targets(ElementSection(o, n, d, at)) + Targets(CompositionItems(o, n, d, at))
               + Targets(LimitItems(o, n, d, at))
  {
    FiveParts(ValueSection(o, n, d, at), ObjectItems(o, n, d, at, names), ElementSection(o, n, d, at),
              CompositionItems(o, n, d, at), LimitItems(o, n, d, at), i);
  }

  lemma {:induction false} PlanTally(o: Schema, n: Schema, d: Direction, at: string, names: Names, i: Issue)
    requires Lists(names, o, n, d)
    ensures Tally(Plan(o, n, d, at, names), i) == Bit(Breaks(o, n, d, at, i))
  {
    PlanParts(o, n, d, at, names, i);
    ValuesRead(o, n, d, at, i);
    ObjectsRead(o, n, d, at, names, i);
    ElementsRead(o, n, d, at, i);
    CompositionsRead(o, n, d, at, i);
    LimitsRead(o, n, d, at, i);
    GroupsDiffer(o, n, d, at, i);
  }

  lemma {:induction false} PlanTargets(o: Schema, n: Schema, d: Direction, at: string, names: Names, i: Issue)
    requires Lists(names, o, n, d)
    ensures Targets(Plan(o, n, d, at, names)) == Places(o, n, d, at)
  {
    PlanParts(o, n, d, at, names, i);
    ValuesRead(o, n, d, at, i);
    ObjectsRead(o, n, d, at, names, i);
    ElementsRead(o, n, d, at, i);
    CompositionsRead(o, n, d, at, i);
    LimitsRead(o, n, d, at, i);
  }

  /** A comparison reports every break, once, and nothing else; and it goes on to exactly the places it should. */
  lemma {:induction false} PlanReads(o: Schema, n: Schema, d: Direction, at: string, names: Names, i: Issue)
    requires Lists(names, o, n, d)
    ensures Tally(Plan(o, n, d, at, names), i) == Bit(Breaks(o, n, d, at, i))
    ensures Targets(Plan(o, n, d, at, names)) == Places(o, n, d, at)
  {
    PlanTally(o, n, d, at, names, i);
    PlanTargets(o, n, d, at, names, i);
  }

  lemma {:induction false} BrokenPart(o: Schema, n: Schema, d: Direction, at: string) returns (i: Issue)
    requires var narrow, wide := Narrow(o, n, d), Wide(o, n, d);
             !(ValueFit(narrow, wide) && ElementFit(narrow, wide) && ObjectFit(o, n, d))
    ensures Breaks(o, n, d, at, i)
  {
    var narrow, wide := Narrow(o, n, d), Wide(o, n, d);
    if !TypesFit(narrow, wide) { return Issue(at, TypeChanged); }
    if !AllowedFit(narrow, wide) { return Issue(at, ValuesChanged); }
    if !UniqueFit(narrow, wide) { return Issue(at, UniquenessChanged); }
    if !ItemsFit(narrow, wide) { return Issue(at + "[]", ItemsChanged); }
    if !OthersFit(narrow, wide) { return Issue(at + ".*", OthersChanged); }
    if k :| k in Required(wide) && k !in Required(narrow) { return Issue(at + "." + k, RequirednessChanged); }
    if k :| k in Named(o).Keys && k !in Named(n).Keys { return Issue(at + "." + k, PropertyRemoved); }
    var k :| k in Named(n).Keys && k !in Named(o).Keys;
    return Issue(at + "." + k, PropertyForbidden);
  }

  lemma {:induction false} BrokenLimit(o: Schema, n: Schema, d: Direction, at: string) returns (i: Issue)
    requires !(SameComposition(o, n) && SameLabels(o, n) && LimitFit(Narrow(o, n, d), Wide(o, n, d)))
    ensures Breaks(o, n, d, at, i)
  {
    if o.anyOf != n.anyOf { return Issue(at, CompositionChanged("anyOf")); }
    if o.oneOf != n.oneOf { return Issue(at, CompositionChanged("oneOf")); }
    if o.allOf != n.allOf { return Issue(at, CompositionChanged("allOf")); }
    if o.negation != n.negation { return Issue(at, NegationChanged); }
    if o.discriminator != n.discriminator { return Issue(at, DiscriminatorChanged); }
    if o.format != n.format { return Issue(at, FormatChanged); }
    if o.writeOnly != n.writeOnly { return Issue(at, WriteOnlyChanged); }
    if !PatternFit(Narrow(o, n, d), Wide(o, n, d)) { return Issue(at, PatternChanged); }
    var b :| b in Wide(o, n, d).bounds && !Tighter(Narrow(o, n, d), Wide(o, n, d), b);
    return Issue(at, BoundChanged(b));
  }

  /** Two schemas fit exactly when nothing breaks. */
  lemma {:induction false} FitsUnbroken(o: Schema, n: Schema, d: Direction, at: string)
    ensures Fit(o, n, d) <==> forall i :: !Breaks(o, n, d, at, i)
  {
    if !(ValueFit(Narrow(o, n, d), Wide(o, n, d)) && ElementFit(Narrow(o, n, d), Wide(o, n, d)) && ObjectFit(o, n, d)) {
      var i := BrokenPart(o, n, d, at);
    } else if !(SameComposition(o, n) && SameLabels(o, n) && LimitFit(Narrow(o, n, d), Wide(o, n, d))) {
      var i := BrokenLimit(o, n, d, at);
    }
  }

  // ----- the places are those of the comparisons needed -----

  lemma {:induction false} Housed(a: set<Visit>, b: set<Visit>, x: set<Comparison>, y: set<Comparison>)
    requires Houses(a, x) && Houses(b, y)
    ensures Houses(a + b, x + y)
  {
    forall v | v in a + b ensures Needed(v, x + y) {
      var c :| c in (if v in a then x else y) && v.comparison == Marked(c);
    }
    forall c | c in x + y ensures Placed(c, a + b) {
      var v :| v in (if c in x then a else b) && v.comparison == Marked(c);
    }
  }

  lemma {:induction false} SingleHoused(c: Comparison, location: string)
    ensures Houses({Visit(Marked(c), location)}, {c})
  {
    assert Visit(Marked(c), location).comparison == Marked(c);
  }

  lemma {:induction false} KeptHoused(o: Schema, n: Schema, d: Direction, at: string)
    ensures Houses(KeptPlaces(o, n, d, at), KeptNeeds(o, n, d))
  {
    forall k | k in Named(o) && k in Named(n)
      ensures Needed(Place(Named(o)[k], Named(n)[k], d, at + "." + k), KeptNeeds(o, n, d))
      ensures Placed(Comparison(Named(o)[k], Named(n)[k], d), KeptPlaces(o, n, d, at))
    {
      assert Comparison(Named(o)[k], Named(n)[k], d) in KeptNeeds(o, n, d);
      assert Place(Named(o)[k], Named(n)[k], d, at + "." + k) in KeptPlaces(o, n, d, at);
    }
  }

  lemma {:induction false} AddedHoused(o: Schema, n: Schema, d: Direction, at: string)
    ensures Houses(AddedPlaces(o, n, d, at), AddedNeeds(o, n, d))
  {
    if d.Response? && Others(o).Rest? {
      forall k | k in Named(n) && k !in Named(o)
        ensures Needed(Place(Others(o).schema, Named(n)[k], Response, at + "." + k), AddedNeeds(o, n, d))
        ensures Placed(Comparison(Others(o).schema, Named(n)[k], Response), AddedPlaces(o, n, d, at))
      {
        assert Comparison(Others(o).schema, Named(n)[k], Response) in AddedNeeds(o, n, d);
        assert Place(Others(o).schema, Named(n)[k], Response, at + "." + k) in AddedPlaces(o, n, d, at);
      }
    }
  }

  lemma {:induction false} BranchHoused(o: Branches, n: Branches, d: Direction, at: string, keyword: string)
    ensures Houses(BranchPlaces(o, n, d, at, keyword), BranchNeeds(o, n, d))
  {
    if o == n {
      forall t | t in List(o)
        ensures Placed(Comparison(t, t, d), BranchPlaces(o, n, d, at, keyword))
      {
        var i :| 0 <= i < |List(o)| && List(o)[i] == t;
        assert BranchPlace(t, d, at, keyword, i) in BranchPlaces(o, n, d, at, keyword);
      }
    }
  }

  lemma {:induction false} ElementsHoused(o: Schema, n: Schema, d: Direction, at: string)
    ensures Houses(NamePlaces(o, n, d, at), NameNeeds(o, n, d))
    ensures Houses(ItemPlaces(o, n, d, at) + OtherPlaces(o, n, d, at), ElementNeeds(o, n, d))
    ensures Houses(NegationPlaces(o, n, d, at), NegationNeeds(o, n, d))
  {
    SingleHoused(Comparison(NameOf(o.names), NameOf(n.names), d), at + ".<property-name>");
    if o.items.Is? && n.items.Is? { SingleHoused(Comparison(o.items.schema, n.items.schema, d), at + "[]"); }
    if Others(o).Rest? && Others(n).Rest? {
      SingleHoused(Comparison(Others(o).schema, Others(n).schema, d), at + ".*");
    }
    if o.negation == n.negation && Object(o.negation) {
      SingleHoused(Comparison(o.negation.schema, n.negation.schema, Opposite(d)), at + ".not");
    }
    assert Houses({}, {});
    Housed(ItemPlaces(o, n, d, at), OtherPlaces(o, n, d, at),
           if o.items.Is? && n.items.Is? then {Comparison(o.items.schema, n.items.schema, d)} else {},
           if Others(o).Rest? && Others(n).Rest? then {Comparison(Others(o).schema, Others(n).schema, d)} else {});
  }

  lemma {:induction false} CompositionsHoused(o: Schema, n: Schema, d: Direction, at: string)
    ensures Houses(CompositionPlaces(o, n, d, at), CompositionNeeds(o, n, d))
  {
    var a, b, c := BranchPlaces(o.anyOf, n.anyOf, d, at, "anyOf"), BranchPlaces(o.oneOf, n.oneOf, d, at, "oneOf"),
                   BranchPlaces(o.allOf, n.allOf, d, at, "allOf");
    var x, y, z := BranchNeeds(o.anyOf, n.anyOf, d), BranchNeeds(o.oneOf, n.oneOf, d), BranchNeeds(o.allOf, n.allOf, d);
    BranchHoused(o.anyOf, n.anyOf, d, at, "anyOf");
    BranchHoused(o.oneOf, n.oneOf, d, at, "oneOf");
    BranchHoused(o.allOf, n.allOf, d, at, "allOf");
    ElementsHoused(o, n, d, at);
    Housed(a, b, x, y);
    Housed(a + b, c, x + y, z);
    Housed(a + b + c, NegationPlaces(o, n, d, at), x + y + z, NegationNeeds(o, n, d));
  }

  /** Whatever a comparison goes on to, it rests on, and the other way round. */
  lemma {:induction false} PlacesHouse(o: Schema, n: Schema, d: Direction, at: string)
    ensures Houses(Places(o, n, d, at), Needs(o, n, d))
  {
    var names, objects := NamePlaces(o, n, d, at), KeptPlaces(o, n, d, at) + AddedPlaces(o, n, d, at);
    var elements := ItemPlaces(o, n, d, at) + OtherPlaces(o, n, d, at);
    var x, y := NameNeeds(o, n, d), KeptNeeds(o, n, d) + AddedNeeds(o, n, d);
    KeptHoused(o, n, d, at);
    AddedHoused(o, n, d, at);
    ElementsHoused(o, n, d, at);
    CompositionsHoused(o, n, d, at);
    Housed(KeptPlaces(o, n, d, at), AddedPlaces(o, n, d, at), KeptNeeds(o, n, d), AddedNeeds(o, n, d));
    Housed(names, objects, x, y);
    Housed(names + objects, elements, x + y, ElementNeeds(o, n, d));
    Housed(names + objects + elements, CompositionPlaces(o, n, d, at), x + y + ElementNeeds(o, n, d),
           CompositionNeeds(o, n, d));
  }
}
