/** Which documents are guarded: those in which no definition leads back to itself at the same value. */
module Guards {
  import opened Core
  import opened Walks
  import opened Schemas
  import opened Compatibility

  ghost function Step(defs: Definitions): (Schema, Schema) -> bool { (s, t) => InPlace(defs, s, t) }

  ghost predicate Leads(defs: Definitions, path: seq<Schema>, s: Schema, t: Schema) {
    |path| >= 2 && path[0] == s && path[|path| - 1] == t && Walk(Step(defs), path)
  }

  /** `t` is reached from `s` by one or more steps that stay at the same value. */
  ghost predicate Steps(defs: Definitions, s: Schema, t: Schema) { exists path :: Leads(defs, path, s, t) }

  ghost predicate Circular(defs: Definitions, k: string) { k in defs && Steps(defs, defs[k], defs[k]) }

  lemma {:induction false} OneStep(defs: Definitions, s: Schema, t: Schema)
    requires InPlace(defs, s, t)
    ensures Steps(defs, s, t)
  {
    var path := [s, t];
    assert Follows(Step(defs), path, 0);
    assert Leads(defs, path, s, t);
  }

  lemma {:induction false} StepsOn(defs: Definitions, s: Schema, t: Schema, x: Schema)
    requires Steps(defs, s, t) && Steps(defs, t, x)
    ensures Steps(defs, s, x)
  {
    var path :| Leads(defs, path, s, t);
    var more :| Leads(defs, more, t, x);
    WalkJoin(Step(defs), path, more);
    assert Leads(defs, path + more[1..], s, x);
  }

  // ----- what can be reached is finite -----

  ghost function Judges(s: Schema): set<Schema> {
    BranchSet(s.anyOf) + BranchSet(s.oneOf) + BranchSet(s.allOf) + ChildSet(s.negation)
  }

  /** Everything written below a schema that judges the same value. */
  ghost function Under(s: Schema): set<Schema> {
    Judges(s) + set k, x | k in Judges(s) && x in Under(k) :: x
  }

  ghost function Bound(defs: Definitions, s: Schema): set<Schema> {
    Under(s) + (set k | k in defs :: defs[k]) + set k, x | k in defs && x in Under(defs[k]) :: x
  }

  lemma {:induction false} UnderClosed(s: Schema, x: Schema, y: Schema)
    requires x in Under(s) && y in Judges(x)
    ensures y in Under(s)
    decreases s
  {
    if x !in Judges(s) {
      var k :| k in Judges(s) && x in Under(k);
      UnderClosed(k, x, y);
    } else {
      assert y in Under(x);
    }
  }

  lemma {:induction false} BoundClosed(defs: Definitions, s: Schema, x: Schema, y: Schema)
    requires (x == s || x in Bound(defs, s)) && InPlace(defs, x, y)
    ensures y in Bound(defs, s)
  {
    if y in Judges(x) {
      if x in Under(s) {
        UnderClosed(s, x, y);
      } else if k :| k in defs && x in Under(defs[k]) {
        UnderClosed(defs[k], x, y);
      } else if x != s {
        var k :| k in defs && x == defs[k];
        assert y in Under(defs[k]);
      }
    }
  }

  lemma {:induction false} PathBound(defs: Definitions, s: Schema, path: seq<Schema>, i: nat)
    requires 0 < i < |path| && path[0] == s && Walk(Step(defs), path)
    ensures path[i] in Bound(defs, s)
  {
    if i > 1 { PathBound(defs, s, path, i - 1); }
    assert Follows(Step(defs), path, i - 1);
    BoundClosed(defs, s, path[i - 1], path[i]);
  }

  ghost function Reach(defs: Definitions, s: Schema): set<Schema> {
    set t | t in Bound(defs, s) && Steps(defs, s, t)
  }

  lemma {:induction false} ReachAll(defs: Definitions, s: Schema, t: Schema)
    ensures t in Reach(defs, s) <==> Steps(defs, s, t)
  {
    if path :| Leads(defs, path, s, t) { PathBound(defs, s, path, |path| - 1); }
  }

  lemma {:induction false} ReachShrinks(defs: Definitions, s: Schema, t: Schema)
    requires InPlace(defs, s, t) && !Steps(defs, t, t)
    ensures |Reach(defs, t)| < |Reach(defs, s)|
  {
    OneStep(defs, s, t);
    ReachAll(defs, s, t);
    ReachAll(defs, t, t);
    forall x | x in Reach(defs, t) ensures x in Reach(defs, s) {
      StepsOn(defs, s, t, x);
      ReachAll(defs, s, x);
    }
    Subsets(Reach(defs, t), Reach(defs, s) - {t});
  }

  // ----- a circle goes through a definition -----

  lemma {:induction false} Falling(path: seq<Schema>, i: nat)
    requires 0 < i < |path| && forall j :: 0 <= j < |path| - 1 ==> Written(path, j)
    ensures path[i] < path[0]
  {
    assert Written(path, i - 1);
    if i > 1 { Falling(path, i - 1); }
  }

  /** The step at `i` goes to a branch, not along a reference. */
  ghost predicate Written(path: seq<Schema>, i: nat)
    requires i < |path| - 1
  {
    path[i + 1] in Judges(path[i])
  }

  /** A circle can be entered at any of its points. */
  lemma {:induction false} Rotate(defs: Definitions, path: seq<Schema>, i: nat)
    requires i < |path| - 1 && path[0] == path[|path| - 1] && Walk(Step(defs), path)
    ensures Steps(defs, path[i + 1], path[i + 1])
  {
    var back, round := path[i + 1..|path|], path[0..i + 2];
    WalkPart(Step(defs), path, i + 1, |path|);
    WalkPart(Step(defs), path, 0, i + 2);
    WalkJoin(Step(defs), back, round);
    var all := back + round[1..];
    assert all[0] == path[i + 1];
    assert |all| == |path|;
    assert all[|all| - 1] == round[|round| - 1];
    assert Leads(defs, all, path[i + 1], path[i + 1]);
  }

  lemma {:induction false} CircleThroughDefinition(defs: Definitions, t: Schema) returns (k: string)
    requires Steps(defs, t, t)
    ensures Circular(defs, k)
  {
    var path: seq<Schema> :| Leads(defs, path, t, t);
    if i :| 0 <= i < |path| - 1 && !Written(path, i) {
      assert Follows(Step(defs), path, i);
      k := path[i].ref.value;
      Rotate(defs, path, i);
    } else {
      Falling(path, |path| - 1);
      assert false;
    }
  }

  // ----- exactly -----

  lemma {:induction false} RankFalls(d: Document, path: seq<Schema>, i: nat)
    requires Guarded(d) && 0 < i < |path| && Walk(Step(d.definitions), path)
    ensures d.rank(path[i]) < d.rank(path[0])
  {
    assert Follows(Step(d.definitions), path, i - 1);
    if i > 1 { RankFalls(d, path, i - 1); }
  }

  lemma {:induction false} GuardedNotCircular(d: Document, k: string)
    requires Guarded(d)
    ensures !Circular(d.definitions, k)
  {
    if Circular(d.definitions, k) {
      var path :| Leads(d.definitions, path, d.definitions[k], d.definitions[k]);
      RankFalls(d, path, |path| - 1);
      assert false;
    }
  }

  lemma {:induction false} NotCircularGuarded(defs: Definitions) returns (d: Document)
    requires forall k :: !Circular(defs, k)
    ensures d.definitions == defs && Guarded(d)
  {
    d := Document(defs, s => |Reach(defs, s)|);
    forall s, t | InPlace(defs, s, t) ensures |Reach(defs, t)| < |Reach(defs, s)| {
      if Steps(defs, t, t) { var k := CircleThroughDefinition(defs, t); }
      ReachShrinks(defs, s, t);
    }
  }

  ghost predicate CanBeGuarded(defs: Definitions) { exists d: Document :: d.definitions == defs && Guarded(d) }

  /** A document can be ranked exactly when no definition leads back to itself by references, branches and `not`. */
  lemma {:induction false} GuardedExactly(defs: Definitions)
    ensures CanBeGuarded(defs) <==> forall k :: !Circular(defs, k)
  {
    if d: Document :| d.definitions == defs && Guarded(d) {
      forall k ensures !Circular(defs, k) { GuardedNotCircular(d, k); }
    }
    if forall k :: !Circular(defs, k) {
      var d := NotCircularGuarded(defs);
    }
  }
}
