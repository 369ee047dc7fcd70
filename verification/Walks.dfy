/** Walks along a relation. */
module Walks {
  ghost predicate Walk<T>(rel: (T, T) -> bool, path: seq<T>) {
    forall i :: 0 <= i < |path| - 1 ==> Follows(rel, path, i)
  }

  ghost predicate Follows<T>(rel: (T, T) -> bool, path: seq<T>, i: nat)
    requires i < |path| - 1
  {
    rel(path[i], path[i + 1])
  }

  lemma {:induction false} WalkAppend<T>(rel: (T, T) -> bool, path: seq<T>, b: T)
    requires path != [] && Walk(rel, path) && rel(path[|path| - 1], b)
    ensures Walk(rel, path + [b])
  {
    forall i | 0 <= i < |path| ensures Follows(rel, path + [b], i) {
      if i < |path| - 1 { assert Follows(rel, path, i); }
    }
  }

  lemma {:induction false} WalkPart<T>(rel: (T, T) -> bool, path: seq<T>, i: nat, j: nat)
    requires i < j <= |path| && Walk(rel, path)
    ensures Walk(rel, path[i..j])
  {
    forall k | 0 <= k < j - i - 1 ensures Follows(rel, path[i..j], k) { assert Follows(rel, path, i + k); }
  }

  lemma {:induction false} WalkJoin<T>(rel: (T, T) -> bool, path: seq<T>, more: seq<T>)
    requires path != [] && more != [] && path[|path| - 1] == more[0] && Walk(rel, path) && Walk(rel, more)
    ensures Walk(rel, path + more[1..])
  {
    var all := path + more[1..];
    forall k | 0 <= k < |all| - 1 ensures Follows(rel, all, k) {
      if k < |path| - 1 {
        assert Follows(rel, path, k);
      } else {
        assert Follows(rel, more, k - (|path| - 1));
      }
    }
  }
}
