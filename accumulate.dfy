/**
 * What a loop over the indices 0, 1, ..., n-1 accumulates when each turn
 * adds a set of items to a graph, or appends a sequence to a list.
 */
module Accumulate {

  /** The union of `f(0)`, ..., `f(n - 1)`. */
  function UnionUpTo<T>(n: nat, f: nat -> set<T>): set<T>
  {
    if n == 0 then {} else UnionUpTo(n - 1, f) + f(n - 1)
  }

  /** Adding one more turn's items to a graph that holds the first turns' items. */
  lemma UnionGrows<T>(base: set<T>, done: set<T>, next: set<T>, cur: set<T>)
    requires cur == base + done
    ensures cur + next == base + (done + next)
  {
  }

  /** An item is in the union exactly when one of the turns contributed it. */
  lemma {:induction false} UnionUpToMember<T>(n: nat, f: nat -> set<T>, x: T)
    ensures x in UnionUpTo(n, f) <==> exists i :: 0 <= i < n && x in f(i)
  {
    if n > 0 {
      UnionUpToMember(n - 1, f, x);
    }
  }

  /** The concatenation `f(0) + ... + f(n - 1)`. */
  function ConcatUpTo<T>(n: nat, f: nat -> seq<T>): seq<T>
  {
    if n == 0 then [] else ConcatUpTo(n - 1, f) + f(n - 1)
  }

  /** An element is in the concatenation exactly when one of the turns appended it. */
  lemma {:induction false} ConcatUpToMember<T>(n: nat, f: nat -> seq<T>, x: T)
    ensures x in ConcatUpTo(n, f) <==> exists i :: 0 <= i < n && x in f(i)
  {
    if n > 0 {
      ConcatUpToMember(n - 1, f, x);
    }
  }

  /** A shorter concatenation is a prefix of a longer one. */
  lemma {:induction false} ConcatUpToPrefix<T>(n: nat, m: nat, f: nat -> seq<T>)
    requires n <= m
    ensures |ConcatUpTo(n, f)| <= |ConcatUpTo(m, f)|
    ensures ConcatUpTo(m, f)[..|ConcatUpTo(n, f)|] == ConcatUpTo(n, f)
    decreases m
  {
    if n < m {
      ConcatUpToPrefix(n, m - 1, f);
      var a, b := ConcatUpTo(m - 1, f), ConcatUpTo(n, f);
      assert (a + f(m - 1))[..|b|] == a[..|b|];
    }
  }
}
