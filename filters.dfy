/** Filtering a list by a test, keeping its order: the list comprehensions
    with a condition that the scorecard and the care-gap pages use. */
module Filters {
  /** The elements of `s` that `keep` accepts, in the order of `s` (a list
      comprehension with a condition). */
  function Where<T>(s: seq<T>, keep: T -> bool): seq<T>
  {
    if s == [] then [] else (if keep(s[0]) then [s[0]] else []) + Where(s[1..], keep)
  }

  lemma {:induction false} WhereIsShorter<T>(s: seq<T>, keep: T -> bool)
    ensures |Where(s, keep)| <= |s|
  {
    if s != [] {
      WhereIsShorter(s[1..], keep);
    }
  }

  /** An element is kept exactly when it is in `s` and accepted. */
  lemma {:induction false} WhereMembers<T>(s: seq<T>, keep: T -> bool, x: T)
    ensures x in Where(s, keep) <==> x in s && keep(x)
  {
    if s != [] {
      WhereMembers(s[1..], keep, x);
      assert s == [s[0]] + s[1..];
    }
  }

  /** Filtering keeps the order: filtering a concatenation is concatenating
      the filtered parts. */
  lemma {:induction false} WhereAppend<T>(a: seq<T>, b: seq<T>, keep: T -> bool)
    ensures Where(a + b, keep) == Where(a, keep) + Where(b, keep)
  {
    if a != [] {
      WhereAppend(a[1..], b, keep);
      assert (a + b)[1..] == a[1..] + b;
    } else {
      assert a + b == b;
    }
  }

  /** A filter that accepts every element of `s` returns `s` itself. */
  lemma {:induction false} WhereAllKept<T>(s: seq<T>, keep: T -> bool)
    requires forall i :: 0 <= i < |s| ==> keep(s[i])
    ensures Where(s, keep) == s
  {
    if s != [] {
      WhereAllKept(s[1..], keep);
    }
  }

  /** Two filters that never both accept an element select at most `|s|`
      elements between them. */
  lemma {:induction false} DisjointFilters<T>(s: seq<T>, f: T -> bool, g: T -> bool)
    requires forall i :: 0 <= i < |s| ==> !(f(s[i]) && g(s[i]))
    ensures |Where(s, f)| + |Where(s, g)| <= |s|
  {
    if s != [] {
      DisjointFilters(s[1..], f, g);
    }
  }
}
