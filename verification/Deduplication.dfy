/** Keeping the first of equal elements: the `seen` map both loops below are built around. */
module Deduplication {
  function FirstSeen<T(==,!new)>(s: seq<T>): (r: seq<T>)
    ensures forall x :: x in r <==> x in s
  {
    if s == [] then []
    else
      var front, last := FirstSeen(s[..|s| - 1]), s[|s| - 1];
      if last in s[..|s| - 1] then front else front + [last]
  }

  ghost predicate Distinct<T(!new)>(s: seq<T>) {
    forall i, j :: 0 <= i < j < |s| ==> s[i] != s[j]
  }

  /** Where x stands first in s. */
  function FirstIndex<T(==)>(s: seq<T>, x: T): (i: nat)
    requires x in s
    ensures i < |s| && s[i] == x
    ensures forall j :: 0 <= j < i ==> s[j] != x
  {
    if x in s[..|s| - 1] then FirstIndex(s[..|s| - 1], x)
    else
      assert s == s[..|s| - 1] + [s[|s| - 1]];
      |s| - 1
  }

  lemma FirstIndexOfPrefix<T>(s: seq<T>, n: nat, x: T)
    requires n <= |s| && x in s[..n]
    ensures FirstIndex(s, x) == FirstIndex(s[..n], x)
  {
    var i, k := FirstIndex(s, x), FirstIndex(s[..n], x);
    assert s[k] == x && s[..n][k] == x;
    assert i < n ==> s[..n][i] == x;
  }

  /** r lists elements of s by where they first occur there. */
  ghost predicate InFirstOrder<T>(s: seq<T>, r: seq<T>) {
    forall i, j :: 0 <= i < j < |r| ==> r[i] in s && r[j] in s && FirstIndex(s, r[i]) < FirstIndex(s, r[j])
  }

  /** No element twice, and in the order in which they first occur. */
  lemma {:induction false} FirstSeenInOrder<T(!new)>(s: seq<T>)
    ensures Distinct(FirstSeen(s)) && InFirstOrder(s, FirstSeen(s))
    decreases |s|
  {
    if s != [] {
      var n := |s| - 1;
      var r, front := FirstSeen(s), FirstSeen(s[..n]);
      FirstSeenInOrder(s[..n]);
      forall i, j | 0 <= i < j < |r| ensures r[i] in s && r[j] in s && FirstIndex(s, r[i]) < FirstIndex(s, r[j]) && r[i] != r[j] {
        assert r[i] == front[i] && r[i] in s[..n];
        FirstIndexOfPrefix(s, n, r[i]);
        if j < |front| {
          assert r[j] == front[j] && r[j] in s[..n];
          FirstIndexOfPrefix(s, n, r[j]);
        } else {
          assert r[j] == s[n] && r[j] !in s[..n];
        }
      }
    }
  }

  /** A list without repetitions is left alone. */
  lemma {:induction false} FirstSeenOfDistinct<T(!new)>(s: seq<T>)
    requires Distinct(s)
    ensures FirstSeen(s) == s
    decreases |s|
  {
    if s != [] {
      FirstSeenOfDistinct(s[..|s| - 1]);
      assert s == s[..|s| - 1] + [s[|s| - 1]];
    }
  }

  lemma FirstSeenExtends<T(!new)>(s: seq<T>, x: T)
    ensures FirstSeen(s + [x]) == if x in s then FirstSeen(s) else FirstSeen(s) + [x]
  {
    assert (s + [x])[..|s|] == s;
  }

  /** What the `seen` map holds. */
  function Elements<T(==,!new)>(s: seq<T>): (r: set<T>)
    ensures forall x :: x in r <==> x in s
  {
    if s == [] then {} else Elements(s[..|s| - 1]) + {s[|s| - 1]}
  }

  lemma ElementsExtend<T(!new)>(s: seq<T>, x: T)
    ensures Elements(s + [x]) == Elements(s) + {x}
  {
  }
}
