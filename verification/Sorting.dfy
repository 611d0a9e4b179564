/** Order: the lesser of two numbers, increasing sequences, and sorting by a key. */
module Sorting {
  function Min(a: nat, b: nat): nat { if a <= b then a else b }

  ghost predicate Increasing(s: seq<nat>) {
    forall i, j :: 0 <= i < j < |s| ==> s[i] < s[j]
  }

  ghost predicate SortedBy<T>(s: seq<T>, key: T -> real) {
    forall i, j :: 0 <= i < j < |s| ==> key(s[i]) <= key(s[j])
  }

  /** Puts `x` after the elements with a key no greater than its own. */
  method InsertBy<T>(s: seq<T>, x: T, key: T -> real) returns (r: seq<T>)
    requires SortedBy(s, key)
    ensures exists i :: 0 <= i <= |s| && r == s[..i] + [x] + s[i..]
    ensures SortedBy(r, key)
  {
    var i := 0;
    while i < |s| && key(s[i]) <= key(x)
      invariant 0 <= i <= |s| && forall j :: 0 <= j < i ==> key(s[j]) <= key(x)
    {
      i := i + 1;
    }
    r := s[..i] + [x] + s[i..];
  }

  lemma InsertedOnce<T>(s: seq<T>, x: T, r: seq<T>, i: nat)
    requires i <= |s| && r == s[..i] + [x] + s[i..]
    ensures multiset(r) == multiset(s) + multiset{x}
  {
    assert s == s[..i] + s[i..];
  }

  /** Sorts by key; nothing is promised about the order of equal keys. */
  method SortBy<T>(s: seq<T>, key: T -> real) returns (r: seq<T>)
    ensures multiset(r) == multiset(s) && |r| == |s|
    ensures SortedBy(r, key)
  {
    hide SortedBy;
    r := [];
    assert SortedBy<T>([], key) by { SortedNothing(key); }
    for n := 0 to |s|
      invariant multiset(r) == multiset(s[..n]) && |r| == n
      invariant SortedBy(r, key)
    {
      var r' := InsertBy(r, s[n], key);
      ghost var i :| 0 <= i <= |r| && r' == r[..i] + [s[n]] + r[i..];
      InsertedOnce(r, s[n], r', i);
      assert s[..n + 1] == s[..n] + [s[n]];
      r := r';
    }
    assert s[..|s|] == s;
  }

  lemma SortedNothing<T>(key: T -> real)
    ensures SortedBy<T>([], key)
  {
  }
}
