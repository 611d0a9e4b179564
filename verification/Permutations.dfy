/** Lists up to reordering: picking, flattening and pushing, as they act on multisets. */
module Permutations {
  function Range(a: nat, b: nat): (r: seq<nat>)
    ensures |r| == if a <= b then b - a else 0
    ensures forall i :: 0 <= i < |r| ==> r[i] == a + i
  {
    seq(if a <= b then b - a else 0, i requires 0 <= i => a + i)
  }

  lemma RangeAppend(a: nat, b: nat, c: nat)
    requires a <= b <= c
    ensures Range(a, c) == Range(a, b) + Range(b, c)
  {
  }

  function Pick<T>(s: seq<T>, picks: seq<nat>): (r: seq<T>)
    requires forall i :: 0 <= i < |picks| ==> picks[i] < |s|
    ensures |r| == |picks| && forall i :: 0 <= i < |picks| ==> r[i] == s[picks[i]]
  {
    seq(|picks|, i requires 0 <= i < |picks| => s[picks[i]])
  }

  function Without<T>(s: seq<T>, i: nat): (r: seq<T>)
    requires i < |s|
    ensures |r| == |s| - 1
  {
    s[..i] + s[i + 1..]
  }

  lemma SplitAt<T>(s: seq<T>, i: nat)
    requires i < |s|
    ensures s == s[..i] + [s[i]] + s[i + 1..]
    ensures Without(s, i) == s[..i] + s[i + 1..]
  {
  }

  lemma WithoutMultiset<T>(s: seq<T>, i: nat)
    requires i < |s|
    ensures multiset(s) == multiset(Without(s, i)) + multiset{s[i]}
  {
    assert s == s[..i] + [s[i]] + s[i + 1..];
  }

  lemma SnocMultiset<T>(s: seq<T>)
    requires s != []
    ensures multiset(s) == multiset(s[..|s| - 1]) + multiset{s[|s| - 1]}
  {
    assert s == s[..|s| - 1] + [s[|s| - 1]];
  }

  lemma CancelOne<T>(a: multiset<T>, b: multiset<T>, x: T)
    requires a + multiset{x} == b + multiset{x}
    ensures a == b
  {
    forall y ensures a[y] == b[y] {
      assert (a + multiset{x})[y] == (b + multiset{x})[y];
    }
  }

  /** Where a permutation of `b` keeps the last element of `b`. */
  lemma FindLast<T>(a: seq<T>, b: seq<T>) returns (i: nat)
    requires b != [] && multiset(a) == multiset(b)
    ensures i < |a| && a[i] == b[|b| - 1] && multiset(Without(a, i)) == multiset(b[..|b| - 1])
  {
    var x := b[|b| - 1];
    assert x in multiset(b);
    assert x in a;
    i :| 0 <= i < |a| && a[i] == x;
    WithoutMultiset(a, i);
    SnocMultiset(b);
    CancelOne(multiset(Without(a, i)), multiset(b[..|b| - 1]), x);
  }

  lemma SameLength<T>(a: seq<T>, b: seq<T>)
    requires multiset(a) == multiset(b)
    ensures |a| == |b|
  {
    assert |multiset(a)| == |multiset(b)|;
  }

  lemma SameElements<T>(a: seq<T>, b: seq<T>)
    requires multiset(a) == multiset(b)
    ensures forall x :: x in a <==> x in b
  {
    forall x ensures x in a <==> x in b {
      assert x in multiset(a) <==> x in multiset(b);
    }
  }

  /** Reordering the picks reorders what is picked. */
  lemma {:induction false} PickPermutes<T>(s: seq<T>, a: seq<nat>, b: seq<nat>)
    requires multiset(a) == multiset(b)
    requires forall i :: 0 <= i < |a| ==> a[i] < |s|
    requires forall i :: 0 <= i < |b| ==> b[i] < |s|
    ensures multiset(Pick(s, a)) == multiset(Pick(s, b))
  {
    SameLength(a, b);
    if b != [] {
      var i := FindLast(a, b);
      PickPermutes(s, Without(a, i), b[..|b| - 1]);
      PickWithout(s, a, i);
      SnocMultiset(Pick(s, b));
      assert Pick(s, b)[..|b| - 1] == Pick(s, b[..|b| - 1]);
    }
  }

  lemma PickWithout<T>(s: seq<T>, a: seq<nat>, i: nat)
    requires i < |a| && forall k :: 0 <= k < |a| ==> a[k] < |s|
    ensures multiset(Pick(s, a)) == multiset(Pick(s, Without(a, i))) + multiset{s[a[i]]}
  {
    WithoutMultiset(Pick(s, a), i);
    assert Without(Pick(s, a), i) == Pick(s, Without(a, i));
  }

  lemma PickAll<T>(s: seq<T>)
    ensures Pick(s, Range(0, |s|)) == s
  {
  }

  /** A permutation of `0..n` holds each of them once. */
  lemma PermutedRange(s: seq<nat>, n: nat)
    requires multiset(s) == multiset(Range(0, n))
    ensures |s| == n
    ensures forall i, j :: 0 <= i < j < |s| ==> s[i] != s[j]
    ensures forall i :: 0 <= i < |s| ==> s[i] < n
    ensures forall e: nat :: e < n ==> e in s
  {
    SameLength(s, Range(0, n));
    SameElements(s, Range(0, n));
    forall i | 0 <= i < |s| ensures s[i] < n {
      assert s[i] in Range(0, n);
    }
    forall e: nat | e < n ensures e in s {
      assert Range(0, n)[e] == e;
    }
    forall i, j | 0 <= i < j < |s| ensures s[i] != s[j] {
      RangeOnce(n, s[j]);
      WithoutMultiset(s, j);
      assert Without(s, j)[i] == s[i];
      assert s[i] in multiset(Without(s, j));
    }
  }

  lemma {:induction false} RangeOnce(n: nat, x: nat)
    ensures multiset(Range(0, n))[x] <= 1
  {
    if n > 0 {
      RangeOnce(n - 1, x);
      assert Range(0, n) == Range(0, n - 1) + [n - 1];
      if x == n - 1 {
        assert x !in Range(0, n - 1);
        assert x !in multiset(Range(0, n - 1));
      }
    }
  }

  function Flatten<T>(ss: seq<seq<T>>): seq<T> {
    if ss == [] then [] else Flatten(ss[..|ss| - 1]) + ss[|ss| - 1]
  }

  lemma FlattenSnoc<T>(ss: seq<seq<T>>, s: seq<T>)
    ensures Flatten(ss + [s]) == Flatten(ss) + s
  {
    assert (ss + [s])[..|ss|] == ss;
  }

  /** Pushing onto one of the lists adds one element to the whole. */
  lemma {:induction false} FlattenPush<T>(ss: seq<seq<T>>, w: nat, x: T)
    requires w < |ss|
    ensures multiset(Flatten(ss[w := ss[w] + [x]])) == multiset(Flatten(ss)) + multiset{x}
  {
    var n := |ss| - 1;
    var pushed := ss[w := ss[w] + [x]];
    if w < n {
      FlattenPush(ss[..n], w, x);
      assert pushed[..n] == ss[..n][w := ss[..n][w] + [x]];
    } else {
      assert pushed[..n] == ss[..n];
      assert Flatten(pushed) == Flatten(ss) + [x];
    }
  }

  lemma {:induction false} FlattenOfEmpty<T>(ss: seq<seq<T>>)
    requires forall w :: 0 <= w < |ss| ==> ss[w] == []
    ensures Flatten(ss) == []
  {
    if ss != [] { FlattenOfEmpty(ss[..|ss| - 1]); }
  }

  /** Every element of every list is in the whole. */
  lemma {:induction false} FlattenHas<T>(ss: seq<seq<T>>, w: nat, i: nat)
    requires w < |ss| && i < |ss[w]|
    ensures ss[w][i] in Flatten(ss)
  {
    if w < |ss| - 1 { FlattenHas(ss[..|ss| - 1], w, i); }
  }
}
