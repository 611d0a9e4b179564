/**
 Least-recently-used eviction: files go in the order of their last access until the rest fits.
 Files that cannot be removed are passed over.
 */
module Eviction {
  import opened Sorting
  import opened Permutations
  import MixedRadix

  /** A stored file: what it is known by, its size and when it was last accessed. */
  datatype File = File(name: seq<nat>, size: nat, age: nat)

  ghost predicate Named(files: seq<File>) {
    forall i, j :: 0 <= i < j < |files| ==> files[i].name != files[j].name
  }

  /** The size of the files whose names are not in `gone`. */
  function Remaining(files: seq<File>, gone: set<seq<nat>>): nat {
    if files == [] then 0
    else
      var last := files[|files| - 1];
      Remaining(files[..|files| - 1], gone) + if last.name in gone then 0 else last.size
  }

  lemma {:induction false} RemainingWithout(files: seq<File>, gone: set<seq<nat>>, i: nat)
    requires Named(files) && i < |files| && files[i].name !in gone
    ensures Remaining(files, gone) == Remaining(files, gone + {files[i].name}) + files[i].size
  {
    var n := |files| - 1;
    if i < n {
      RemainingWithout(files[..n], gone, i);
    } else {
      RemainingSame(files[..n], gone, files[n].name);
    }
  }

  lemma {:induction false} RemainingSame(files: seq<File>, gone: set<seq<nat>>, name: seq<nat>)
    requires forall i :: 0 <= i < |files| ==> files[i].name != name
    ensures Remaining(files, gone + {name}) == Remaining(files, gone)
  {
    if files != [] {
      RemainingSame(files[..|files| - 1], gone, name);
    }
  }

  /** File `i` goes before file `j`: it was accessed earlier, or is first among equals. */
  predicate Before(files: seq<File>, i: nat, j: nat)
    requires i < |files| && j < |files|
  {
    files[i].age < files[j].age || (files[i].age == files[j].age && i < j)
  }

  /**
   What eviction removes: only what can be removed, the oldest first; enough for the rest to fit
   if that can be had; and nothing more, since without the newest of them the rest did not fit.
   */
  ghost predicate EvictsOldest(files: seq<File>, limit: nat, removable: set<seq<nat>>, gone: set<seq<nat>>) {
    && (forall x :: x in gone ==> x in removable && exists i :: 0 <= i < |files| && files[i].name == x)
    && (forall i, j | 0 <= i < |files| && 0 <= j < |files| && files[i].name in gone ::
          files[j].name in removable && files[j].name !in gone ==> Before(files, i, j))
    && (Remaining(files, gone) > limit ==>
          forall i | 0 <= i < |files| && files[i].name in removable :: files[i].name in gone)
    && (gone != {} ==> AllNeeded(files, limit, gone))
  }

  /** Without the newest of the removed files the rest did not fit. */
  ghost predicate AllNeeded(files: seq<File>, limit: nat, gone: set<seq<nat>>) {
    exists last | 0 <= last < |files| && IsNewest(files, gone, last) ::
      Remaining(files, gone - {files[last].name}) > limit
  }

  /** File `last` is the last to go. */
  ghost predicate IsNewest(files: seq<File>, gone: set<seq<nat>>, last: nat)
    requires last < |files|
  {
    && files[last].name in gone
    && forall i :: 0 <= i < |files| && i != last && files[i].name in gone ==> Before(files, i, last)
  }

  /** Positions in the order in which their files go. */
  ghost predicate InOrder(files: seq<File>, order: seq<nat>) {
    && |order| == |files|
    && (forall k :: 0 <= k < |order| ==> order[k] < |files|)
    && (forall i: nat :: i < |files| ==> i in order)
    && forall k, l :: 0 <= k < l < |order| ==> Before(files, order[k], order[l])
  }

  function Key(files: seq<File>, i: nat): real {
    if i < |files| then (files[i].age * |files| + i) as real else 0.0
  }

  /** A stable sort of the positions by age. */
  method OldestFirst(files: seq<File>) returns (order: seq<nat>)
    ensures InOrder(files, order)
  {
    hide SortedBy;
    var all := Range(0, |files|);
    order := SortBy(all, (i: nat) => Key(files, i));
    KeysOrder(files, all, order);
  }

  lemma KeysOrder(files: seq<File>, all: seq<nat>, order: seq<nat>)
    requires all == Range(0, |files|) && |order| == |all| && multiset(order) == multiset(all)
    requires SortedBy(order, (i: nat) => Key(files, i))
    ensures InOrder(files, order)
  {
    PermutedRange(order, |files|);
    forall k, l | 0 <= k < l < |order| ensures Before(files, order[k], order[l]) {
      assert Key(files, order[k]) <= Key(files, order[l]);
      KeyOrders(files[order[k]].age, order[k], files[order[l]].age, order[l], |files|);
    }
  }

  lemma KeyOrders(a: nat, i: nat, b: nat, j: nat, n: nat)
    requires i < n && j < n && i != j && a * n + i <= b * n + j
    ensures a < b || (a == b && i < j)
  {
    if b < a {
      MixedRadix.ProductAtMost(b + 1, a, n);
      MixedRadix.Successor(b, n);
    }
  }

  lemma BeforeAll(files: seq<File>, order: seq<nat>, k: nat, i: nat)
    requires InOrder(files, order) && k < |order| && i < |files| && i != order[k] && i !in order[..k]
    ensures Before(files, order[k], i)
  {
    forall l | 0 <= l < k ensures order[l] in order[..k] {
      assert order[..k][l] == order[l];
    }
    assert i in order;
    var l :| 0 <= l < |order| && order[l] == i;
  }

  /** The state of the loop after `k` files: those removed and how much is left. */
  ghost predicate Evicted(
      files: seq<File>, limit: nat, removable: set<seq<nat>>, order: seq<nat>, k: nat, gone: set<seq<nat>>)
    requires InOrder(files, order) && k <= |order|
  {
    && (forall x :: x in gone ==> x in removable && exists i :: 0 <= i < |files| && files[i].name == x)
    && (forall i: nat :: i < |files| ==> (files[i].name in gone <==> i in order[..k] && files[i].name in removable))
    && (gone != {} ==> AllNeeded(files, limit, gone))
  }

  lemma NotYet(files: seq<File>, order: seq<nat>, k: nat)
    requires InOrder(files, order) && k < |order|
    ensures order[k] !in order[..k]
    ensures forall i :: i in order[..k] ==> i < |files| && Before(files, i, order[k])
  {
    forall l | 0 <= l < k ensures order[..k][l] < |files| && Before(files, order[..k][l], order[k]) {
      assert Before(files, order[l], order[k]);
    }
  }

  lemma EvictedNext(
      files: seq<File>, limit: nat, removable: set<seq<nat>>, order: seq<nat>, k: nat, gone: set<seq<nat>>)
    requires Named(files) && InOrder(files, order) && k < |order|
    requires Evicted(files, limit, removable, order, k, gone) && Remaining(files, gone) > limit
    ensures
      var name := files[order[k]].name;
      if name in removable then
        && name !in gone && Evicted(files, limit, removable, order, k + 1, gone + {name})
        && Remaining(files, gone) == Remaining(files, gone + {name}) + files[order[k]].size
      else Evicted(files, limit, removable, order, k + 1, gone)
  {
    hide Remaining;
    var i, name := order[k], files[order[k]].name;
    NotYet(files, order, k);
    assert order[..k + 1] == order[..k] + [i];
    if name in removable {
      RemainingWithout(files, gone, i);
      assert gone + {name} - {name} == gone;
      assert IsNewest(files, gone + {name}, i);
    }
  }

  lemma EvictedIsOldest(
      files: seq<File>, limit: nat, removable: set<seq<nat>>, order: seq<nat>, k: nat, gone: set<seq<nat>>)
    requires Named(files) && InOrder(files, order) && k <= |order|
    requires Evicted(files, limit, removable, order, k, gone) && (k == |order| || Remaining(files, gone) <= limit)
    ensures EvictsOldest(files, limit, removable, gone)
  {
    forall i, j | 0 <= i < |files| && 0 <= j < |files| && files[i].name in gone
      ensures files[j].name in removable && files[j].name !in gone ==> Before(files, i, j)
    {
      if files[j].name in removable && files[j].name !in gone {
        assert i in order[..k] && j !in order[..k];
        var l :| 0 <= l < k && order[..k][l] == i;
        assert forall x :: x in order[..l] ==> x in order[..k];
        BeforeAll(files, order, l, j);
      }
    }
    if k == |order| {
      assert order[..k] == order;
    }
  }

  /** Removes files, oldest first, until the rest fits. */
  method EvictOldest(files: seq<File>, limit: nat, removable: set<seq<nat>>) returns (gone: set<seq<nat>>)
    requires Named(files)
    ensures EvictsOldest(files, limit, removable, gone)
  {
    hide Evicted;
    hide InOrder;
    var order := OldestFirst(files);
    gone := {};
    var total := Total(files);
    var k := 0;
    assert Evicted(files, limit, removable, order, 0, {}) by { NoneEvicted(files, limit, removable, order); }
    assert |order| == |files| && forall k :: 0 <= k < |order| ==> order[k] < |files| by { OrderSize(files, order); }
    while k < |order| && total > limit
      invariant k <= |order|
      invariant Evicted(files, limit, removable, order, k, gone) && total == Remaining(files, gone)
    {
      EvictedNext(files, limit, removable, order, k, gone);
      var file := files[order[k]];
      if file.name in removable {
        total := total - file.size;
        gone := gone + {file.name};
      }
      k := k + 1;
    }
    EvictedIsOldest(files, limit, removable, order, k, gone);
  }

  lemma OrderSize(files: seq<File>, order: seq<nat>)
    requires InOrder(files, order)
    ensures |order| == |files| && forall k :: 0 <= k < |order| ==> order[k] < |files|
  {
  }

  lemma NoneEvicted(files: seq<File>, limit: nat, removable: set<seq<nat>>, order: seq<nat>)
    requires InOrder(files, order)
    ensures Evicted(files, limit, removable, order, 0, {})
  {
  }

  /** The size of all files together. */
  method Total(files: seq<File>) returns (total: nat)
    ensures total == Remaining(files, {})
  {
    total := 0;
    for i := 0 to |files|
      invariant total == Remaining(files[..i], {})
    {
      assert files[..i + 1][..i] == files[..i];
      total := total + files[i].size;
    }
    assert files[..|files|] == files;
  }

  lemma {:induction false} RemainingAtMost(files: seq<File>, gone: set<seq<nat>>)
    ensures Remaining(files, gone) <= Remaining(files, {})
  {
    if files != [] {
      RemainingAtMost(files[..|files| - 1], gone);
    }
  }

  /** Nothing goes if everything fits. */
  lemma FitsAlready(files: seq<File>, limit: nat, removable: set<seq<nat>>, gone: set<seq<nat>>)
    requires EvictsOldest(files, limit, removable, gone)
    ensures Remaining(files, {}) <= limit ==> gone == {}
  {
    if gone != {} {
      var last :| 0 <= last < |files| && IsNewest(files, gone, last) &&
        Remaining(files, gone - {files[last].name}) > limit;
      RemainingAtMost(files, gone - {files[last].name});
    }
  }
}
