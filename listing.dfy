/** `ORDER BY created_at DESC`: the rows of a table, each exactly once, newest
    first. Rows with equal keys may come in any order, as in SQLite. */
module Listing {

  predicate Descending<T>(s: seq<T>, key: T -> int) {
    forall i, j :: 0 <= i < j < |s| ==> key(s[i]) >= key(s[j])
  }

  /** Putting `x` between the elements whose keys are at least its own and
      those whose keys are below it keeps the order. */
  lemma SpliceDescending<T>(s: seq<T>, i: nat, x: T, key: T -> int)
    requires Descending(s, key) && i <= |s|
    requires forall k :: 0 <= k < i ==> key(s[k]) >= key(x)
    requires forall k :: i <= k < |s| ==> key(s[k]) < key(x)
    ensures Descending(s[..i] + [x] + s[i..], key)
  {
    var r := s[..i] + [x] + s[i..];
    forall a, b | 0 <= a < b < |r|
      ensures key(r[a]) >= key(r[b])
    {
      if b < i {
        assert r[a] == s[a] && r[b] == s[b];
      } else if b == i {
        assert r[a] == s[a] && r[b] == x;
      } else if a < i {
        assert r[a] == s[a] && r[b] == s[b - 1];
      } else if a == i {
        assert r[a] == x && r[b] == s[b - 1];
      } else {
        assert r[a] == s[a - 1] && r[b] == s[b - 1];
      }
    }
  }

  /** Insert `x` after every element whose key is at least its own. */
  method Insert<T>(s: seq<T>, x: T, key: T -> int) returns (r: seq<T>)
    requires Descending(s, key)
    ensures Descending(r, key)
    ensures multiset(r) == multiset(s) + multiset{x}
  {
    var i := 0;
    while i < |s| && key(s[i]) >= key(x)
      invariant 0 <= i <= |s|
      invariant forall k :: 0 <= k < i ==> key(s[k]) >= key(x)
    {
      i := i + 1;
    }
    assert forall k :: i <= k < |s| ==> key(s[k]) < key(x) by {
      if i < |s| {
        assert forall k :: i <= k < |s| ==> key(s[k]) <= key(s[i]);
      }
    }
    SpliceDescending(s, i, x, key);
    r := s[..i] + [x] + s[i..];
    assert s == s[..i] + s[i..];
  }

  /** The elements of a finite set, sorted by descending key. */
  method SortDescending<T>(items: set<T>, key: T -> int) returns (r: seq<T>)
    ensures Descending(r, key)
    ensures multiset(r) == multiset(items)
  {
    r := [];
    var rest := items;
    while rest != {}
      invariant rest <= items
      invariant Descending(r, key)
      invariant multiset(r) == multiset(items - rest)
      decreases rest
    {
      var x :| x in rest;
      r := Insert(r, x, key);
      assert items - (rest - {x}) == (items - rest) + {x};
      rest := rest - {x};
    }
    assert items - rest == items;
  }
}
