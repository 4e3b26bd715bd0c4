/** What the database does with a collection for a query: find the first
    matching document, keep the matching ones, order newest first. */
module Sequences {
  import opened Common

  /** `findOne(filter)`: the position of the first element that matches. */
  function FirstIndex<T>(s: seq<T>, p: T -> bool): (r: Option<nat>)
    ensures r.Some? ==> r.value < |s| && p(s[r.value])
    ensures r.Some? ==> forall k :: 0 <= k < r.value ==> !p(s[k])
    ensures r.None? <==> forall k :: 0 <= k < |s| ==> !p(s[k])
  {
    if |s| == 0 then None
    else if p(s[0]) then Some(0)
    else match FirstIndex(s[1..], p)
      case None => None
      case Some(i) => Some(i + 1)
  }

  /** `find(filter)`: the elements that match, in collection order. */
  function Filter<T(!new)>(s: seq<T>, p: T -> bool): (r: seq<T>)
    ensures |r| <= |s|
    ensures forall x :: multiset(r)[x] == if p(x) then multiset(s)[x] else 0
    ensures forall x :: x in r <==> x in s && p(x)
  {
    if |s| == 0 then []
    else
      assert s == [s[0]] + s[1..];
      if p(s[0]) then [s[0]] + Filter(s[1..], p) else Filter(s[1..], p)
  }

  /** `s` is in strictly increasing order of `key`. */
  predicate Ascending<T>(s: seq<T>, key: T -> int) {
    forall i, j :: 0 <= i < j < |s| ==> key(s[i]) < key(s[j])
  }

  /** `s` is in strictly decreasing order of `key`. */
  predicate Descending<T>(s: seq<T>, key: T -> int) {
    forall i, j :: 0 <= i < j < |s| ==> key(s[i]) > key(s[j])
  }

  /** `find` keeps the collection's order. */
  lemma {:induction false} FilterKeepsOrder<T(!new)>(s: seq<T>, p: T -> bool, key: T -> int)
    requires Ascending(s, key)
    ensures Ascending(Filter(s, p), key)
  {
    if |s| > 0 {
      var tail := s[1..];
      assert Ascending(tail, key) by {
        forall i, j | 0 <= i < j < |tail| ensures key(tail[i]) < key(tail[j]) {
          assert tail[i] == s[i + 1] && tail[j] == s[j + 1];
        }
      }
      var rest := Filter(tail, p);
      FilterKeepsOrder(tail, p, key);
      if p(s[0]) {
        assert Filter(s, p) == [s[0]] + rest;
        LaterThanHead(s, rest, key);
      } else {
        assert Filter(s, p) == rest;
      }
    }
  }

  /** Every element taken from the tail of an ascending sequence comes
      after its head. */
  lemma LaterThanHead<T>(s: seq<T>, rest: seq<T>, key: T -> int)
    requires |s| > 0 && Ascending(s, key) && Ascending(rest, key)
    requires forall x :: x in rest ==> x in s[1..]
    ensures Ascending([s[0]] + rest, key)
  {
    var r := [s[0]] + rest;
    forall i, j | 0 <= i < j < |r| ensures key(r[i]) < key(r[j]) {
      if i == 0 {
        assert r[j] == rest[j - 1];
        assert r[j] in rest;
        var tail := s[1..];
        assert r[j] in tail;
        var m :| 0 <= m < |tail| && tail[m] == r[j];
        assert s[m + 1] == r[j];
      } else {
        assert r[i] == rest[i - 1] && r[j] == rest[j - 1];
      }
    }
  }

  /** `sort({ createdAt: -1 })` over a collection kept in insertion order. */
  function NewestFirst<T>(s: seq<T>): (r: seq<T>)
    ensures |r| == |s|
    ensures forall k :: 0 <= k < |s| ==> r[k] == s[|s| - 1 - k]
    ensures multiset(r) == multiset(s)
  {
    if |s| == 0 then []
    else
      assert s == s[..|s| - 1] + [s[|s| - 1]];
      [s[|s| - 1]] + NewestFirst(s[..|s| - 1])
  }

  /** The newest-first sort of a collection kept in increasing order of
      `key` is in decreasing order of `key`. */
  lemma NewestFirstDescends<T>(s: seq<T>, key: T -> int)
    requires Ascending(s, key)
    ensures Descending(NewestFirst(s), key)
  {
    var r := NewestFirst(s);
    forall i, j | 0 <= i < j < |r| ensures key(r[i]) > key(r[j]) {
      assert r[i] == s[|s| - 1 - i] && r[j] == s[|s| - 1 - j];
    }
  }
}
