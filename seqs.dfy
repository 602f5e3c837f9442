/**
 * The collection queries the document store answers: the first match in
 * natural (insertion) order, filtering, ordering by a timestamp newest first,
 * and `skip`/`limit` paging.
 */
module Seqs {
  import opened Wrappers

  /** `findOne` / `Array.prototype.find`: the position of the first element satisfying `p`. */
  function Find<T>(s: seq<T>, p: T -> bool): (r: Option<nat>)
    ensures r.Some? ==> r.value < |s| && p(s[r.value])
    ensures r.Some? ==> forall j :: 0 <= j < r.value ==> !p(s[j])
    ensures r.None? <==> forall j :: 0 <= j < |s| ==> !p(s[j])
  {
    if |s| == 0 then None
    else if p(s[0]) then Some(0)
    else match Find(s[1..], p)
      case None => None
      case Some(k) => Some(k + 1)
  }

  /** The elements satisfying `p`, in their original order. */
  function Filter<T>(s: seq<T>, p: T -> bool): (r: seq<T>)
    ensures forall i :: 0 <= i < |r| ==> p(r[i]) && r[i] in s
    ensures forall i :: 0 <= i < |s| && p(s[i]) ==> s[i] in r
    ensures |r| <= |s|
  {
    if |s| == 0 then []
    else
      var rest := Filter(s[1..], p);
      assert forall i :: 1 <= i < |s| ==> s[i] in s[1..];
      if p(s[0]) then [s[0]] + rest else rest
  }

  /**
   * The filter keeps order: filtering a concatenation filters each part and
   * keeps the parts in sequence.
   */
  lemma {:induction false} FilterAppend<T>(a: seq<T>, b: seq<T>, p: T -> bool)
    ensures Filter(a + b, p) == Filter(a, p) + Filter(b, p)
    decreases |a|
  {
    if |a| > 0 {
      assert (a + b)[1..] == a[1..] + b;
      FilterAppend(a[1..], b, p);
    } else {
      assert a + b == b;
    }
  }

  ghost predicate SortedDesc<T>(s: seq<T>, key: T -> int) {
    forall i, j :: 0 <= i < j < |s| ==> key(s[i]) >= key(s[j])
  }

  /** An element in front of a sorted sequence it bounds from above keeps it sorted. */
  lemma ConsSorted<T>(h: T, rest: seq<T>, key: T -> int)
    requires SortedDesc(rest, key)
    requires forall k :: 0 <= k < |rest| ==> key(h) >= key(rest[k])
    ensures SortedDesc([h] + rest, key)
  {
    var r := [h] + rest;
    forall i, j | 0 <= i < j < |r| ensures key(r[i]) >= key(r[j]) {
      assert r[j] == rest[j - 1];
      if i > 0 {
        assert r[i] == rest[i - 1];
      }
    }
  }

  /** The head of a sorted sequence bounds the elements of its tail, with anything smaller added. */
  lemma HeadBoundsTail<T>(x: T, s: seq<T>, rest: seq<T>, key: T -> int)
    requires SortedDesc(s, key) && s != [] && key(x) < key(s[0])
    requires multiset(rest) == multiset(s[1..]) + multiset{x}
    ensures forall k :: 0 <= k < |rest| ==> key(s[0]) >= key(rest[k])
  {
    forall k | 0 <= k < |rest| ensures key(s[0]) >= key(rest[k]) {
      assert rest[k] in multiset(rest);
      if rest[k] != x {
        assert rest[k] in s[1..];
      }
    }
  }

  function InsertDesc<T>(x: T, s: seq<T>, key: T -> int): (r: seq<T>)
    requires SortedDesc(s, key)
    ensures SortedDesc(r, key)
    ensures multiset(r) == multiset(s) + multiset{x}
  {
    if s == [] then [x]
    else if key(x) >= key(s[0]) then
      ConsSorted(x, s, key);
      [x] + s
    else
      var rest := InsertDesc(x, s[1..], key);
      assert s == [s[0]] + s[1..];
      HeadBoundsTail(x, s, rest, key);
      ConsSorted(s[0], rest, key);
      [s[0]] + rest
  }

  /** `sort({ key: -1 })`: the same elements, ordered by `key` from largest to smallest. */
  function SortDesc<T>(s: seq<T>, key: T -> int): (r: seq<T>)
    ensures SortedDesc(r, key)
    ensures multiset(r) == multiset(s)
  {
    if s == [] then []
    else
      assert s == [s[0]] + s[1..];
      InsertDesc(s[0], SortDesc(s[1..], key), key)
  }

  /**
   * `skip(offset).limit(limit)` on an ordered result: the elements from
   * position `offset` on, at most |limit| of them, all of them when limit is 0.
   */
  function Page<T>(s: seq<T>, offset: nat, limit: int): (r: seq<T>)
    ensures offset <= |s| ==> offset + |r| <= |s| && r == s[offset..offset + |r|]
    ensures offset >= |s| ==> r == []
    ensures limit != 0 ==> |r| <= if limit < 0 then -limit else limit
    ensures limit == 0 ==> |r| == if offset <= |s| then |s| - offset else 0
    ensures limit != 0 && offset <= |s| ==> |r| == Min(if limit < 0 then -limit else limit, |s| - offset)
  {
    var rest := if offset <= |s| then s[offset..] else [];
    var cap := if limit < 0 then -limit else limit;
    if limit == 0 || |rest| <= cap then rest else rest[..cap]
  }

  function Min(a: int, b: int): int {
    if a <= b then a else b
  }

  /** A window of a sorted sequence is sorted. */
  lemma PageKeepsOrder<T>(s: seq<T>, key: T -> int, offset: nat, limit: int)
    requires SortedDesc(s, key)
    ensures SortedDesc(Page(s, offset, limit), key)
  {
    var r := Page(s, offset, limit);
    if offset <= |s| {
      forall i, j | 0 <= i < j < |r| ensures key(r[i]) >= key(r[j]) {
        assert r[i] == s[offset + i] && r[j] == s[offset + j];
      }
    }
  }

  /**
   * `find(filter).sort({ key: -1 }).skip(offset).limit(limit)`: the cursor
   * sorts before it skips and limits, whatever order the calls are chained in.
   */
  function Query<T(!new)>(s: seq<T>, p: T -> bool, key: T -> int, offset: nat, limit: int): (r: seq<T>)
    ensures forall i :: 0 <= i < |r| ==> p(r[i]) && r[i] in s
    ensures SortedDesc(r, key)
    ensures limit != 0 ==> |r| <= if limit < 0 then -limit else limit
    ensures offset == 0 && limit == 0 ==> multiset(r) == multiset(Filter(s, p))
    ensures exists t :: SortedDesc(t, key) && multiset(t) == multiset(Filter(s, p)) && r == Page(t, offset, limit)
  {
    var sorted := SortDesc(Filter(s, p), key);
    var r := Page(sorted, offset, limit);
    PageKeepsOrder(sorted, key, offset, limit);
    assert forall i :: 0 <= i < |r| ==> r[i] in multiset(sorted);
    assert offset == 0 && limit == 0 ==> r == sorted;
    r
  }
}
