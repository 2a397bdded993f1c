/**
 * The array and collection operations the controllers lean on: findIndex,
 * find-then-remove (splice), filtering a collection by a query and sorting it
 * by a timestamp, newest first.
 */
module Collections {
  import opened Outcomes

  /** Array.prototype.findIndex, with None for -1: the first index whose element satisfies `p`. */
  function FindIndex<R>(s: seq<R>, p: R -> bool): (r: Option<nat>)
    ensures r.Some? ==> r.value < |s| && p(s[r.value])
    ensures r.Some? ==> forall j :: 0 <= j < r.value ==> !p(s[j])
    ensures r.None? <==> forall j :: 0 <= j < |s| ==> !p(s[j])
    decreases |s|
  {
    if |s| == 0 then
      None
    else if p(s[0]) then
      Some(0)
    else
      match FindIndex(s[1..], p)
      case None => None
      case Some(k) => Some(k + 1)
  }

  /** `s.splice(i, 1)` on a copy: the element at `i` taken out, the rest in order. */
  function RemoveAt<R>(s: seq<R>, i: nat): (r: seq<R>)
    requires i < |s|
    ensures |r| == |s| - 1
    ensures forall j :: 0 <= j < i ==> r[j] == s[j]
    ensures forall j :: i <= j < |r| ==> r[j] == s[j + 1]
    ensures multiset(r) + multiset{s[i]} == multiset(s)
  {
    assert s == s[..i] + [s[i]] + s[i + 1..];
    s[..i] + s[i + 1..]
  }

  /** The elements of `s` that satisfy `p`, in the order of `s` (a `find` with a filter). */
  function Filter<R(!new)>(s: seq<R>, p: R -> bool): (r: seq<R>)
    ensures |r| <= |s|
    ensures forall j :: 0 <= j < |r| ==> r[j] in s && p(r[j])
    ensures forall j :: 0 <= j < |s| && p(s[j]) ==> s[j] in r
    ensures |r| == 0 <==> forall j :: 0 <= j < |s| ==> !p(s[j])
    decreases |s|
  {
    if |s| == 0 then
      []
    else
      var rest := Filter(s[1..], p);
      assert forall j :: 1 <= j < |s| ==> s[j] == s[1..][j - 1];
      if p(s[0]) then [s[0]] + rest else rest
  }

  /** Filtering keeps every element that satisfies `p` as often as `s` has it, and no other. */
  lemma {:induction false} FilterCounts<R(!new)>(s: seq<R>, p: R -> bool)
    ensures forall x :: multiset(Filter(s, p))[x] == if p(x) then multiset(s)[x] else 0
    decreases |s|
  {
    if |s| > 0 {
      var rest := Filter(s[1..], p);
      FilterCounts(s[1..], p);
      assert s == [s[0]] + s[1..];
      assert multiset(s) == multiset{s[0]} + multiset(s[1..]);
      if p(s[0]) {
        assert Filter(s, p) == [s[0]] + rest;
        assert multiset([s[0]] + rest) == multiset{s[0]} + multiset(rest);
      } else {
        assert Filter(s, p) == rest;
      }
    }
  }

  /** Filtering keeps the order of `s`: filtering a concatenation concatenates the filtered parts. */
  lemma {:induction false} FilterAppend<R(!new)>(a: seq<R>, b: seq<R>, p: R -> bool)
    ensures Filter(a + b, p) == Filter(a, p) + Filter(b, p)
    decreases |a|
  {
    if |a| > 0 {
      assert (a + b)[1..] == a[1..] + b;
      FilterAppend(a[1..], b, p);
    } else {
      assert a + b == b;
    }
  }

  /** Newest first: keys never increase along the sequence. */
  predicate NewestFirst<R>(s: seq<R>, key: R -> int)
  {
    forall i, j :: 0 <= i < j < |s| ==> key(s[i]) >= key(s[j])
  }

  /** An element at least as new as the head of a newest-first sequence can go in front of it. */
  lemma ConsNewestFirst<R>(y: R, t: seq<R>, key: R -> int)
    requires NewestFirst(t, key)
    requires |t| == 0 || key(y) >= key(t[0])
    ensures NewestFirst([y] + t, key)
  {
    var r := [y] + t;
    forall i, j | 0 <= i < j < |r|
      ensures key(r[i]) >= key(r[j])
    {
      if i == 0 {
        assert r[j] == t[j - 1];
        assert key(t[0]) >= key(t[j - 1]) || j == 1;
      } else {
        assert r[i] == t[i - 1] && r[j] == t[j - 1];
      }
    }
  }

  /** Puts `x` into a newest-first sequence, after every element at least as new. */
  function Insert<R>(x: R, s: seq<R>, key: R -> int): (r: seq<R>)
    requires NewestFirst(s, key)
    ensures |r| == |s| + 1
    ensures r[0] == x || (|s| > 0 && r[0] == s[0])
    ensures NewestFirst(r, key)
    ensures multiset(r) == multiset(s) + multiset{x}
    decreases |s|
  {
    if |s| == 0 then
      [x]
    else if key(s[0]) < key(x) then
      ConsNewestFirst(x, s, key);
      [x] + s
    else
      var rest := Insert(x, s[1..], key);
      assert s == [s[0]] + s[1..];
      ConsNewestFirst(s[0], rest, key);
      [s[0]] + rest
  }

  /** `.sort({ createdAt: -1 })`: the same records, newest first. */
  function SortNewestFirst<R>(s: seq<R>, key: R -> int): (r: seq<R>)
    ensures NewestFirst(r, key)
    ensures multiset(r) == multiset(s)
    decreases |s|
  {
    if |s| == 0 then
      []
    else
      assert s == [s[0]] + s[1..];
      Insert(s[0], SortNewestFirst(s[1..], key), key)
  }

  /** Sorting keeps the number of records, so an empty listing means an empty collection. */
  lemma SortedEmptyIff<R>(s: seq<R>, key: R -> int)
    ensures |SortNewestFirst(s, key)| == 0 <==> |s| == 0
  {
    var r := SortNewestFirst(s, key);
    assert |multiset(r)| == |r| && |multiset(s)| == |s|;
  }
}
