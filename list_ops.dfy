/** The array operations the components chain: `filter`, `slice(0, n)` and a
    stable descending `sort` by a numeric key. */
module ListOps {

  /** `s.filter(p)` */
  function Filter<T>(s: seq<T>, p: T -> bool): (r: seq<T>)
    ensures |r| <= |s|
    ensures forall i :: 0 <= i < |r| ==> p(r[i])
    ensures forall i :: 0 <= i < |r| ==> r[i] in s
    ensures forall i :: 0 <= i < |s| && p(s[i]) ==> s[i] in r
  {
    if s == [] then []
    else if p(s[0]) then [s[0]] + Filter(s[1..], p)
    else Filter(s[1..], p)
  }

  /** `s.filter(p).length` */
  function Count<T>(s: seq<T>, p: T -> bool): (n: nat)
    ensures n <= |s|
  {
    |Filter(s, p)|
  }

  /** `s.slice(0, n)` */
  function Take<T>(s: seq<T>, n: nat): (r: seq<T>)
    ensures |r| == if |s| < n then |s| else n
    ensures forall i :: 0 <= i < |r| ==> r[i] == s[i]
    ensures multiset(r) <= multiset(s)
  {
    if |s| <= n then s
    else
      assert s == s[..n] + s[n..];
      s[..n]
  }

  /** Filtering keeps the order: it distributes over concatenation. */
  lemma {:induction false} FilterAppend<T>(a: seq<T>, b: seq<T>, p: T -> bool)
    ensures Filter(a + b, p) == Filter(a, p) + Filter(b, p)
  {
    if a != [] {
      assert (a + b)[0] == a[0];
      assert (a + b)[1..] == a[1..] + b;
      FilterAppend(a[1..], b, p);
    } else {
      assert a + b == b;
    }
  }

  /** An element the predicate rejects leaves the filtered list unchanged. */
  lemma FilterAppendRejected<T>(s: seq<T>, x: T, p: T -> bool)
    requires !p(x)
    ensures Filter(s + [x], p) == Filter(s, p)
    ensures Count(s + [x], p) == Count(s, p)
  {
    FilterAppend(s, [x], p);
  }

  /** An element the predicate accepts is kept at the end. */
  lemma FilterAppendAccepted<T>(s: seq<T>, x: T, p: T -> bool)
    requires p(x)
    ensures Filter(s + [x], p) == Filter(s, p) + [x]
    ensures Count(s + [x], p) == Count(s, p) + 1
  {
    FilterAppend(s, [x], p);
  }

  /** Every element is counted by exactly one of a predicate and its negation. */
  lemma {:induction false} CountComplement<T>(s: seq<T>, p: T -> bool, q: T -> bool)
    requires forall x :: q(x) == !p(x)
    ensures Count(s, p) + Count(s, q) == |s|
  {
    if s != [] {
      CountComplement(s[1..], p, q);
    }
  }

  /** Filtering twice by the same predicate is filtering once. */
  lemma {:induction false} FilterIdempotent<T>(s: seq<T>, p: T -> bool)
    ensures Filter(Filter(s, p), p) == Filter(s, p)
  {
    if s != [] {
      FilterIdempotent(s[1..], p);
    }
  }

  /** When nothing is rejected, filtering changes nothing. */
  lemma {:induction false} FilterAllAccepted<T>(s: seq<T>, p: T -> bool)
    requires forall i :: 0 <= i < |s| ==> p(s[i])
    ensures Filter(s, p) == s
  {
    if s != [] {
      FilterAllAccepted(s[1..], p);
    }
  }

  ghost predicate SortedDesc<T>(s: seq<T>, key: T -> int) {
    forall i, j :: 0 <= i < j < |s| ==> key(s[i]) >= key(s[j])
  }

  /** Inserts `x`, which came before every element of `s`, ahead of the first
      element whose key is not larger than its own (so ties keep their order). */
  function InsertDesc<T>(x: T, s: seq<T>, key: T -> int): (r: seq<T>)
    ensures |r| == |s| + 1
    ensures multiset(r) == multiset(s) + multiset{x}
    ensures r[0] == x || (s != [] && r[0] == s[0])
  {
    if s == [] || key(s[0]) <= key(x) then
      [x] + s
    else
      assert s == [s[0]] + s[1..];
      [s[0]] + InsertDesc(x, s[1..], key)
  }

  lemma {:induction false} InsertDescSorted<T>(x: T, s: seq<T>, key: T -> int)
    requires SortedDesc(s, key)
    ensures SortedDesc(InsertDesc(x, s, key), key)
  {
    if s != [] && key(s[0]) > key(x) {
      assert SortedDesc(s[1..], key);
      InsertDescSorted(x, s[1..], key);
      var rest := InsertDesc(x, s[1..], key);
      assert key(s[0]) >= key(rest[0]);
      assert InsertDesc(x, s, key) == [s[0]] + rest;
    }
  }

  /** `s.sort((a, b) => key(b) - key(a))`: a stable sort into non-increasing
      key order. */
  function SortDesc<T>(s: seq<T>, key: T -> int): (r: seq<T>)
    ensures SortedDesc(r, key)
    ensures |r| == |s|
    ensures multiset(r) == multiset(s)
  {
    if s == [] then []
    else
      assert s == [s[0]] + s[1..];
      var sorted := SortDesc(s[1..], key);
      InsertDescSorted(s[0], sorted, key);
      InsertDesc(s[0], sorted, key)
  }

  /** `s.filter(p).sort(by key, descending).slice(0, n)` */
  function TopBy<T>(s: seq<T>, p: T -> bool, key: T -> int, n: nat): (r: seq<T>)
    ensures |r| == if Count(s, p) < n then Count(s, p) else n
    ensures forall i :: 0 <= i < |r| ==> p(r[i]) && r[i] in s
    ensures SortedDesc(r, key)
    ensures multiset(r) <= multiset(Filter(s, p))
  {
    var kept := Filter(s, p);
    var sorted := SortDesc(kept, key);
    var r := Take(sorted, n);
    forall i | 0 <= i < |r|
      ensures p(r[i]) && r[i] in s
    {
      assert r[i] in multiset(kept);
    }
    r
  }

  /** The first `n` of a descending sort hold the largest keys: an element
      of `s` left out of them has a key no larger than any shown. */
  lemma TopOfSortDesc<T>(s: seq<T>, key: T -> int, n: nat, x: T)
    requires x in s && x !in Take(SortDesc(s, key), n)
    ensures forall i :: 0 <= i < |Take(SortDesc(s, key), n)| ==> key(Take(SortDesc(s, key), n)[i]) >= key(x)
  {
    var sorted := SortDesc(s, key);
    var top := Take(sorted, n);
    assert x in multiset(s);
    assert x in multiset(sorted);
    var j :| 0 <= j < |sorted| && sorted[j] == x;
    assert forall i :: 0 <= i < |top| ==> top[i] == sorted[i];
  }

  /** An element that passes the filter but is left out of `TopBy` has a key
      no larger than any element kept. */
  lemma TopByHoldsLargest<T>(s: seq<T>, p: T -> bool, key: T -> int, n: nat, x: T)
    requires x in s && p(x) && x !in TopBy(s, p, key, n)
    ensures forall i :: 0 <= i < |TopBy(s, p, key, n)| ==> key(TopBy(s, p, key, n)[i]) >= key(x)
  {
    assert x in Filter(s, p);
    TopOfSortDesc(Filter(s, p), key, n, x);
  }
}
