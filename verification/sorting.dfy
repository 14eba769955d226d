/** Descending sort by an integer key, the shape of every "newest first" and
    "largest first" listing of the read side.  Insertion places a new
    element after those with an equal key, so the sort keeps the input
    order among equal keys, as JavaScript's `Array.prototype.sort` does. */
module Sorting {
  predicate SortedDesc<T>(s: seq<T>, key: T -> int)
  {
    forall i, j :: 0 <= i < j < |s| ==> key(s[i]) >= key(s[j])
  }

  /** Inserts x after every element whose key is at least key(x). */
  function Insert<T>(x: T, s: seq<T>, key: T -> int): (r: seq<T>)
    requires SortedDesc(s, key)
    ensures |r| == |s| + 1
    ensures multiset(r) == multiset(s) + multiset{x}
    ensures SortedDesc(r, key)
    ensures key(r[0]) == key(x) || (|s| > 0 && key(r[0]) == key(s[0]))
    decreases |s|
  {
    if |s| == 0 then [x]
    else if key(s[0]) >= key(x) then
      var rest := Insert(x, s[1..], key);
      assert s == [s[0]] + s[1..];
      ConsSorted(s[0], rest, key);
      [s[0]] + rest
    else
      [x] + s
  }

  /** A head no smaller than the first key of a sorted tail keeps it sorted. */
  lemma ConsSorted<T>(h: T, rest: seq<T>, key: T -> int)
    requires SortedDesc(rest, key) && (|rest| == 0 || key(h) >= key(rest[0]))
    ensures SortedDesc([h] + rest, key)
  {
    forall i, j | 0 <= i < j < |[h] + rest| ensures key(([h] + rest)[i]) >= key(([h] + rest)[j]) {
      if i == 0 && j > 1 {
        assert key(rest[0]) >= key(rest[j - 1]);
      }
    }
  }

  /** A prefix takes no element more often than the whole. */
  lemma PrefixMultiset<T>(s: seq<T>, k: nat)
    requires k <= |s|
    ensures multiset(s[..k]) <= multiset(s)
  {
    assert s == s[..k] + s[k..];
    assert multiset(s) == multiset(s[..k]) + multiset(s[k..]);
  }

  /** Insertion sort, consuming the input from the front. */
  function SortDesc<T>(s: seq<T>, key: T -> int): (r: seq<T>)
    ensures |r| == |s|
    ensures multiset(r) == multiset(s)
    ensures SortedDesc(r, key)
    decreases |s|
  {
    if |s| == 0 then []
    else
      var prefix := s[..|s| - 1];
      assert s == prefix + [s[|s| - 1]];
      Insert(s[|s| - 1], SortDesc(prefix, key), key)
  }

  function Min(a: int, b: int): int
  {
    if a <= b then a else b
  }

  /** The first n elements of the sorted sequence (`sort(...).slice(0, n)`). */
  function TopN<T>(s: seq<T>, n: nat, key: T -> int): (r: seq<T>)
    ensures |r| == Min(n, |s|)
    ensures SortedDesc(r, key)
    ensures multiset(r) <= multiset(s)
    ensures r == SortDesc(s, key)[..|r|]
  {
    var sorted := SortDesc(s, key);
    PrefixMultiset(sorted, Min(n, |s|));
    sorted[..Min(n, |s|)]
  }

  /** Nothing left out of the top n outranks anything kept: every element
      of the input beyond the kept ones has a key no greater than the last
      kept key. */
  lemma {:induction false} TopNKeepsLargest<T>(s: seq<T>, n: nat, key: T -> int, x: T)
    requires x in s
    requires x !in TopN(s, n, key)
    ensures forall i :: 0 <= i < |TopN(s, n, key)| ==> key(x) <= key(TopN(s, n, key)[i])
  {
    var sorted := SortDesc(s, key);
    var top := TopN(s, n, key);
    assert x in multiset(sorted);
    assert x in sorted;
    var j :| 0 <= j < |sorted| && sorted[j] == x;
    assert j >= |top|;
    forall i | 0 <= i < |top| ensures key(x) <= key(top[i]) {
      assert top[i] == sorted[i];
    }
  }
}
