/** The source's `sorted(xs, key=..., reverse=True)[:limit]`, used by every ranking
    query: a stable sort by a score, highest first, then Python's `[:limit]` slice. */
module Ranking {
  import opened Common

  /** Keys never increase from left to right. */
  predicate SortedDesc<T>(s: seq<T>, key: T -> real) {
    forall i, j :: 0 <= i < j < |s| ==> key(s[i]) >= key(s[j])
  }

  /** Puts x in front of the first element whose key is not above x's, so that
      x stays ahead of the later elements that tie with it. */
  function Insert<T>(x: T, t: seq<T>, key: T -> real): (r: seq<T>)
    ensures multiset(r) == multiset(t) + multiset{x}
    ensures SortedDesc(t, key) ==> SortedDesc(r, key)
  {
    if t == [] || key(x) >= key(t[0]) then
      [x] + t
    else
      var rest := Insert(x, t[1..], key);
      assert t == [t[0]] + t[1..];
      InsertHead(x, t, rest, key);
      [t[0]] + rest
  }

  lemma InsertHead<T>(x: T, t: seq<T>, rest: seq<T>, key: T -> real)
    requires t != [] && key(x) < key(t[0])
    requires multiset(rest) == multiset(t[1..]) + multiset{x}
    requires SortedDesc(t, key) ==> SortedDesc(rest, key)
    ensures SortedDesc(t, key) ==> SortedDesc([t[0]] + rest, key)
  {
    if SortedDesc(t, key) {
      forall j | 0 <= j < |rest| ensures key(t[0]) >= key(rest[j]) {
        assert rest[j] in multiset(rest);
        if rest[j] != x {
          assert rest[j] in multiset(t[1..]);
          var k :| 0 <= k < |t[1..]| && t[1..][k] == rest[j];
          assert t[k + 1] == rest[j];
        }
      }
    }
  }

  /** Stable sort, highest key first (insertion sort). */
  function SortDesc<T>(s: seq<T>, key: T -> real): (r: seq<T>)
    ensures multiset(r) == multiset(s)
    ensures SortedDesc(r, key)
  {
    if s == [] then []
    else
      assert s == [s[0]] + s[1..];
      Insert(s[0], SortDesc(s[1..], key), key)
  }

  /** Everything a sorted sequence leaves after position n ranks no higher than
      anything before n. */
  lemma SortedSplit<T>(s: seq<T>, key: T -> real, n: nat)
    requires SortedDesc(s, key) && n <= |s|
    ensures forall x, i :: x in multiset(s[n..]) && 0 <= i < n ==> key(x) <= key(s[i])
  {
    forall x, i | x in multiset(s[n..]) && 0 <= i < n
      ensures key(x) <= key(s[i])
    {
      var k :| 0 <= k < |s[n..]| && s[n..][k] == x;
      assert s[n + k] == x;
    }
  }

  /** A prefix of a sorted permutation of s is a top slice of s. */
  lemma PrefixIsTop<T>(s: seq<T>, sorted: seq<T>, key: T -> real, n: nat)
    requires multiset(sorted) == multiset(s) && SortedDesc(sorted, key) && n <= |sorted|
    ensures SortedDesc(sorted[..n], key)
    ensures multiset(sorted[..n]) <= multiset(s)
    ensures forall x :: x in sorted[..n] ==> x in s
    ensures forall x, i :: x in multiset(s) - multiset(sorted[..n]) && 0 <= i < n ==> key(x) <= key(sorted[..n][i])
  {
    var r := sorted[..n];
    assert sorted == r + sorted[n..];
    assert multiset(sorted) == multiset(r) + multiset(sorted[n..]);
    assert multiset(s) - multiset(r) == multiset(sorted[n..]);
    SortedSplit(sorted, key, n);
    forall x | x in r ensures x in s {
      assert x in multiset(r);
      assert x in multiset(s);
    }
  }

  /** `sorted(s, key=key, reverse=True)[:limit]`: the `limit` highest-ranked
      elements of s (all but the last -limit ones when limit is negative), highest first. */
  function TopBy<T>(s: seq<T>, key: T -> real, limit: int): (r: seq<T>)
    ensures limit >= 0 ==> |r| == if limit <= |s| then limit else |s|
    ensures limit < 0 ==> |r| == if |s| + limit <= 0 then 0 else |s| + limit
    ensures SortedDesc(r, key)
    ensures multiset(r) <= multiset(s)
    ensures forall x :: x in r ==> x in s
    ensures forall x, i :: x in multiset(s) - multiset(r) && 0 <= i < |r| ==> key(x) <= key(r[i])
  {
    var sorted := SortDesc(s, key);
    assert |sorted| == |multiset(sorted)| == |s|;
    var r := TakeFirst(sorted, limit);
    assert r == sorted[..|r|];
    PrefixIsTop(s, sorted, key, |r|);
    r
  }

  /** An element of s that the top slice r leaves out is in their difference. */
  lemma LeftOutInDifference<T>(s: seq<T>, r: seq<T>)
    ensures forall x :: x in s && x !in r ==> x in multiset(s) - multiset(r)
  {
    forall x | x in s && x !in r
      ensures x in multiset(s) - multiset(r)
    {
      assert multiset(s)[x] > 0 && multiset(r)[x] == 0;
    }
  }
}
