/** Small value types and sequence helpers shared by the detector, the GPS tracker
    and the notification dispatcher. */
module Common {

  /** A value that may be absent (Python's `None`). */
  datatype Option<T> = None | Some(value: T) {
    function GetOr(default: T): T {
      if Some? then value else default
    }
  }

  /** No element occurs twice. */
  predicate NoDuplicates<T(==)>(s: seq<T>) {
    forall i, j :: 0 <= i < j < |s| ==> s[i] != s[j]
  }

  /** One step of the source's `if s and s not in names: names.append(s)`:
      empty names and names already present are dropped. */
  function AddName(names: seq<string>, s: string): (r: seq<string>)
    ensures |names| <= |r| && r[..|names|] == names
    ensures forall x :: x in r <==> x in names || (x == s && s != "")
    ensures NoDuplicates(names) ==> NoDuplicates(r)
    ensures "" !in names ==> "" !in r
  {
    if s != "" && s !in names then names + [s] else names
  }

  /** Appends the names of `xs`, one by one and in order, to `names` with AddName:
      an order-preserving, duplicate-free union that ignores empty names. */
  function MergeNames(names: seq<string>, xs: seq<string>): (r: seq<string>)
    decreases |xs|
    ensures |names| <= |r| && r[..|names|] == names
    ensures forall x :: x in r <==> x in names || (x != "" && x in xs)
    ensures NoDuplicates(names) ==> NoDuplicates(r)
    ensures "" !in names ==> "" !in r
  {
    if xs == [] then names
    else
      var m := MergeNames(names, xs[..|xs| - 1]);
      assert forall x :: x in xs <==> x in xs[..|xs| - 1] || x == xs[|xs| - 1] by {
        assert xs == xs[..|xs| - 1] + [xs[|xs| - 1]];
      }
      AddName(m, xs[|xs| - 1])
  }

  /** Merging one more name is one more AddName. */
  lemma MergeNamesSnoc(names: seq<string>, xs: seq<string>, x: string)
    ensures MergeNames(names, xs + [x]) == AddName(MergeNames(names, xs), x)
  {
    assert (xs + [x])[..|xs|] == xs;
  }

  /** Merging names that are all present already (or empty) changes nothing. */
  lemma {:induction false} MergeNamesAbsorbed(names: seq<string>, xs: seq<string>)
    requires forall x :: x in xs ==> x in names || x == ""
    ensures MergeNames(names, xs) == names
  {
    if xs != [] {
      var init := xs[..|xs| - 1];
      assert forall x :: x in init ==> x in xs;
      MergeNamesAbsorbed(names, init);
      assert xs[|xs| - 1] in xs;
    }
  }

  /** Merging in two batches is merging their concatenation. */
  lemma {:induction false} MergeNamesConcat(names: seq<string>, xs: seq<string>, ys: seq<string>)
    ensures MergeNames(MergeNames(names, xs), ys) == MergeNames(names, xs + ys)
    decreases |ys|
  {
    if ys == [] {
      assert xs + ys == xs;
    } else {
      var init := ys[..|ys| - 1];
      MergeNamesConcat(names, xs, init);
      assert (xs + ys)[..|xs + ys| - 1] == xs + init;
      assert (xs + ys)[|xs + ys| - 1] == ys[|ys| - 1];
    }
  }

  /** The source's loop `for s in xs: if s and s not in names: names.append(s)`. */
  method MergeInto(names: seq<string>, xs: seq<string>) returns (r: seq<string>)
    ensures r == MergeNames(names, xs)
  {
    r := names;
    for i := 0 to |xs|
      invariant r == MergeNames(names, xs[..i])
    {
      assert xs[..i + 1] == xs[..i] + [xs[i]];
      MergeNamesSnoc(names, xs[..i], xs[i]);
      if xs[i] != "" && xs[i] !in r {
        r := r + [xs[i]];
      }
    }
    assert xs[..|xs|] == xs;
  }

  /** Python's `s[-n:]` for any integer n: the newest n elements when n >= 1,
      the whole sequence when n == 0 (since -0 == 0), and s[-n:] from the front
      when n < 0. */
  function TakeLast<T>(s: seq<T>, n: int): seq<T> {
    var start :=
      if n > 0 then (if n >= |s| then 0 else |s| - n)
      else if -n >= |s| then |s| else -n;
    s[start..]
  }

  /** Python's `s[:n]` for any integer n: the first n elements when n >= 0,
      all but the last -n elements when n < 0. */
  function TakeFirst<T>(s: seq<T>, n: int): seq<T> {
    var end :=
      if n >= 0 then (if n >= |s| then |s| else n)
      else if |s| + n <= 0 then 0 else |s| + n;
    s[..end]
  }

  /** `b` starts with `a`: what a list that is only ever appended to satisfies. */
  predicate Extends<T(==)>(a: seq<T>, b: seq<T>) {
    |a| <= |b| && b[..|a|] == a
  }

  /** The rows of several files, file after file. */
  function Flatten<T>(files: seq<seq<T>>): (r: seq<T>)
    ensures |files| == 0 ==> r == []
    decreases |files|
  {
    if files == [] then [] else Flatten(files[..|files| - 1]) + files[|files| - 1]
  }

  /** A list comprehension `[x for x in s if f(x)]`. */
  function Filter<T(!new)>(s: seq<T>, f: T -> bool): (r: seq<T>)
    ensures |r| <= |s|
    ensures forall x :: x in r <==> x in s && f(x)
    ensures multiset(r) <= multiset(s)
    decreases |s|
  {
    if s == [] then []
    else
      var init := Filter(s[..|s| - 1], f);
      assert s == s[..|s| - 1] + [s[|s| - 1]];
      if f(s[|s| - 1]) then init + [s[|s| - 1]] else init
  }

  /** A dict's `.values()` in insertion order, given the order of its keys. */
  function Listed<K, V(!new)>(m: map<K, V>, order: seq<K>): (r: seq<V>)
    ensures forall v :: v in r <==> exists i :: 0 <= i < |order| && order[i] in m && m[order[i]] == v
    decreases |order|
  {
    if order == [] then []
    else
      var init := Listed(m, order[..|order| - 1]);
      var k := order[|order| - 1];
      if k in m then init + [m[k]] else init
  }

  function DigitChar(d: nat): char
    requires d < 10
  {
    ['0', '1', '2', '3', '4', '5', '6', '7', '8', '9'][d]
  }

  /** Decimal rendering of a natural number, as Python's `str`. */
  function NatToString(n: nat): string
    decreases n
  {
    if n < 10 then [DigitChar(n)] else NatToString(n / 10) + [DigitChar(n % 10)]
  }

  /** Decimal rendering of an integer, as Python's `str`. */
  function IntToString(i: int): string {
    if i < 0 then "-" + NatToString(-i) else NatToString(i)
  }

  /** ASCII upper-casing of one character. */
  function UpperChar(c: char): char {
    if 'a' <= c <= 'z' then (c as int - 32) as char else c
  }

  /** ASCII lower-casing of one character. */
  function LowerChar(c: char): char {
    if 'A' <= c <= 'Z' then (c as int + 32) as char else c
  }

  /** `s.upper()` restricted to ASCII letters. */
  function Upper(s: string): (r: string)
    ensures |r| == |s|
  {
    if s == [] then [] else [UpperChar(s[0])] + Upper(s[1..])
  }

  /** `s.lower()` restricted to ASCII letters. */
  function Lower(s: string): (r: string)
    ensures |r| == |s|
    ensures forall i :: 0 <= i < |s| ==> r[i] == LowerChar(s[i])
  {
    if s == [] then [] else [LowerChar(s[0])] + Lower(s[1..])
  }

  /** `[l.upper() for l in xs]`. */
  function UpperAll(xs: seq<string>): (r: seq<string>)
    ensures |r| == |xs|
  {
    if xs == [] then [] else [Upper(xs[0])] + UpperAll(xs[1..])
  }
}
