/** The optional value the store and the API use for absent fields. */
module Options {
  datatype Option<+T> = None | Some(value: T)
}

/**
 * The array operations the handlers apply to their lists: `filter`, removal by
 * index (`filter((_, i) => i !== index)`), `splice(index, 1)` and the
 * include-or-append toggle of the selection lists.
 */
module Seqs {
  import Options

  /** `s.filter(p)`, defined element by element from the left as the callback runs. */
  function Filter<T>(s: seq<T>, p: T -> bool): (r: seq<T>)
    ensures |r| <= |s|
  {
    if s == [] then []
    else Filter(s[..|s| - 1], p) + (if p(s[|s| - 1]) then [s[|s| - 1]] else [])
  }

  /** `filter` keeps exactly the elements that pass. */
  lemma {:induction false} FilterMembers<T>(s: seq<T>, p: T -> bool)
    ensures forall x :: x in Filter(s, p) ==> x in s && p(x)
    ensures forall k :: 0 <= k < |s| && p(s[k]) ==> s[k] in Filter(s, p)
  {
    if s != [] {
      FilterMembers(s[..|s| - 1], p);
      assert forall k :: 0 <= k < |s| - 1 ==> s[k] == s[..|s| - 1][k];
    }
  }

  /** Filtering a concatenation filters each part in place: `filter` keeps the order. */
  lemma {:induction false} FilterConcat<T>(a: seq<T>, b: seq<T>, p: T -> bool)
    ensures Filter(a + b, p) == Filter(a, p) + Filter(b, p)
  {
    if b == [] {
      assert a + b == a;
    } else {
      assert (a + b)[..|a + b| - 1] == a + b[..|b| - 1];
      FilterConcat(a, b[..|b| - 1], p);
    }
  }

  /** A one-element list keeps its element exactly when it passes. */
  lemma FilterSingle<T>(x: T, p: T -> bool)
    ensures Filter([x], p) == if p(x) then [x] else []
  {
    assert [x][..0] == [];
  }

  /** A filter that every element passes returns the list unchanged. */
  lemma {:induction false} FilterAll<T>(s: seq<T>, p: T -> bool)
    requires forall k :: 0 <= k < |s| ==> p(s[k])
    ensures Filter(s, p) == s
  {
    if s != [] {
      FilterAll(s[..|s| - 1], p);
    }
  }

  /** No element occurs twice in `s`. */
  predicate NoDup<T(==)>(s: seq<T>) {
    forall i, j :: 0 <= i < j < |s| ==> s[i] != s[j]
  }

  /** `s.filter(v => v !== x)`: every occurrence of `x` goes, the rest keep their order. */
  function Without<T(==)>(s: seq<T>, x: T): (r: seq<T>)
    ensures x !in r
    ensures forall y :: y in r ==> y in s
    ensures forall y :: y in s && y != x ==> y in r
    ensures NoDup(s) ==> NoDup(r)
  {
    var keep := v => v != x;
    FilterMembers(s, keep);
    if NoDup(s) then
      FilterKeepsNoDup(s, keep);
      Filter(s, keep)
    else Filter(s, keep)
  }

  /** Removing a value that is not there changes nothing. */
  lemma WithoutAbsent<T>(s: seq<T>, x: T)
    requires x !in s
    ensures Without(s, x) == s
  {
    FilterAll(s, v => v != x);
  }

  /**
   * The toggle of a multi-select list: `s.includes(x) ? s.filter(v => v !== x) : [...s, x]`.
   */
  function Toggle<T(==)>(s: seq<T>, x: T): (r: seq<T>)
    ensures x in r <==> x !in s
    ensures forall y :: y in r && y != x ==> y in s
    ensures forall y :: y in s && y != x ==> y in r
    ensures x !in s ==> r == s + [x]
  {
    if x in s then Without(s, x) else s + [x]
  }

  /** Toggling an absent value twice gives back exactly the list it started from. */
  lemma ToggleTwiceAbsent<T>(s: seq<T>, x: T)
    requires x !in s
    ensures Toggle(Toggle(s, x), x) == s
  {
    FilterConcat(s, [x], v => v != x);
    WithoutAbsent(s, x);
  }

  /**
   * Toggling a present value twice moves it to the end: the same members,
   * but not always the same order.
   */
  lemma ToggleTwicePresent<T>(s: seq<T>, x: T)
    requires x in s
    ensures Toggle(Toggle(s, x), x) == Without(s, x) + [x]
    ensures forall y :: y in Toggle(Toggle(s, x), x) ==> y in s
    ensures forall y :: y in s ==> y in Toggle(Toggle(s, x), x)
  {
  }

  /** A toggle keeps a list free of duplicates. */
  lemma {:induction false} ToggleKeepsNoDup<T>(s: seq<T>, x: T)
    requires NoDup(s)
    ensures NoDup(Toggle(s, x))
  {
    if x in s {
      FilterKeepsNoDup(s, v => v != x);
    }
  }

  lemma {:induction false} FilterKeepsNoDup<T>(s: seq<T>, p: T -> bool)
    requires NoDup(s)
    ensures NoDup(Filter(s, p))
  {
    if s != [] {
      var init := s[..|s| - 1];
      FilterKeepsNoDup(init, p);
      var last := s[|s| - 1];
      assert last !in init;
      FilterMembers(init, p);
      assert last !in Filter(init, p);
    }
  }

  /** `s.filter((_, j) => j !== i)`: drops position `i` when it exists. */
  function RemoveAt<T>(s: seq<T>, i: int): (r: seq<T>)
    ensures 0 <= i < |s| ==> |r| == |s| - 1
    ensures 0 <= i < |s| ==> forall k :: 0 <= k < i ==> r[k] == s[k]
    ensures 0 <= i < |s| ==> forall k :: i <= k < |r| ==> r[k] == s[k + 1]
    ensures !(0 <= i < |s|) ==> r == s
  {
    if 0 <= i < |s| then s[..i] + s[i + 1..] else s
  }

  /**
   * `s.splice(i, 1)` on a copy: a negative `i` counts from the end, an index
   * past the end removes nothing.
   */
  function Splice1<T>(s: seq<T>, i: int): (r: seq<T>)
    ensures |s| > 0 && i < |s| ==> |r| == |s| - 1
    ensures i >= |s| ==> r == s
  {
    var start := if i < 0 then (if |s| + i < 0 then 0 else |s| + i) else i;
    if start < |s| then s[..start] + s[start + 1..] else s
  }

  /** For the indices the screens pass, splicing and index-filtering agree. */
  lemma SpliceIsRemoveAt<T>(s: seq<T>, i: nat)
    ensures Splice1(s, i) == RemoveAt(s, i)
  {
  }

  /** `s.slice(0, n)`: a negative `n` counts back from the end. */
  function Take<T>(s: seq<T>, n: int): (r: seq<T>)
    ensures |r| <= |s| && r == s[..|r|]
    ensures 0 <= n <= |s| ==> |r| == n
    ensures n > |s| ==> r == s
    ensures n < 0 ==> |r| == (if |s| + n < 0 then 0 else |s| + n)
  {
    if n < 0 then (if |s| + n < 0 then [] else s[..|s| + n])
    else if n < |s| then s[..n] else s
  }

  /** `s.map((v, k) => k === i ? f(v) : v)`: only position `i` changes. */
  function MapAt<T>(s: seq<T>, i: int, f: T -> T): (r: seq<T>)
    ensures |r| == |s|
    ensures forall k :: 0 <= k < |s| && k != i ==> r[k] == s[k]
    ensures 0 <= i < |s| ==> r[i] == f(s[i])
  {
    seq(|s|, k requires 0 <= k < |s| => if k == i then f(s[k]) else s[k])
  }

  /** `s.find(x => key(x) === k)`: the first element with that key. */
  function Find<T(==)>(s: seq<T>, key: T -> string, k: string): (r: Options.Option<T>)
    ensures r.None? <==> forall j :: 0 <= j < |s| ==> key(s[j]) != k
    ensures r.Some? ==> exists j :: FirstWithKey(s, key, k, j) && s[j] == r.value
  {
    if s == [] then Options.None
    else if key(s[0]) == k then
      assert FirstWithKey(s, key, k, 0);
      Options.Some(s[0])
    else
      var rest := Find(s[1..], key, k);
      if rest.Some? then
        var j :| FirstWithKey(s[1..], key, k, j) && s[1..][j] == rest.value;
        assert FirstWithKey(s, key, k, j + 1);
        rest
      else rest
  }

  /** Position `j` holds the first element whose key is `k`. */
  predicate FirstWithKey<T>(s: seq<T>, key: T -> string, k: string, j: int) {
    0 <= j < |s| && key(s[j]) == k && forall i :: 0 <= i < j ==> key(s[i]) != k
  }
}
