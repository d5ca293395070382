/**
  `Array.prototype.sort` with a comparator of the form `(a, b) => key(a) - key(b)`.
  Since ES2019 the sort is stable, so with such a consistent comparator its
  result is fully determined: `SortBy` (insertion of each element, from the
  last to the first, before the first element whose key is not smaller)
  defines it, and `SortInPlace` computes it in place on an array.
*/
module StableSort {
  import opened Wrappers

  /** Keys never decrease along `s`. */
  predicate Ordered<T>(s: seq<T>, key: T -> real) {
    forall i, j :: 0 <= i < j < |s| ==> key(s[i]) <= key(s[j])
  }

  /** The elements of `s` whose key is `v`, in their order in `s`. */
  function Ties<T>(s: seq<T>, key: T -> real, v: real): seq<T> {
    if s == [] then [] else (if key(s[0]) == v then [s[0]] else []) + Ties(s[1..], key, v)
  }

  /** `x` placed before the first element of `s` whose key is at least its own. */
  function Insert<T>(x: T, s: seq<T>, key: T -> real): seq<T> {
    if s == [] || key(x) <= key(s[0]) then [x] + s else [s[0]] + Insert(x, s[1..], key)
  }

  /** The stable ascending sort of `s` by `key`. */
  function SortBy<T>(s: seq<T>, key: T -> real): seq<T> {
    if s == [] then [] else Insert(s[0], SortBy(s[1..], key), key)
  }

  lemma {:induction false} InsertPermutes<T>(x: T, s: seq<T>, key: T -> real)
    ensures multiset(Insert(x, s, key)) == multiset{x} + multiset(s)
    ensures |Insert(x, s, key)| == |s| + 1
  {
    if s != [] && key(x) > key(s[0]) {
      InsertPermutes(x, s[1..], key);
      assert s == [s[0]] + s[1..];
    }
  }

  lemma {:induction false} InsertOrdered<T>(x: T, s: seq<T>, key: T -> real)
    requires Ordered(s, key)
    ensures Ordered(Insert(x, s, key), key)
  {
    if s != [] && key(x) > key(s[0]) {
      var rest := Insert(x, s[1..], key);
      InsertOrdered(x, s[1..], key);
      InsertPermutes(x, s[1..], key);
      forall k | 0 <= k < |rest| ensures key(s[0]) <= key(rest[k]) {
        assert rest[k] in multiset(rest);
        if rest[k] != x {
          assert rest[k] in multiset(s[1..]);
          var m :| 0 <= m < |s[1..]| && s[1..][m] == rest[k];
          assert s[m + 1] == rest[k];
        }
      }
      var r := [s[0]] + rest;
      forall i, j | 0 <= i < j < |r| ensures key(r[i]) <= key(r[j]) {
        if i > 0 {
          assert r[i] == rest[i - 1] && r[j] == rest[j - 1];
        } else {
          assert r[j] == rest[j - 1];
        }
      }
    }
  }

  /** Inserting `x` adds it to the ties of its own key and leaves the others as they were. */
  lemma {:induction false} InsertTies<T>(x: T, s: seq<T>, key: T -> real, v: real)
    ensures Ties(Insert(x, s, key), key, v) == (if key(x) == v then [x] else []) + Ties(s, key, v)
  {
    if s == [] || key(x) <= key(s[0]) {
      assert ([x] + s)[1..] == s;
    } else {
      InsertTies(x, s[1..], key, v);
      assert ([s[0]] + Insert(x, s[1..], key))[1..] == Insert(x, s[1..], key);
    }
  }

  /** The sort is a permutation of its input. */
  lemma {:induction false} SortByPermutes<T>(s: seq<T>, key: T -> real)
    ensures multiset(SortBy(s, key)) == multiset(s)
    ensures |SortBy(s, key)| == |s|
  {
    if s != [] {
      SortByPermutes(s[1..], key);
      InsertPermutes(s[0], SortBy(s[1..], key), key);
      assert s == [s[0]] + s[1..];
    }
  }

  /** The sort orders its input by key. */
  lemma {:induction false} SortByOrdered<T>(s: seq<T>, key: T -> real)
    ensures Ordered(SortBy(s, key), key)
  {
    if s != [] {
      SortByOrdered(s[1..], key);
      InsertOrdered(s[0], SortBy(s[1..], key), key);
    }
  }

  /** The sort is stable: elements with equal keys keep their relative order. */
  lemma {:induction false} SortByStable<T>(s: seq<T>, key: T -> real, v: real)
    ensures Ties(SortBy(s, key), key, v) == Ties(s, key, v)
  {
    if s != [] {
      SortByStable(s[1..], key, v);
      InsertTies(s[0], SortBy(s[1..], key), key, v);
    }
  }

  /** The ties of a prefix are a prefix of the ties. */
  lemma {:induction false} TiesOfPrefix<T>(s: seq<T>, k: nat, key: T -> real, v: real)
    requires k <= |s|
    ensures Ties(s[..k], key, v) <= Ties(s, key, v)
  {
    if k > 0 {
      assert s[..k][1..] == s[1..][..k - 1];
      TiesOfPrefix(s[1..], k - 1, key, v);
    }
  }

  /**
    The first `k` elements of an ordered sequence are the `k` smallest: none
    of the elements left out has a smaller key than one kept.
  */
  lemma PrefixIsSmallest<T>(s: seq<T>, k: nat, key: T -> real)
    requires Ordered(s, key) && k <= |s|
    ensures forall x, y :: x in multiset(s[..k]) && y in multiset(s) - multiset(s[..k]) ==> key(x) <= key(y)
  {
    assert s == s[..k] + s[k..];
    assert multiset(s) - multiset(s[..k]) == multiset(s[k..]);
    forall x, y | x in multiset(s[..k]) && y in multiset(s[k..]) ensures key(x) <= key(y) {
      var i :| 0 <= i < k && s[..k][i] == x;
      var j :| 0 <= j < |s| - k && s[k..][j] == y;
      assert s[i] == x && s[k + j] == y;
    }
  }

  /** `.sort(comparator).slice(0, limit)`: the first `limit` elements of the stable sort. */
  function TopBy<T>(s: seq<T>, key: T -> real, limit: nat): seq<T> {
    var sorted := SortBy(s, key);
    sorted[..Min(limit, |sorted|)]
  }

  /**
    The top `limit` elements: ordered by key, as many as the limit and the
    input allow, a sub-multiset of the input; none of the elements left out
    has a smaller key than one kept; elements with equal keys keep their
    input order.
  */
  lemma TopByRanked<T>(s: seq<T>, key: T -> real, limit: nat)
    ensures var r := TopBy(s, key, limit);
      && Ordered(r, key)
      && |r| == Min(limit, |s|)
      && multiset(r) <= multiset(s)
      && (forall x, y :: x in multiset(r) && y in multiset(s) - multiset(r) ==> key(x) <= key(y))
      && (forall v :: Ties(r, key, v) <= Ties(s, key, v))
  {
    var sorted := SortBy(s, key);
    var k := Min(limit, |sorted|);
    SortByPermutes(s, key);
    SortByOrdered(s, key);
    assert sorted == sorted[..k] + sorted[k..];
    assert multiset(sorted[..k]) <= multiset(sorted);
    PrefixIsSmallest(sorted, k, key);
    forall v ensures Ties(sorted[..k], key, v) <= Ties(s, key, v) {
      TiesOfPrefix(sorted, k, key, v);
      SortByStable(s, key, v);
    }
  }

  /** Where `Insert` puts `x`: after the `m` leading elements with a smaller key. */
  lemma {:induction false} InsertAt<T>(x: T, s: seq<T>, key: T -> real, m: nat)
    requires m <= |s|
    requires forall k :: 0 <= k < m ==> key(s[k]) < key(x)
    requires m < |s| ==> key(x) <= key(s[m])
    ensures Insert(x, s, key) == s[..m] + [x] + s[m..]
  {
    if m > 0 {
      InsertAt(x, s[1..], key, m - 1);
      assert s[..m] == [s[0]] + s[1..][..m - 1];
      assert s[m..] == s[1..][m - 1..];
    }
  }

  /**
    One step of the in-place sort: moves `a[i]` rightward past the leading
    elements of `a[i + 1..]` with a smaller key, shifting them left by one.
  */
  method InsertInPlace<T>(a: array<T>, i: nat, key: T -> real)
    requires i < a.Length
    modifies a
    ensures a[..i] == old(a[..i])
    ensures a[i..] == Insert(old(a[i]), old(a[i + 1..]), key)
  {
    var x := a[i];
    ghost var sorted := a[i + 1..];
    var j := i;
    while j + 1 < a.Length && key(a[j + 1]) < key(x)
      invariant i <= j < a.Length
      invariant a[..i] == old(a[..i])
      invariant a[i..j] == sorted[..j - i]
      invariant a[j + 1..] == sorted[j - i..]
      invariant forall k :: 0 <= k < j - i ==> key(sorted[k]) < key(x)
    {
      a[j] := a[j + 1];
      j := j + 1;
    }
    a[j] := x;
    InsertAt(x, sorted, key, j - i);
    assert a[i..] == a[i..j] + [x] + a[j + 1..];
  }

  /** The in-place sort: afterwards the array holds exactly the stable sort of its old contents. */
  method SortInPlace<T>(a: array<T>, key: T -> real)
    modifies a
    ensures a[..] == SortBy(old(a[..]), key)
  {
    ghost var input := a[..];
    var i := a.Length;
    while i > 0
      invariant 0 <= i <= a.Length
      invariant a[..i] == input[..i]
      invariant a[i..] == SortBy(input[i..], key)
    {
      i := i - 1;
      assert a[i] == input[i];
      InsertInPlace(a, i, key);
      assert input[i..][1..] == input[i + 1..];
    }
    assert a[0..] == a[..];
  }
}
