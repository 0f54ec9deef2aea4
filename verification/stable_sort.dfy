/** Python's `sorted(xs, key=k)` for string keys: a stable sort. Its output is
    characterised by two facts, non-decreasing keys and, for every key, the same
    relative order as the input. `SortBy` computes such an output by insertion,
    and `SortedStableIsUnique` shows that any output with both facts is that one,
    so the choice of algorithm is immaterial. */
module StableSort {
  import opened Strings

  /** Keys are non-decreasing between any two positions. */
  ghost predicate SortedBy<T>(s: seq<T>, key: T -> string) {
    forall i, j :: 0 <= i < j < |s| ==> Le(key(s[i]), key(s[j]))
  }

  /** The elements of `s` whose key is `k`, in their order in `s`. */
  function WithKey<T>(s: seq<T>, key: T -> string, k: string): (r: seq<T>)
    ensures |r| <= |s|
  {
    if |s| == 0 then []
    else (if key(s[0]) == k then [s[0]] else []) + WithKey(s[1..], key, k)
  }

  /** Every key group of `r` lists the same elements in the same order as in `s`. */
  ghost predicate SameKeyGroups<T>(r: seq<T>, s: seq<T>, key: T -> string) {
    forall k :: WithKey(r, key, k) == WithKey(s, key, k)
  }

  /** Places `x` before the first element whose key is not smaller than `x`'s,
      so that `x` precedes the elements it ties with. */
  function Insert<T>(x: T, s: seq<T>, key: T -> string): (r: seq<T>)
    requires SortedBy(s, key)
    ensures SortedBy(r, key)
    ensures multiset(r) == multiset(s) + multiset{x}
    ensures forall k :: WithKey(r, key, k) == (if key(x) == k then [x] else []) + WithKey(s, key, k)
  {
    if |s| == 0 then [x]
    else if Le(key(x), key(s[0])) then
      InsertFrontSorted(x, s, key);
      InsertFrontGroups(x, s, key);
      [x] + s
    else
      NotLeIsStrictGe(key(x), key(s[0]));
      var rest := Insert(x, s[1..], key);
      InsertBehindSorted(s[0], rest, x, s[1..], key);
      InsertBehindGroups(s[0], rest, x, s[1..], key);
      assert s == [s[0]] + s[1..];
      [s[0]] + rest
  }

  /** Skipping past an element of a different key keeps each key group of
      `[y] + rest` equal to that of `[x, y] + s`. */
  lemma InsertBehindGroups<T>(y: T, rest: seq<T>, x: T, s: seq<T>, key: T -> string)
    requires key(y) != key(x)
    requires forall k :: WithKey(rest, key, k) == (if key(x) == k then [x] else []) + WithKey(s, key, k)
    ensures forall k ::
              WithKey([y] + rest, key, k) == (if key(x) == k then [x] else []) + WithKey([y] + s, key, k)
  {
    forall k
      ensures WithKey([y] + rest, key, k) == (if key(x) == k then [x] else []) + WithKey([y] + s, key, k)
    {
      InsertBehindGroup(y, rest, x, s, key, k);
    }
  }

  lemma InsertBehindGroup<T>(y: T, rest: seq<T>, x: T, s: seq<T>, key: T -> string, k: string)
    requires key(y) != key(x)
    requires WithKey(rest, key, k) == (if key(x) == k then [x] else []) + WithKey(s, key, k)
    ensures WithKey([y] + rest, key, k) == (if key(x) == k then [x] else []) + WithKey([y] + s, key, k)
  {
    assert ([y] + rest)[1..] == rest;
    assert ([y] + s)[1..] == s;
    var hy: seq<T> := if key(y) == k then [y] else [];
    var hx: seq<T> := if key(x) == k then [x] else [];
    assert WithKey([y] + rest, key, k) == hy + WithKey(rest, key, k);
    assert WithKey([y] + s, key, k) == hy + WithKey(s, key, k);
    assert hy == [] || hx == [];
  }

  lemma InsertFrontGroups<T>(x: T, s: seq<T>, key: T -> string)
    ensures forall k :: WithKey([x] + s, key, k) == (if key(x) == k then [x] else []) + WithKey(s, key, k)
  {
    assert ([x] + s)[1..] == s;
  }

  lemma InsertFrontSorted<T>(x: T, s: seq<T>, key: T -> string)
    requires SortedBy(s, key) && |s| > 0 && Le(key(x), key(s[0]))
    ensures SortedBy([x] + s, key)
  {
    var r := [x] + s;
    forall i, j | 0 <= i < j < |r|
      ensures Le(key(r[i]), key(r[j]))
    {
      if i == 0 && j > 1 {
        LeTransitive(key(x), key(s[0]), key(s[j - 1]));
      }
    }
  }

  lemma InsertBehindSorted<T>(y: T, rest: seq<T>, x: T, s: seq<T>, key: T -> string)
    requires SortedBy([y] + s, key) && SortedBy(rest, key)
    requires Le(key(y), key(x))
    requires multiset(rest) == multiset(s) + multiset{x}
    ensures SortedBy([y] + rest, key)
  {
    var r := [y] + rest;
    forall i, j | 0 <= i < j < |r|
      ensures Le(key(r[i]), key(r[j]))
    {
      if i == 0 {
        var z := rest[j - 1];
        assert z in multiset(rest);
        if z == x {
        } else {
          assert z in multiset(s);
          var m :| 0 <= m < |s| && s[m] == z;
          assert ([y] + s)[m + 1] == z;
          assert ([y] + s)[0] == y;
        }
      } else {
        assert r[i] == rest[i - 1] && r[j] == rest[j - 1];
      }
    }
  }

  /** `sorted(s, key=key)`. */
  function SortBy<T>(s: seq<T>, key: T -> string): (r: seq<T>)
    ensures SortedBy(r, key)
    ensures multiset(r) == multiset(s)
    ensures SameKeyGroups(r, s, key)
  {
    if |s| == 0 then []
    else
      assert s == [s[0]] + s[1..];
      Insert(s[0], SortBy(s[1..], key), key)
  }

  /** Any sorted, stable rearrangement of `s` is `SortBy(s, key)`: the two facts
      determine Python's `sorted` output exactly. */
  lemma SortedStableIsUnique<T>(s: seq<T>, r: seq<T>, key: T -> string)
    requires SortedBy(r, key) && SameKeyGroups(r, s, key)
    ensures r == SortBy(s, key)
  {
    var q := SortBy(s, key);
    SortedSameGroupsEqual(q, r, key);
  }

  lemma WithKeyHead<T>(s: seq<T>, key: T -> string)
    requires |s| > 0
    ensures WithKey(s, key, key(s[0])) == [s[0]] + WithKey(s[1..], key, key(s[0]))
    ensures forall k :: k != key(s[0]) ==> WithKey(s, key, k) == WithKey(s[1..], key, k)
  {
  }

  /** An element of `s` with key `k` shows up in `WithKey(s, key, k)`. */
  lemma {:induction false} WithKeyNonEmpty<T>(s: seq<T>, key: T -> string, m: nat)
    requires m < |s|
    ensures |WithKey(s, key, key(s[m]))| > 0
  {
    if m > 0 {
      WithKeyNonEmpty(s[1..], key, m - 1);
    }
  }

  /** A non-empty key group has an element of `s` with that key. */
  lemma {:induction false} WithKeyWitness<T>(s: seq<T>, key: T -> string, k: string)
    requires |WithKey(s, key, k)| > 0
    ensures exists m :: 0 <= m < |s| && key(s[m]) == k
  {
    if key(s[0]) != k {
      WithKeyWitness(s[1..], key, k);
      var m :| 0 <= m < |s[1..]| && key(s[1..][m]) == k;
      assert key(s[m + 1]) == k;
    }
  }

  /** Two sorted sequences with the same key groups start with the same key. */
  lemma SameGroupsSameFirstKey<T>(a: seq<T>, b: seq<T>, key: T -> string)
    requires SortedBy(a, key) && SortedBy(b, key)
    requires SameKeyGroups(a, b, key)
    requires |a| > 0 && |b| > 0
    ensures key(a[0]) == key(b[0])
  {
    var ka, kb := key(a[0]), key(b[0]);
    FirstKeyBelow(a, b, key);
    FirstKeyBelow(b, a, key);
    LeAntisymmetric(ka, kb);
  }

  /** The first key of sorted `b` is at most the first key of `a`, since `a`'s
      first key occurs in `b`. */
  lemma FirstKeyBelow<T>(a: seq<T>, b: seq<T>, key: T -> string)
    requires SortedBy(b, key)
    requires SameKeyGroups(a, b, key)
    requires |a| > 0 && |b| > 0
    ensures Le(key(b[0]), key(a[0]))
  {
    var ka := key(a[0]);
    WithKeyNonEmpty(a, key, 0);
    assert WithKey(a, key, ka) == WithKey(b, key, ka);
    WithKeyWitness(b, key, ka);
    var mb :| 0 <= mb < |b| && key(b[mb]) == ka;
    if mb > 0 {
      assert Le(key(b[0]), key(b[mb]));
    } else {
      LeReflexive(ka);
    }
  }

  lemma {:induction false} SortedSameGroupsEqual<T>(a: seq<T>, b: seq<T>, key: T -> string)
    requires SortedBy(a, key) && SortedBy(b, key)
    requires SameKeyGroups(a, b, key)
    ensures a == b
    decreases |a| + |b|
  {
    if |a| == 0 || |b| == 0 {
      if |a| > 0 {
        WithKeyNonEmpty(a, key, 0);
      } else if |b| > 0 {
        WithKeyNonEmpty(b, key, 0);
      }
    } else {
      SameGroupsSameFirstKey(a, b, key);
      var k0 := key(a[0]);
      WithKeyHead(a, key);
      WithKeyHead(b, key);
      var ga, gb := WithKey(a[1..], key, k0), WithKey(b[1..], key, k0);
      assert [a[0]] + ga == [b[0]] + gb;
      assert a[0] == ([a[0]] + ga)[0] == ([b[0]] + gb)[0] == b[0];
      assert ga == ([a[0]] + ga)[1..] == ([b[0]] + gb)[1..] == gb;
      forall k
        ensures WithKey(a[1..], key, k) == WithKey(b[1..], key, k)
      {
        assert WithKey(a, key, k) == WithKey(b, key, k);
      }
      SortedTail(a, key);
      SortedTail(b, key);
      SortedSameGroupsEqual(a[1..], b[1..], key);
      assert a == [a[0]] + a[1..];
      assert b == [b[0]] + b[1..];
    }
  }

  lemma SortedTail<T>(s: seq<T>, key: T -> string)
    requires SortedBy(s, key) && |s| > 0
    ensures SortedBy(s[1..], key)
  {
    forall i, j | 0 <= i < j < |s| - 1
      ensures Le(key(s[1..][i]), key(s[1..][j]))
    {
      assert s[1..][i] == s[i + 1] && s[1..][j] == s[j + 1];
    }
  }
}
