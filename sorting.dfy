/**
 * `ORDER BY` and Python's `sorted`: keys made of one or more strings compared
 * lexicographically by code point, and an insertion sort proved to return a sorted
 * permutation of its input.
 */
module Sorting {
  import opened Strings

  /** `a <= b` for composite keys such as `(set_id, card_number)`. */
  predicate KeyLe(a: seq<string>, b: seq<string>)
  {
    a == [] || (b != [] && (Less(a[0], b[0]) || (a[0] == b[0] && KeyLe(a[1..], b[1..]))))
  }

  lemma {:induction false} KeyLeTotal(a: seq<string>, b: seq<string>)
    ensures KeyLe(a, b) || KeyLe(b, a)
  {
    if a != [] && b != [] {
      LessTotal(a[0], b[0]);
      if a[0] == b[0] {
        KeyLeTotal(a[1..], b[1..]);
      }
    }
  }

  lemma {:induction false} KeyLeReflexive(a: seq<string>)
    ensures KeyLe(a, a)
  {
    if a != [] {
      KeyLeReflexive(a[1..]);
    }
  }

  lemma {:induction false} KeyLeTransitive(a: seq<string>, b: seq<string>, c: seq<string>)
    requires KeyLe(a, b) && KeyLe(b, c)
    ensures KeyLe(a, c)
  {
    if a != [] {
      if Less(a[0], b[0]) && Less(b[0], c[0]) {
        LessTransitive(a[0], b[0], c[0]);
      } else if a[0] == b[0] && b[0] == c[0] {
        KeyLeTransitive(a[1..], b[1..], c[1..]);
      }
    }
  }

  ghost predicate SortedBy<T>(s: seq<T>, key: T -> seq<string>)
  {
    forall i, j :: 0 <= i < j < |s| ==> KeyLe(key(s[i]), key(s[j]))
  }

  /** The elements of `s` whose key is `k`, in their order in `s`. */
  function WithKey<T>(s: seq<T>, key: T -> seq<string>, k: seq<string>): seq<T>
  {
    if s == [] then [] else (if key(s[0]) == k then [s[0]] else []) + WithKey(s[1..], key, k)
  }

  lemma {:induction false} WithKeyConcat<T>(a: seq<T>, b: seq<T>, key: T -> seq<string>, k: seq<string>)
    ensures WithKey(a + b, key, k) == WithKey(a, key, k) + WithKey(b, key, k)
  {
    if a == [] {
      assert a + b == b;
    } else {
      var ab := a + b;
      var h := if key(a[0]) == k then [a[0]] else [];
      assert ab[0] == a[0] && ab[1..] == a[1..] + b;
      assert WithKey(ab, key, k) == h + WithKey(a[1..] + b, key, k);
      WithKeyConcat(a[1..], b, key, k);
      assert WithKey(a, key, k) == h + WithKey(a[1..], key, k);
      assert h + (WithKey(a[1..], key, k) + WithKey(b, key, k)) == (h + WithKey(a[1..], key, k)) + WithKey(b, key, k);
    }
  }

  /** No element of `s` has the key `k`. */
  lemma {:induction false} WithKeyNone<T>(s: seq<T>, key: T -> seq<string>, k: seq<string>)
    requires forall i :: 0 <= i < |s| ==> key(s[i]) != k
    ensures WithKey(s, key, k) == []
  {
    if s != [] {
      WithKeyNone(s[1..], key, k);
    }
  }

  /** Rows whose keys are all greater than `x`'s hold none with `x`'s key. */
  lemma InsertFrontStable<T>(s: seq<T>, x: T, key: T -> seq<string>)
    requires SortedBy(s, key) && s != [] && !KeyLe(key(s[0]), key(x))
    ensures forall k :: WithKey([x] + s, key, k) == WithKey(s, key, k) + WithKey([x], key, k)
  {
    KeyLeReflexive(key(s[0]));
    assert forall i :: 0 <= i < |s| ==> KeyLe(key(s[0]), key(s[i]));
    WithKeyNone(s, key, key(x));
    forall k ensures WithKey([x] + s, key, k) == WithKey(s, key, k) + WithKey([x], key, k) {
      WithKeyConcat([x], s, key, k);
    }
  }

  /** Inserts `x` after every element whose key is not greater than its own. */
  function Insert<T>(s: seq<T>, x: T, key: T -> seq<string>): (r: seq<T>)
    requires SortedBy(s, key)
    ensures SortedBy(r, key)
    ensures multiset(r) == multiset(s) + multiset{x}
    ensures |r| == |s| + 1
  {
    if s == [] then [x]
    else if !KeyLe(key(s[0]), key(x)) then
      InsertFront(s, x, key);
      [x] + s
    else
      var t := Insert(s[1..], x, key);
      InsertBehind(s, x, key, t);
      [s[0]] + t
  }

  /** `x` lands after every element with its own key, so each key's elements keep their order. */
  lemma {:induction false} InsertStable<T>(s: seq<T>, x: T, key: T -> seq<string>)
    requires SortedBy(s, key)
    ensures forall k :: WithKey(Insert(s, x, key), key, k) == WithKey(s, key, k) + WithKey([x], key, k)
  {
    if s == [] {
      assert forall k :: WithKey([], key, k) == [];
    } else if !KeyLe(key(s[0]), key(x)) {
      InsertFrontStable(s, x, key);
    } else {
      InsertStable(s[1..], x, key);
      InsertBehindStable(s, x, key, Insert(s[1..], x, key));
    }
  }

  lemma InsertBehindStable<T>(s: seq<T>, x: T, key: T -> seq<string>, t: seq<T>)
    requires s != []
    requires forall k :: WithKey(t, key, k) == WithKey(s[1..], key, k) + WithKey([x], key, k)
    ensures forall k :: WithKey([s[0]] + t, key, k) == WithKey(s, key, k) + WithKey([x], key, k)
  {
    forall k ensures WithKey([s[0]] + t, key, k) == WithKey(s, key, k) + WithKey([x], key, k) {
      PrependStable(s, x, key, t, k);
    }
  }

  lemma PrependStable<T>(s: seq<T>, x: T, key: T -> seq<string>, t: seq<T>, k: seq<string>)
    requires s != []
    requires WithKey(t, key, k) == WithKey(s[1..], key, k) + WithKey([x], key, k)
    ensures WithKey([s[0]] + t, key, k) == WithKey(s, key, k) + WithKey([x], key, k)
  {
    var h, rest, tail := WithKey([s[0]], key, k), WithKey(s[1..], key, k), WithKey([x], key, k);
    WithKeyConcat([s[0]], t, key, k);
    WithKeyConcat([s[0]], s[1..], key, k);
    assert [s[0]] + s[1..] == s;
    assert h + (rest + tail) == (h + rest) + tail;
  }

  lemma InsertFront<T>(s: seq<T>, x: T, key: T -> seq<string>)
    requires SortedBy(s, key) && s != [] && !KeyLe(key(s[0]), key(x))
    ensures SortedBy([x] + s, key)
  {
    KeyLeTotal(key(s[0]), key(x));
    forall j | 0 < j < |s| ensures KeyLe(key(x), key(s[j])) {
      KeyLeTransitive(key(x), key(s[0]), key(s[j]));
    }
    var r := [x] + s;
    forall i, j | 0 <= i < j < |r| ensures KeyLe(key(r[i]), key(r[j])) {
      if i > 0 {
        assert r[i] == s[i - 1] && r[j] == s[j - 1];
      } else if j > 1 {
        assert r[j] == s[j - 1];
      }
    }
  }

  lemma InsertBehind<T>(s: seq<T>, x: T, key: T -> seq<string>, t: seq<T>)
    requires SortedBy(s, key) && s != [] && KeyLe(key(s[0]), key(x))
    requires SortedBy(t, key) && multiset(t) == multiset(s[1..]) + multiset{x}
    ensures SortedBy([s[0]] + t, key)
    ensures multiset([s[0]] + t) == multiset(s) + multiset{x}
  {
    forall j | 0 <= j < |t| ensures KeyLe(key(s[0]), key(t[j])) {
      assert t[j] in multiset(t);
      if t[j] != x {
        assert t[j] in multiset(s[1..]);
        var k :| 0 <= k < |s[1..]| && s[1..][k] == t[j];
        assert s[k + 1] == t[j];
      }
    }
    var r := [s[0]] + t;
    forall i, j | 0 <= i < j < |r| ensures KeyLe(key(r[i]), key(r[j])) {
      if i > 0 {
        assert r[i] == t[i - 1] && r[j] == t[j - 1];
      } else {
        assert r[j] == t[j - 1];
      }
    }
    assert s == [s[0]] + s[1..];
  }

  /** `sorted(s, key=key)`: a sorted permutation of `s`; `SortByStable` shows it is stable. */
  function SortBy<T>(s: seq<T>, key: T -> seq<string>): (r: seq<T>)
    ensures SortedBy(r, key)
    ensures multiset(r) == multiset(s)
    ensures |r| == |s|
  {
    if s == [] then []
    else
      assert s == s[..|s| - 1] + [s[|s| - 1]];
      Insert(SortBy(s[..|s| - 1], key), s[|s| - 1], key)
  }

  /** The sort is stable: the elements with any one key come out in their input order. */
  lemma {:induction false} SortByStable<T>(s: seq<T>, key: T -> seq<string>)
    ensures forall k :: WithKey(SortBy(s, key), key, k) == WithKey(s, key, k)
  {
    if s != [] {
      var init, last := s[..|s| - 1], s[|s| - 1];
      SortByStable(init, key);
      InsertStable(SortBy(init, key), last, key);
      forall k ensures WithKey(s, key, k) == WithKey(init, key, k) + WithKey([last], key, k) {
        WithKeyConcat(init, [last], key, k);
        assert init + [last] == s;
      }
    }
  }

  lemma SortedMembers<T>(s: seq<T>, key: T -> seq<string>, x: T)
    ensures x in SortBy(s, key) <==> x in s
  {
    var r := SortBy(s, key);
    assert x in r <==> x in multiset(r);
    assert x in s <==> x in multiset(s);
  }
}
