/**
 * SQLite's `LIKE` operator without an `ESCAPE` clause: `%` matches any run of
 * characters, `_` any one character, and letters compare without regard to ASCII case.
 */
module SqlLike {
  import opened Strings

  /** `s LIKE pattern`. */
  predicate Like(s: string, pattern: string)
    decreases |s| + |pattern|
  {
    if pattern == [] then s == []
    else if pattern[0] == '%' then Like(s, pattern[1..]) || (s != [] && Like(s[1..], pattern))
    else s != [] && (pattern[0] == '_' || LowerChar(pattern[0]) == LowerChar(s[0])) && Like(s[1..], pattern[1..])
  }

  /** A search term the user typed contains no wildcard. */
  predicate NoWildcards(t: string)
  {
    forall k :: 0 <= k < |t| ==> t[k] != '%' && t[k] != '_'
  }

  /** `%` alone matches everything. */
  lemma {:induction false} LikeAll(s: string)
    ensures Like(s, "%")
    decreases |s|
  {
    if s != [] {
      LikeAll(s[1..]);
    }
  }

  /** Lower-casing a non-empty string lower-cases its first character and then the rest. */
  lemma LowerCons(s: string)
    requires s != []
    ensures Lower(s) == [LowerChar(s[0])] + Lower(s[1..])
  {
    assert Lower(s)[1..] == Lower(s[1..]);
  }

  /** A wildcard-free pattern followed by `%` matches exactly the strings it begins, ignoring case. */
  lemma {:induction false} LikePrefix(s: string, t: string)
    requires NoWildcards(t)
    ensures Like(s, t + "%") <==> |t| <= |s| && Lower(t) == Lower(s[..|t|])
    decreases |t|
  {
    var p := t + "%";
    if t == [] {
      LikeAll(s);
      assert p == "%";
    } else if s == [] {
      assert p[0] == t[0] && t[0] != '%' && t[0] != '_';
      assert !Like(s, p);
    } else {
      assert p[0] == t[0] && t[0] != '%' && t[0] != '_';
      assert p[1..] == t[1..] + "%";
      assert NoWildcards(t[1..]) by {
        assert forall k :: 0 <= k < |t[1..]| ==> t[1..][k] == t[k + 1];
      }
      LikePrefix(s[1..], t[1..]);
      assert Like(s, p) <==> LowerChar(t[0]) == LowerChar(s[0]) && Like(s[1..], t[1..] + "%");
      if |t| <= |s| {
        var w := s[..|t|];
        assert w[0] == s[0] && w[1..] == s[1..][..|t| - 1];
        LowerCons(t);
        LowerCons(w);
      }
    }
  }

  /** A pattern with a leading `%` matches when the rest matches some suffix. */
  lemma {:induction false} LikeSomeSuffix(s: string, p: string)
    ensures Like(s, "%" + p) <==> exists i :: 0 <= i <= |s| && Like(s[i..], p)
    decreases |s|
  {
    assert ("%" + p)[1..] == p;
    if s == [] {
      assert forall i :: 0 <= i <= |s| ==> s[i..] == s;
      if Like(s, p) {
        assert Like(s[0..], p);
      }
    } else {
      LikeSomeSuffix(s[1..], p);
      if exists i :: 0 <= i <= |s| && Like(s[i..], p) {
        var i :| 0 <= i <= |s| && Like(s[i..], p);
        if i > 0 {
          assert s[1..][i - 1..] == s[i..];
        } else {
          assert s[i..] == s;
        }
      }
      if exists j :: 0 <= j <= |s[1..]| && Like(s[1..][j..], p) {
        var j :| 0 <= j <= |s[1..]| && Like(s[1..][j..], p);
        assert s[1..][j..] == s[j + 1..];
      }
      assert s[0..] == s;
    }
  }

  /**
   * The set-cache search `LOWER(col) LIKE LOWER('%term%')` is a case-insensitive
   * substring test when the term holds no wildcard.
   */
  lemma LikeContains(s: string, t: string)
    requires NoWildcards(t)
    ensures Like(Lower(s), Lower("%" + t + "%")) <==> Contains(Lower(s), Lower(t))
  {
    var ls, lt := Lower(s), Lower(t);
    assert Lower("%" + t + "%") == "%" + (lt + "%") by {
      LowerConcat("%" + t, "%");
      LowerConcat("%", t);
    }
    assert NoWildcards(lt) by {
      forall k | 0 <= k < |lt| ensures lt[k] != '%' && lt[k] != '_' {
        assert lt[k] == LowerChar(t[k]);
      }
    }
    LikeSomeSuffix(ls, lt + "%");
    ContainsAt(ls, lt);
    forall i | 0 <= i <= |ls|
      ensures Like(ls[i..], lt + "%") <==> OccursAt(ls, lt, i)
    {
      LikeAt(s, t, i);
    }
    assert forall i :: OccursAt(ls, lt, i) ==> 0 <= i <= |ls|;
  }

  /** At one position of the lowered text, `term%` matches exactly where the term occurs. */
  lemma LikeAt(s: string, t: string, i: int)
    requires NoWildcards(Lower(t)) && 0 <= i <= |Lower(s)|
    ensures Like(Lower(s)[i..], Lower(t) + "%") <==> OccursAt(Lower(s), Lower(t), i)
  {
    var ls, lt := Lower(s), Lower(t);
    LikePrefix(ls[i..], lt);
    LowerSliceLower(s, i, |lt|);
    LowerIdempotent(t);
    if |lt| <= |ls[i..]| {
      assert ls[i..][..|lt|] == ls[i..i + |lt|];
    }
  }

  /** A slice of a lowered string is already lowered. */
  lemma LowerSliceLower(s: string, i: int, n: int)
    requires 0 <= i <= |s|
    ensures i + n <= |s| && 0 <= n ==> Lower(Lower(s)[i..][..n]) == Lower(s)[i..][..n]
  {
    if i + n <= |s| && 0 <= n {
      var x := Lower(s)[i..][..n];
      assert forall k :: 0 <= k < n ==> x[k] == LowerChar(s[i + k]);
    }
  }
}
