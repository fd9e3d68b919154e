/**
 * SQL `LIKE` pattern matching as MySQL reads a pattern: `%` matches any run of
 * characters, `_` any one character, and a backslash makes the next character
 * literal. Characters are compared exactly (no collation).
 */
module SqlLike {
  predicate Like(s: string, p: string)
    decreases |s| + |p|
  {
    if p == [] then s == []
    else if p[0] == '%' then Like(s, p[1..]) || (s != [] && Like(s[1..], p))
    else if p[0] == '_' then s != [] && Like(s[1..], p[1..])
    else if p[0] == '\\' && |p| >= 2 then s != [] && s[0] == p[1] && Like(s[1..], p[2..])
    else s != [] && s[0] == p[0] && Like(s[1..], p[1..])
  }

  /** `q` has none of the characters that are special in a pattern. */
  predicate NoWildcards(q: string)
  {
    '%' !in q && '_' !in q && '\\' !in q
  }

  /** `q` occurs in `s` as a contiguous substring. */
  predicate Contains(s: string, q: string)
  {
    exists i :: 0 <= i <= |s| && q <= s[i..]
  }

  /** The pattern "%" matches every string. */
  lemma {:induction false} LikeAll(s: string)
    ensures Like(s, "%")
  {
    if s != [] {
      LikeAll(s[1..]);
    }
  }

  /** A wildcard-free `q` followed by "%" matches exactly the strings that start with `q`. */
  lemma {:induction false} LikePrefix(s: string, q: string)
    requires NoWildcards(q)
    ensures Like(s, q + "%") <==> q <= s
  {
    if q == [] {
      LikeAll(s);
      assert q + "%" == "%";
    } else {
      assert (q + "%")[1..] == q[1..] + "%";
      assert q[0] in q;
      if s != [] {
        LikePrefix(s[1..], q[1..]);
        assert q <= s <==> s[0] == q[0] && q[1..] <= s[1..];
      }
    }
  }

  /** A leading "%" lets the rest of the pattern match any suffix. */
  lemma {:induction false} LikeSuffix(s: string, r: string)
    ensures Like(s, "%" + r) <==> exists i :: 0 <= i <= |s| && Like(s[i..], r)
  {
    assert ("%" + r)[1..] == r;
    assert s[0..] == s;
    if s != [] {
      LikeSuffix(s[1..], r);
      if exists i :: 0 <= i <= |s| && Like(s[i..], r) {
        var i :| 0 <= i <= |s| && Like(s[i..], r);
        if i > 0 {
          assert s[1..][i - 1..] == s[i..];
        }
      }
      if exists j :: 0 <= j <= |s| - 1 && Like(s[1..][j..], r) {
        var j :| 0 <= j <= |s| - 1 && Like(s[1..][j..], r);
        assert s[1..][j..] == s[j + 1..];
      }
    }
  }

  /**
   * The pattern the store builds for a query, "%" + q + "%", is substring
   * search when the query has no wildcard characters.
   */
  lemma LikeContains(s: string, q: string)
    requires NoWildcards(q)
    ensures Like(s, "%" + q + "%") <==> Contains(s, q)
  {
    assert "%" + q + "%" == "%" + (q + "%");
    LikeSuffix(s, q + "%");
    forall i | 0 <= i <= |s|
      ensures Like(s[i..], q + "%") <==> q <= s[i..]
    {
      LikePrefix(s[i..], q);
    }
  }
}
