/**
 * PostgreSQL's `LIKE` operator: `%` stands for any run of characters, `_`
 * for exactly one, and a backslash makes the next pattern character literal.
 */
module SqlLike {
  import opened Text

  /** `s LIKE p`. A pattern ending in a lone backslash matches nothing here (PostgreSQL rejects it). */
  predicate Like(s: string, p: string)
    decreases |s| + |p|, |p|
  {
    if |p| == 0 then |s| == 0
    else if p[0] == '%' then Like(s, p[1..]) || (|s| > 0 && Like(s[1..], p))
    else if p[0] == '_' then |s| > 0 && Like(s[1..], p[1..])
    else if p[0] == '\\' then |p| >= 2 && |s| > 0 && s[0] == p[1] && Like(s[1..], p[2..])
    else |s| > 0 && s[0] == p[0] && Like(s[1..], p[1..])
  }

  /** `q` has no character that `LIKE` treats specially. */
  predicate Plain(q: string) {
    forall i :: 0 <= i < |q| ==> q[i] != '%' && q[i] != '_' && q[i] != '\\'
  }

  /** The pattern `%` matches every string. */
  lemma {:induction false} PercentMatchesAll(s: string)
    ensures Like(s, "%")
    decreases |s|
  {
    if |s| > 0 {
      PercentMatchesAll(s[1..]);
    }
  }

  /** A leading `%` lets the rest of the pattern match any suffix. */
  lemma {:induction false} LeadingPercent(s: string, r: string)
    ensures Like(s, "%" + r) <==> exists i | 0 <= i <= |s| :: Like(s[i..], r)
    decreases |s|
  {
    assert ("%" + r)[1..] == r;
    assert s[0..] == s;
    if |s| > 0 {
      LeadingPercent(s[1..], r);
      forall i | 1 <= i <= |s| ensures s[i..] == s[1..][i - 1..] { }
      if Like(s, "%" + r) && !Like(s, r) {
        var j :| 0 <= j <= |s[1..]| && Like(s[1..][j..], r);
        assert s[j + 1..] == s[1..][j..];
      }
      if i :| 1 <= i <= |s| && Like(s[i..], r) {
        assert Like(s[1..][i - 1..], r);
      }
    }
  }

  /** For plain text `q`, the pattern `q%` is the prefix test. */
  lemma {:induction false} PlainThenPercent(t: string, q: string)
    requires Plain(q)
    ensures Like(t, q + "%") <==> StartsWith(t, q)
    decreases |q|
  {
    if |q| == 0 {
      assert q + "%" == "%";
      PercentMatchesAll(t);
    } else {
      assert (q + "%")[1..] == q[1..] + "%";
      if |t| > 0 {
        PlainThenPercent(t[1..], q[1..]);
        if StartsWith(t, q) {
          assert t[1..][..|q| - 1] == t[..|q|][1..];
        }
        if StartsWith(t[1..], q[1..]) && t[0] == q[0] {
          assert t[..|q|] == [t[0]] + t[1..][..|q| - 1];
        }
      }
    }
  }

  /** The pattern `%q%` built from plain text `q` is exactly the substring test. */
  lemma ContainsPattern(s: string, q: string)
    requires Plain(q)
    ensures Like(s, "%" + q + "%") <==> IsSubstring(q, s)
  {
    assert "%" + q + "%" == "%" + (q + "%");
    LeadingPercent(s, q + "%");
    forall i | 0 <= i <= |s|
      ensures Like(s[i..], q + "%") <==> OccursAt(q, s, i)
    {
      PlainThenPercent(s[i..], q);
      if |q| <= |s| - i {
        assert s[i..][..|q|] == s[i..i + |q|];
      }
    }
    if IsSubstring(q, s) {
      var i :| 0 <= i <= |s| - |q| && OccursAt(q, s, i);
      assert Like(s[i..], q + "%");
    }
  }

  /** Search text made only of `%` matches every value: `%` in the text is not escaped. */
  lemma WildcardSearchMatchesAll(s: string)
    ensures Like(s, "%" + "%" + "%")
  {
    assert ("%" + "%" + "%")[1..] == "%%";
    assert "%%"[1..] == "%";
    PercentMatchesAll(s);
  }
}
