/** The SQL LIKE match the text filters compile to, and what the three pattern
    shapes the compiler builds (`%v%`, `v%`, `%v`) mean when `v` is literal. */
module LikePattern {

  /** PostgreSQL LIKE: `%` matches any run of characters, `_` any one character,
      and a backslash makes the next character literal. A pattern ending in a
      lone backslash matches nothing here (the database rejects it). */
  predicate Matches(t: string, p: string)
    decreases |p|, |t|
  {
    if p == [] then t == []
    else if p[0] == '%' then Matches(t, p[1..]) || (t != [] && Matches(t[1..], p))
    else if p[0] == '_' then t != [] && Matches(t[1..], p[1..])
    else if p[0] == '\\' then |p| > 1 && t != [] && t[0] == p[1] && Matches(t[1..], p[2..])
    else t != [] && t[0] == p[0] && Matches(t[1..], p[1..])
  }

  /** A value with no wildcard or escape character stands for itself in a pattern. */
  predicate Literal(v: string) {
    forall i :: 0 <= i < |v| ==> v[i] != '%' && v[i] != '_' && v[i] != '\\'
  }

  predicate IsPrefix(v: string, t: string) {
    |v| <= |t| && t[..|v|] == v
  }

  predicate IsSuffix(v: string, t: string) {
    |v| <= |t| && t[|t| - |v|..] == v
  }

  /** `v` occurs somewhere in `t`. */
  predicate IsSubstring(v: string, t: string) {
    exists k :: 0 <= k <= |t| && IsPrefix(v, t[k..])
  }

  lemma {:induction false} PercentMatchesAll(t: string)
    ensures Matches(t, "%")
    decreases |t|
  {
    assert "%"[1..] == [];
    if t != [] {
      PercentMatchesAll(t[1..]);
    }
  }

  lemma {:induction false} LiteralMatchesItself(t: string, v: string)
    requires Literal(v)
    ensures Matches(t, v) <==> t == v
    decreases |v|
  {
    if v != [] {
      assert Literal(v[1..]);
      if t != [] {
        LiteralMatchesItself(t[1..], v[1..]);
        assert t == v <==> t[0] == v[0] && t[1..] == v[1..];
      }
    }
  }

  /** `v%` matches exactly the texts that start with `v`. */
  lemma {:induction false} LiteralThenPercent(t: string, v: string)
    requires Literal(v)
    ensures Matches(t, v + "%") <==> IsPrefix(v, t)
    decreases |v|
  {
    if v == [] {
      assert v + "%" == "%";
      PercentMatchesAll(t);
    } else {
      var p := v + "%";
      assert p[0] == v[0] && p[1..] == v[1..] + "%";
      assert Literal(v[1..]);
      if t != [] {
        LiteralThenPercent(t[1..], v[1..]);
        assert IsPrefix(v, t) <==> t[0] == v[0] && IsPrefix(v[1..], t[1..]) by {
          if |v| <= |t| {
            assert t[..|v|] == [t[0]] + t[1..][..|v| - 1];
            assert v == [v[0]] + v[1..];
          }
        }
      }
    }
  }

  /** A leading `%` tries the rest of the pattern at every suffix of the text. */
  lemma {:induction false} PercentThen(t: string, q: string)
    ensures Matches(t, "%" + q) <==> exists k :: 0 <= k <= |t| && Matches(t[k..], q)
    decreases |t|
  {
    var p := "%" + q;
    assert p[0] == '%' && p[1..] == q;
    assert t[0..] == t;
    if t != [] {
      PercentThen(t[1..], q);
      forall k | 0 <= k <= |t| - 1 ensures t[1..][k..] == t[k + 1..] { }
      if Matches(t[1..], p) {
        var k :| 0 <= k <= |t[1..]| && Matches(t[1..][k..], q);
        assert t[k + 1..] == t[1..][k..];
      }
      if k :| 0 <= k <= |t| && Matches(t[k..], q) {
        if k > 0 {
          assert t[1..][k - 1..] == t[k..];
        }
      }
    }
  }

  /** `%v%` matches exactly the texts that contain `v`. */
  lemma ContainsPattern(t: string, v: string)
    requires Literal(v)
    ensures Matches(t, "%" + v + "%") <==> IsSubstring(v, t)
  {
    assert "%" + v + "%" == "%" + (v + "%");
    PercentThen(t, v + "%");
    forall k | 0 <= k <= |t|
      ensures Matches(t[k..], v + "%") <==> IsPrefix(v, t[k..])
    {
      LiteralThenPercent(t[k..], v);
    }
  }

  /** `v%` matches exactly the texts that start with `v`. */
  lemma PrefixPattern(t: string, v: string)
    requires Literal(v)
    ensures Matches(t, v + "%") <==> IsPrefix(v, t)
  {
    LiteralThenPercent(t, v);
  }

  /** `%v` matches exactly the texts that end with `v`. */
  lemma SuffixPattern(t: string, v: string)
    requires Literal(v)
    ensures Matches(t, "%" + v) <==> IsSuffix(v, t)
  {
    PercentThen(t, v);
    forall k | 0 <= k <= |t|
      ensures Matches(t[k..], v) <==> t[k..] == v
    {
      LiteralMatchesItself(t[k..], v);
    }
    if IsSuffix(v, t) {
      assert t[|t| - |v|..] == v;
    }
  }
}
