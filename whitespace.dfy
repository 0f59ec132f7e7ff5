/** The normalisation applied to a string condition value in manual mode:
    `re.sub(r"[\r\n\t]+", " ", text).strip()`. */
module Whitespace {

  /** The characters of the regular-expression class `[\r\n\t]`. */
  predicate IsBreak(c: char) {
    c == '\r' || c == '\n' || c == '\t'
  }

  /** The characters Python's `str.strip()` removes (those `str.isspace()` accepts). */
  predicate IsSpace(c: char) {
    || c == ' ' || c == '\t' || c == '\n' || c == '\r' || c == '\U{0B}' || c == '\U{0C}'
    || ('\U{1C}' <= c <= '\U{1F}') || c == '\U{85}' || c == '\U{A0}' || c == '\U{1680}'
    || ('\U{2000}' <= c <= '\U{200A}') || c == '\U{2028}' || c == '\U{2029}'
    || c == '\U{202F}' || c == '\U{205F}' || c == '\U{3000}'
  }

  /** A run of carriage returns, newlines and tabs. */
  predicate AllBreaks(w: string) {
    forall i :: 0 <= i < |w| ==> IsBreak(w[i])
  }

  predicate NoBreaks(s: string) {
    forall i :: 0 <= i < |s| ==> !IsBreak(s[i])
  }

  /** No whitespace at either end. */
  predicate Trimmed(s: string) {
    s == [] || (!IsSpace(s[0]) && !IsSpace(s[|s| - 1]))
  }

  /** The characters of `s` that are not whitespace, in order. */
  function NonSpace(s: string): string {
    if s == [] then [] else (if IsSpace(s[0]) then [] else [s[0]]) + NonSpace(s[1..])
  }

  /** Drops the run of break characters at the front. */
  function DropBreaks(s: string): (r: string)
    ensures |r| <= |s|
  {
    if s != [] && IsBreak(s[0]) then DropBreaks(s[1..]) else s
  }

  /** Replaces every maximal run of break characters by one space. */
  function CollapseBreaks(s: string): string
    decreases |s|
  {
    if s == [] then []
    else if IsBreak(s[0]) then " " + CollapseBreaks(DropBreaks(s[1..]))
    else [s[0]] + CollapseBreaks(s[1..])
  }

  /** `lstrip()`: the longest suffix of `s` that does not start with whitespace. */
  function TrimStart(s: string): (r: string)
    ensures |r| <= |s| && r == s[|s| - |r|..]
    ensures r == [] || !IsSpace(r[0])
    ensures forall i :: 0 <= i < |s| - |r| ==> IsSpace(s[i])
  {
    if s != [] && IsSpace(s[0]) then TrimStart(s[1..]) else s
  }

  /** `rstrip()`: the longest prefix of `s` that does not end with whitespace. */
  function TrimEnd(s: string): (r: string)
    ensures |r| <= |s| && r == s[..|r|]
    ensures r == [] || !IsSpace(r[|r| - 1])
    ensures forall i :: |r| <= i < |s| ==> IsSpace(s[i])
  {
    if s != [] && IsSpace(s[|s| - 1]) then TrimEnd(s[..|s| - 1]) else s
  }

  /** The normalised condition value. */
  function Normalize(s: string): string {
    TrimEnd(TrimStart(CollapseBreaks(s)))
  }

  lemma {:induction false} CollapseHasNoBreaks(s: string)
    ensures NoBreaks(CollapseBreaks(s))
    decreases |s|
  {
    if s != [] {
      if IsBreak(s[0]) {
        CollapseHasNoBreaks(DropBreaks(s[1..]));
      } else {
        CollapseHasNoBreaks(s[1..]);
      }
    }
  }

  lemma {:induction false} CollapseFixesNoBreaks(s: string)
    requires NoBreaks(s)
    ensures CollapseBreaks(s) == s
    decreases |s|
  {
    if s != [] {
      assert NoBreaks(s[1..]);
      CollapseFixesNoBreaks(s[1..]);
    }
  }

  lemma {:induction false} NonSpaceConcat(a: string, b: string)
    ensures NonSpace(a + b) == NonSpace(a) + NonSpace(b)
    decreases |a|
  {
    if a != [] {
      assert (a + b)[1..] == a[1..] + b;
      NonSpaceConcat(a[1..], b);
    } else {
      assert a + b == b;
    }
  }

  lemma {:induction false} DropBreaksKeepsNonSpace(s: string)
    ensures NonSpace(DropBreaks(s)) == NonSpace(s)
    decreases |s|
  {
    if s != [] && IsBreak(s[0]) {
      DropBreaksKeepsNonSpace(s[1..]);
    }
  }

  lemma {:induction false} CollapseKeepsNonSpace(s: string)
    ensures NonSpace(CollapseBreaks(s)) == NonSpace(s)
    decreases |s|
  {
    if s != [] {
      if IsBreak(s[0]) {
        var rest := CollapseBreaks(DropBreaks(s[1..]));
        CollapseKeepsNonSpace(DropBreaks(s[1..]));
        DropBreaksKeepsNonSpace(s[1..]);
        NonSpaceConcat(" ", rest);
      } else {
        CollapseKeepsNonSpace(s[1..]);
        NonSpaceConcat([s[0]], CollapseBreaks(s[1..]));
      }
    }
  }

  lemma {:induction false} TrimStartKeepsNonSpace(s: string)
    ensures NonSpace(TrimStart(s)) == NonSpace(s)
    decreases |s|
  {
    if s != [] && IsSpace(s[0]) {
      TrimStartKeepsNonSpace(s[1..]);
    }
  }

  lemma {:induction false} TrimEndKeepsNonSpace(s: string)
    ensures NonSpace(TrimEnd(s)) == NonSpace(s)
    decreases |s|
  {
    if s != [] && IsSpace(s[|s| - 1]) {
      var init := s[..|s| - 1];
      TrimEndKeepsNonSpace(init);
      assert s == init + [s[|s| - 1]];
      NonSpaceConcat(init, [s[|s| - 1]]);
    }
  }

  /** A run of breaks in front of a text that does not start with one is dropped entirely. */
  lemma {:induction false} DropBreaksRun(w: string, y: string)
    requires AllBreaks(w)
    requires y == [] || !IsBreak(y[0])
    ensures DropBreaks(w + y) == y
    decreases |w|
  {
    if w == [] {
      assert w + y == y;
    } else {
      assert (w + y)[0] == w[0];
      assert (w + y)[1..] == w[1..] + y;
      DropBreaksRun(w[1..], y);
    }
  }

  /** Dropping the leading breaks of a text that ends in a non-break leaves a
      non-empty suffix with the same last character, and stops before `z`. */
  lemma {:induction false} DropBreaksConcat(u: string, z: string)
    requires u != [] && !IsBreak(u[|u| - 1])
    ensures DropBreaks(u + z) == DropBreaks(u) + z
    ensures DropBreaks(u) != [] && |DropBreaks(u)| <= |u|
    ensures DropBreaks(u)[|DropBreaks(u)| - 1] == u[|u| - 1]
    decreases |u|
  {
    assert (u + z)[0] == u[0];
    if IsBreak(u[0]) {
      assert |u| > 1;
      assert (u + z)[1..] == u[1..] + z;
      assert u[1..][|u| - 2] == u[|u| - 1];
      DropBreaksConcat(u[1..], z);
    }
  }

  /** Collapsing distributes over a cut after a non-break character. */
  lemma {:induction false} CollapseConcat(x: string, z: string)
    requires x == [] || !IsBreak(x[|x| - 1])
    ensures CollapseBreaks(x + z) == CollapseBreaks(x) + CollapseBreaks(z)
    decreases |x|
  {
    if x == [] {
      assert x + z == z;
    } else {
      var xz := x + z;
      assert xz[0] == x[0];
      assert xz[1..] == x[1..] + z;
      if IsBreak(x[0]) {
        var u := x[1..];
        assert u != [] && u[|u| - 1] == x[|x| - 1];
        DropBreaksConcat(u, z);
        CollapseConcat(DropBreaks(u), z);
      } else {
        if x[1..] != [] {
          assert x[1..][|x| - 2] == x[|x| - 1];
        }
        CollapseConcat(x[1..], z);
      }
    }
  }

  /** A run of breaks at the front becomes one space. */
  lemma CollapseLeadingRun(w: string, y: string)
    requires w != [] && AllBreaks(w)
    requires y == [] || !IsBreak(y[0])
    ensures CollapseBreaks(w + y) == " " + CollapseBreaks(y)
  {
    var wy := w + y;
    assert wy[0] == w[0] && IsBreak(wy[0]);
    assert wy[1..] == w[1..] + y;
    DropBreaksRun(w[1..], y);
  }

  /** A maximal run of carriage returns, newlines and tabs becomes exactly one space. */
  lemma CollapseRun(x: string, w: string, y: string)
    requires x == [] || !IsBreak(x[|x| - 1])
    requires w != [] && AllBreaks(w)
    requires y == [] || !IsBreak(y[0])
    ensures CollapseBreaks(x + w + y) == CollapseBreaks(x) + " " + CollapseBreaks(y)
  {
    assert x + w + y == x + (w + y);
    CollapseConcat(x, w + y);
    CollapseLeadingRun(w, y);
  }

  lemma TrimStartNoBreaks(c: string)
    requires NoBreaks(c)
    ensures NoBreaks(TrimStart(c))
  {
    var t := TrimStart(c);
    forall i | 0 <= i < |t| ensures !IsBreak(t[i]) {
      assert t[i] == c[|c| - |t| + i];
    }
  }

  lemma TrimEndNoBreaks(t: string)
    requires NoBreaks(t)
    ensures NoBreaks(TrimEnd(t))
  {
    var r := TrimEnd(t);
    forall i | 0 <= i < |r| ensures !IsBreak(r[i]) {
      assert r[i] == t[i];
    }
  }

  /** The normalised value has no carriage return, newline or tab, and no
      whitespace at either end. */
  lemma NormalizeShape(s: string)
    ensures NoBreaks(Normalize(s))
    ensures Trimmed(Normalize(s))
  {
    var c := CollapseBreaks(s);
    CollapseHasNoBreaks(s);
    var t := TrimStart(c);
    TrimStartNoBreaks(c);
    var r := TrimEnd(t);
    TrimEndNoBreaks(t);
    if r != [] {
      assert r[0] == t[0];
    }
  }

  /** Only whitespace changes: the other characters are kept, in order. */
  lemma NormalizeKeepsNonSpace(s: string)
    ensures NonSpace(Normalize(s)) == NonSpace(s)
  {
    CollapseKeepsNonSpace(s);
    TrimStartKeepsNonSpace(CollapseBreaks(s));
    TrimEndKeepsNonSpace(TrimStart(CollapseBreaks(s)));
  }

  /** A value that is already normalised is left as it is. */
  lemma NormalizeFixesNormal(s: string)
    requires NoBreaks(s) && Trimmed(s)
    ensures Normalize(s) == s
  {
    CollapseFixesNoBreaks(s);
  }

  /** Normalising twice is the same as normalising once. */
  lemma NormalizeIdempotent(s: string)
    ensures Normalize(Normalize(s)) == Normalize(s)
  {
    NormalizeShape(s);
    NormalizeFixesNormal(Normalize(s));
  }
}
