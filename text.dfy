/**
 * The JavaScript string operations the workspace relies on: `String.prototype.trim`,
 * the `length` of a string, and `replace(/\s+/g, '_')`.
 *
 * A Dafny `char` is a Unicode scalar value, while a JavaScript string is a sequence of
 * UTF-16 code units, so the length the form compares against is `Utf16Length`, not `|s|`.
 */
module Text {

  /** ECMAScript WhiteSpace and LineTerminator: the characters `trim()` strips and `\s` matches. */
  predicate IsSpace(c: char) {
    c == ' ' || ('\t' <= c <= '\r') || ('\U{00A0}' <= c && IsWideSpace(c))
  }

  /** The members of that set beyond ASCII. */
  predicate IsWideSpace(c: char) {
    || c == '\U{00A0}' || c == '\U{1680}' || ('\U{2000}' <= c <= '\U{200A}')
    || c == '\U{2028}' || c == '\U{2029}' || c == '\U{202F}' || c == '\U{205F}'
    || c == '\U{3000}' || c == '\U{FEFF}'
  }

  predicate AllSpace(s: string) {
    forall i :: 0 <= i < |s| ==> IsSpace(s[i])
  }

  predicate NoSpace(s: string) {
    forall i :: 0 <= i < |s| ==> !IsSpace(s[i])
  }

  /** Neither end of `s` is whitespace: what `trim()` leaves. */
  predicate IsTrimmed(s: string) {
    s == [] || (!IsSpace(s[0]) && !IsSpace(s[|s| - 1]))
  }

  /** Drops the leading whitespace run (TrimStartShape). */
  function TrimStart(s: string): (r: string)
    ensures |r| <= |s|
  {
    if s != [] && IsSpace(s[0]) then TrimStart(s[1..]) else s
  }

  /** Drops the trailing whitespace run (TrimEndShape). */
  function TrimEnd(s: string): (r: string)
    ensures |r| <= |s|
  {
    if s != [] && IsSpace(s[|s| - 1]) then TrimEnd(s[..|s| - 1]) else s
  }

  /** `s.trim()` (TrimShape, TrimUnique). */
  function Trim(s: string): string {
    TrimEnd(TrimStart(s))
  }

  /** TrimStart leaves the suffix of `s` after its leading whitespace run. */
  lemma {:induction false} TrimStartShape(s: string)
    ensures var r := TrimStart(s);
      && r == s[|s| - |r|..] && AllSpace(s[..|s| - |r|]) && (r == [] || !IsSpace(r[0]))
    decreases |s|
  {
    if s != [] && IsSpace(s[0]) {
      TrimStartShape(s[1..]);
      var r := TrimStart(s);
      assert s[1..][|s| - 1 - |r|..] == s[|s| - |r|..];
      assert forall i :: 1 <= i < |s| - |r| ==> s[i] == s[1..][..|s| - 1 - |r|][i - 1];
    }
  }

  /** TrimEnd leaves the prefix of `s` before its trailing whitespace run. */
  lemma {:induction false} TrimEndShape(s: string)
    ensures var r := TrimEnd(s);
      && r == s[..|r|] && AllSpace(s[|r|..]) && (r == [] || !IsSpace(r[|r| - 1]))
    decreases |s|
  {
    if s != [] && IsSpace(s[|s| - 1]) {
      var s' := s[..|s| - 1];
      TrimEndShape(s');
      var r := TrimEnd(s);
      assert s'[..|r|] == s[..|r|];
      assert forall i :: |r| <= i < |s| - 1 ==> s[i] == s'[|r|..][i - |r|];
    }
  }

  /**
   * `s.trim()` is the infix of `s` between a whitespace prefix and a whitespace suffix, and
   * neither of its ends is whitespace.
   */
  lemma TrimShape(s: string)
    ensures IsTrimmed(Trim(s))
    ensures exists i, j :: 0 <= i <= j <= |s| && Trim(s) == s[i..j] && AllSpace(s[..i]) && AllSpace(s[j..])
  {
    var t := TrimStart(s);
    TrimStartShape(s);
    TrimEndShape(t);
    var r := TrimEnd(t);
    var i, j := |s| - |t|, |s| - |t| + |r|;
    assert s[i..j] == t[..|r|];
    assert s[j..] == t[|r|..];
  }

  lemma {:induction false} TrimStartSkips(p: string, t: string)
    requires AllSpace(p)
    requires t == [] || !IsSpace(t[0])
    ensures TrimStart(p + t) == t
    decreases |p|
  {
    if p != [] {
      assert (p + t)[1..] == p[1..] + t;
      TrimStartSkips(p[1..], t);
    }
  }

  lemma {:induction false} TrimEndSkips(t: string, q: string)
    requires AllSpace(q)
    requires t == [] || !IsSpace(t[|t| - 1])
    ensures TrimEnd(t + q) == t
    decreases |q|
  {
    if q != [] {
      assert (t + q)[..|t + q| - 1] == t + q[..|q| - 1];
      TrimEndSkips(t, q[..|q| - 1]);
    }
  }

  /** Whatever whitespace surrounds a trimmed string, `trim()` gives back exactly that string. */
  lemma TrimUnique(p: string, m: string, q: string)
    requires AllSpace(p) && AllSpace(q) && IsTrimmed(m)
    ensures Trim(p + m + q) == m
  {
    if m == [] {
      assert p + m + q == p + q;
      TrimStartSkips(p + q, []);
      assert p + q + [] == p + q;
    } else {
      assert p + m + q == p + (m + q);
      TrimStartSkips(p, m + q);
      TrimEndSkips(m, q);
    }
  }

  /** A string with no whitespace at either end is left as it is. */
  lemma TrimmedIsFixed(s: string)
    requires IsTrimmed(s)
    ensures Trim(s) == s
  {
  }

  /** `trim()` is idempotent. */
  lemma TrimIdempotent(s: string)
    ensures Trim(Trim(s)) == Trim(s)
  {
    TrimShape(s);
    TrimmedIsFixed(Trim(s));
  }

  /** The number of UTF-16 code units of `s`, JavaScript's `s.length`. */
  function Utf16Length(s: string): (n: nat)
    ensures |s| <= n <= 2 * |s|
  {
    if s == [] then 0
    else (if s[0] as int >= 0x1_0000 then 2 else 1) + Utf16Length(s[1..])
  }

  /** The length of a concatenation is the sum of the lengths. */
  lemma {:induction false} Utf16LengthConcat(a: string, b: string)
    ensures Utf16Length(a + b) == Utf16Length(a) + Utf16Length(b)
    decreases |a|
  {
    if a == [] {
      assert a + b == b;
    } else {
      assert (a + b)[0] == a[0] && (a + b)[1..] == a[1..] + b;
      Utf16LengthConcat(a[1..], b);
    }
  }

  /** Dropping characters from the front never adds code units. */
  lemma {:induction false} Utf16LengthSuffix(s: string, i: nat)
    requires i <= |s|
    ensures Utf16Length(s[i..]) <= Utf16Length(s)
    decreases i
  {
    if i > 0 {
      assert s[i..] == s[1..][i - 1..];
      Utf16LengthSuffix(s[1..], i - 1);
    }
  }

  /** Dropping characters from the back never adds code units. */
  lemma {:induction false} Utf16LengthPrefix(s: string, j: nat)
    requires j <= |s|
    ensures Utf16Length(s[..j]) <= Utf16Length(s)
    decreases j
  {
    if j > 0 {
      assert s[..j][0] == s[0] && s[..j][1..] == s[1..][..j - 1];
      Utf16LengthPrefix(s[1..], j - 1);
    }
  }

  /** Trimming never makes a string longer, counted in UTF-16 code units. */
  lemma Utf16LengthTrim(s: string)
    ensures Utf16Length(Trim(s)) <= Utf16Length(s)
  {
    TrimShape(s);
    var i, j :| 0 <= i <= j <= |s| && Trim(s) == s[i..j];
    assert s[i..j] == s[..j][i..];
    Utf16LengthSuffix(s[..j], i);
    Utf16LengthPrefix(s, j);
  }

  /**
   * `s.replace(/\s+/g, '_')`: every maximal run of whitespace becomes a single `_`,
   * every other character is kept.
   */
  function Slug(s: string): string
    decreases |s|
  {
    if s == [] then []
    else if IsSpace(s[0]) then
      "_" + Slug(TrimStart(s))
    else [s[0]] + Slug(s[1..])
  }

  /** A slug holds no whitespace and is never longer than the text it came from. */
  lemma {:induction false} SlugShape(s: string)
    ensures NoSpace(Slug(s)) && |Slug(s)| <= |s|
    decreases |s|
  {
    if s == [] {
    } else if IsSpace(s[0]) {
      SlugShape(TrimStart(s));
    } else {
      SlugShape(s[1..]);
    }
  }

  /** A string without whitespace is its own slug. */
  lemma {:induction false} SlugWord(w: string)
    requires NoSpace(w)
    ensures Slug(w) == w
    decreases |w|
  {
    if w != [] {
      SlugWord(w[1..]);
      assert w == [w[0]] + w[1..];
    }
  }

  /** A non-empty whitespace run becomes exactly one `_`. */
  lemma SlugRun(sp: string)
    requires sp != [] && AllSpace(sp)
    ensures Slug(sp) == "_"
  {
    TrimStartSkips(sp, []);
    assert sp + [] == sp;
  }

  lemma {:induction false} TrimStartConcat(a: string, b: string)
    requires !AllSpace(a)
    ensures TrimStart(a + b) == TrimStart(a) + b
    decreases |a|
  {
    if IsSpace(a[0]) {
      assert (a + b)[1..] == a[1..] + b;
      assert !AllSpace(a[1..]) by {
        var k :| 0 <= k < |a| && !IsSpace(a[k]);
        assert a[1..][k - 1] == a[k];
      }
      TrimStartConcat(a[1..], b);
    }
  }

  /**
   * Slugs compose: two strings that do not meet inside one whitespace run slug
   * independently. With SlugWord and SlugRun this pins Slug down completely.
   */
  lemma {:induction false} SlugConcat(a: string, b: string)
    requires a == [] || b == [] || !IsSpace(a[|a| - 1]) || !IsSpace(b[0])
    ensures Slug(a + b) == Slug(a) + Slug(b)
    decreases |a|
  {
    if a == [] {
      assert a + b == b;
    } else if !IsSpace(a[0]) {
      SlugConcat(a[1..], b);
      SlugConcatChar(a, b);
    } else if AllSpace(a) {
      SlugConcatRun(a, b);
    } else {
      var t := TrimStart(a);
      TrimStartShape(a);
      assert t != [] && t[|t| - 1] == a[|a| - 1];
      SlugConcat(t, b);
      SlugConcatSpace(a, b);
    }
  }

  lemma SlugConcatSpace(a: string, b: string)
    requires a != [] && IsSpace(a[0]) && !AllSpace(a)
    requires Slug(TrimStart(a) + b) == Slug(TrimStart(a)) + Slug(b)
    ensures Slug(a + b) == Slug(a) + Slug(b)
  {
    TrimStartConcat(a, b);
    assert (a + b)[0] == a[0];
    SlugSpaceStep(a + b);
    SlugSpaceStep(a);
    Associative("_", Slug(TrimStart(a)), Slug(b));
  }

  /** Proof step for the slug lemmas: concatenation regrouped, stated once for three names. */
  lemma Associative(p: string, x: string, y: string)
    ensures p + (x + y) == (p + x) + y
  {
  }

  /** Proof step for the slug lemmas: one unfolding of Slug at a leading whitespace run. */
  lemma SlugSpaceStep(s: string)
    requires s != [] && IsSpace(s[0])
    ensures Slug(s) == "_" + Slug(TrimStart(s))
  {
  }

  lemma SlugConcatChar(a: string, b: string)
    requires a != [] && !IsSpace(a[0])
    requires Slug(a[1..] + b) == Slug(a[1..]) + Slug(b)
    ensures Slug(a + b) == Slug(a) + Slug(b)
  {
    assert (a + b)[0] == a[0] && (a + b)[1..] == a[1..] + b;
    Associative([a[0]], Slug(a[1..]), Slug(b));
  }

  lemma SlugConcatRun(a: string, b: string)
    requires a != [] && AllSpace(a)
    requires b == [] || !IsSpace(b[0])
    ensures Slug(a + b) == Slug(a) + Slug(b)
  {
    TrimStartSkips(a, b);
    SlugRun(a);
    assert (a + b)[0] == a[0];
  }
}
