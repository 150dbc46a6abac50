/**
 * The handful of Python string operations the engine relies on:
 * `str.strip()`, ASCII `str.lower()`, `str.replace`, `str.startswith`,
 * `sep.join(...)` and `str(int)`.
 */
module Text {

  /** The characters Python's `str.isspace()` accepts, which `str.strip()` removes. */
  predicate IsSpace(c: char) {
    || c == ' '
    || ('\t' <= c <= '\r')
    || ('\U{1C}' <= c <= '\U{1F}')
    || c == '\U{85}' || c == '\U{A0}' || c == '\U{1680}'
    || ('\U{2000}' <= c <= '\U{200A}')
    || c == '\U{2028}' || c == '\U{2029}' || c == '\U{202F}' || c == '\U{205F}' || c == '\U{3000}'
  }

  predicate AllSpace(s: string) {
    forall i :: 0 <= i < |s| ==> IsSpace(s[i])
  }

  /** True when `s` neither starts nor ends with whitespace. */
  predicate Trimmed(s: string) {
    s == [] || (!IsSpace(s[0]) && !IsSpace(s[|s| - 1]))
  }

  /** `s.lstrip()`: drops leading whitespace. */
  function StripLeft(s: string): string
    decreases |s|
  {
    if s == [] || !IsSpace(s[0]) then s else StripLeft(s[1..])
  }

  /** `s.rstrip()`: drops trailing whitespace. */
  function StripRight(s: string): string
    decreases |s|
  {
    if s == [] || !IsSpace(s[|s| - 1]) then s else StripRight(s[..|s| - 1])
  }

  /** `s.strip()`; `StripSplit` and `StripOf` state what it computes. */
  function Strip(s: string): string {
    StripRight(StripLeft(s))
  }

  /** `lstrip` removes a whitespace prefix and stops at the first other character. */
  lemma {:induction false} StripLeftSplit(s: string) returns (a: string)
    ensures AllSpace(a) && s == a + StripLeft(s)
    ensures StripLeft(s) == [] || !IsSpace(StripLeft(s)[0])
    decreases |s|
  {
    if s == [] || !IsSpace(s[0]) {
      a := [];
    } else {
      var a' := StripLeftSplit(s[1..]);
      a := [s[0]] + a';
    }
  }

  /** `rstrip` removes a whitespace suffix and stops at the last other character. */
  lemma {:induction false} StripRightSplit(s: string) returns (b: string)
    ensures AllSpace(b) && s == StripRight(s) + b
    ensures StripRight(s) == [] || !IsSpace(StripRight(s)[|StripRight(s)| - 1])
    decreases |s|
  {
    if s == [] || !IsSpace(s[|s| - 1]) {
      b := [];
    } else {
      var b' := StripRightSplit(s[..|s| - 1]);
      b := b' + [s[|s| - 1]];
    }
  }

  lemma {:induction false} StripLeftOf(a: string, t: string)
    requires AllSpace(a)
    requires t == [] || !IsSpace(t[0])
    ensures StripLeft(a + t) == t
    decreases |a|
  {
    if a == [] {
      assert a + t == t;
    } else {
      assert (a + t)[1..] == a[1..] + t;
      StripLeftOf(a[1..], t);
    }
  }

  lemma {:induction false} StripRightOf(t: string, b: string)
    requires AllSpace(b)
    requires t == [] || !IsSpace(t[|t| - 1])
    ensures StripRight(t + b) == t
    decreases |b|
  {
    if b == [] {
      assert t + b == t;
    } else {
      assert (t + b)[..|t + b| - 1] == t + b[..|b| - 1];
      StripRightOf(t, b[..|b| - 1]);
    }
  }

  /** `strip` is characterised by its result: whatever trimmed core is
      surrounded only by whitespace is what `strip` returns. */
  lemma StripOf(a: string, m: string, b: string)
    requires AllSpace(a) && AllSpace(b) && Trimmed(m)
    ensures Strip(a + m + b) == m
  {
    if m == [] {
      assert a + m + b == (a + b) + [];
      AllSpaceConcat(a, b);
      StripLeftOf(a + b, []);
    } else {
      assert a + m + b == a + (m + b);
      StripLeftOf(a, m + b);
      StripRightOf(m, b);
    }
  }

  lemma AllSpaceConcat(x: string, y: string)
    requires AllSpace(x) && AllSpace(y)
    ensures AllSpace(x + y)
  {
  }

  /** Every string is its stripped core surrounded by whitespace. */
  lemma StripSplit(s: string) returns (a: string, b: string)
    ensures AllSpace(a) && AllSpace(b) && Trimmed(Strip(s))
    ensures s == a + Strip(s) + b
  {
    a := StripLeftSplit(s);
    var l := StripLeft(s);
    b := StripRightSplit(l);
    var m := StripRight(l);
    if m != [] {
      assert m[0] == l[0];
    }
  }

  /** Moving the padding into the neighbouring pieces of a concatenation. */
  lemma RegroupPadding(p: string, q: string, r: string, s: string, t: string)
    ensures p + (q + r + s) + t == (p + q) + r + (s + t)
  {
  }

  /** Surrounding whitespace never changes the result of `strip`. */
  lemma StripIgnoresPadding(w: string, s: string, w': string)
    requires AllSpace(w) && AllSpace(w')
    ensures Strip(w + s + w') == Strip(s)
  {
    var a, b := StripSplit(s);
    var m := Strip(s);
    AllSpaceConcat(w, a);
    AllSpaceConcat(b, w');
    calc {
      w + s + w';
      w + (a + m + b) + w';
      { RegroupPadding(w, a, m, b, w'); }
      (w + a) + m + (b + w');
    }
    StripOf(w + a, m, b + w');
  }

  /** Python's `str.lower()` restricted to ASCII letters. */
  function LowerChar(c: char): char {
    if 'A' <= c <= 'Z' then (c as int + 32) as char else c
  }

  function Lower(s: string): (r: string)
    ensures |r| == |s|
  {
    seq(|s|, i requires 0 <= i < |s| => LowerChar(s[i]))
  }

  /** Lower-casing and stripping commute, so `strip().lower()` and
      `lower().strip()` agree. */
  lemma LowerStripCommute(s: string)
    ensures Lower(Strip(s)) == Strip(Lower(s))
  {
    var a, b := StripSplit(s);
    var m := Strip(s);
    var la, lm, lb := Lower(a), Lower(m), Lower(b);
    assert Lower(s) == la + lm + lb by {
      LowerConcat3(a, m, b);
    }
    assert AllSpace(la) && AllSpace(lb) && Trimmed(lm) by {
      LowerKeepsSpace(a);
      LowerKeepsSpace(b);
      LowerKeepsSpace(m);
    }
    StripOf(la, lm, lb);
  }

  lemma LowerConcat3(a: string, m: string, b: string)
    ensures Lower(a + m + b) == Lower(a) + Lower(m) + Lower(b)
  {
  }

  /** Lower-casing neither creates nor removes whitespace. */
  lemma LowerKeepsSpace(s: string)
    ensures AllSpace(s) ==> AllSpace(Lower(s))
    ensures Trimmed(s) ==> Trimmed(Lower(s))
  {
    forall i | 0 <= i < |s|
      ensures IsSpace(Lower(s)[i]) == IsSpace(s[i])
    {
      LowerCharSpace(s[i]);
    }
  }

  lemma LowerCharSpace(c: char)
    ensures IsSpace(LowerChar(c)) == IsSpace(c)
  {
  }

  lemma LowerIdempotent(s: string)
    ensures Lower(Lower(s)) == Lower(s)
  {
  }

  /** `s.startswith(p)`. */
  predicate StartsWith(s: string, p: string) {
    |p| <= |s| && s[..|p|] == p
  }

  /** `s.replace(pat, rep)` for a non-empty `pat`: occurrences are found left
      to right and never overlap. */
  function Replace(s: string, pat: string, rep: string): string
    requires |pat| > 0
    decreases |s|
  {
    if |s| < |pat| then s
    else if s[..|pat|] == pat then rep + Replace(s[|pat|..], pat, rep)
    else [s[0]] + Replace(s[1..], pat, rep)
  }

  /** A pattern holding a character the text lacks is never found. */
  lemma {:induction false} ReplaceAbsent(s: string, pat: string, rep: string, c: char)
    requires |pat| > 0 && c in pat && c !in s
    ensures Replace(s, pat, rep) == s
    decreases |s|
  {
    if |s| < |pat| {
    } else {
      assert s[..|pat|] != pat;
      ReplaceAbsent(s[1..], pat, rep, c);
      assert [s[0]] + s[1..] == s;
    }
  }

  /** Replacing a single character distributes over concatenation. */
  lemma {:induction false} ReplaceCharConcat(x: string, y: string, c: char, rep: string)
    ensures Replace(x + y, [c], rep) == Replace(x, [c], rep) + Replace(y, [c], rep)
    decreases |x|
  {
    if x == [] {
      assert x + y == y;
    } else {
      assert (x + y)[..1] == x[..1];
      assert (x + y)[1..] == x[1..] + y;
      ReplaceCharConcat(x[1..], y, c, rep);
    }
  }

  /** `sep.join(xs)`. */
  function Join(xs: seq<string>, sep: string): string
    decreases |xs|
  {
    if |xs| == 0 then ""
    else if |xs| == 1 then xs[0]
    else xs[0] + sep + Join(xs[1..], sep)
  }

  /** Joining non-empty words gives the empty string only for the empty list. */
  lemma JoinEmpty(xs: seq<string>, sep: string)
    requires forall i :: 0 <= i < |xs| ==> xs[i] != ""
    ensures Join(xs, sep) == "" <==> xs == []
  {
    if |xs| >= 1 {
      assert |Join(xs, sep)| >= |xs[0]|;
    }
  }

  /** Every character of a join comes from a word or from the separator. */
  lemma {:induction false} JoinChars(xs: seq<string>, sep: string, ch: char)
    requires ch in Join(xs, sep)
    ensures ch in sep || exists i :: 0 <= i < |xs| && ch in xs[i]
    decreases |xs|
  {
    if |xs| > 1 && ch !in xs[0] && ch !in sep {
      assert ch in Join(xs[1..], sep);
      JoinChars(xs[1..], sep, ch);
      var i :| 0 <= i < |xs[1..]| && ch in xs[1..][i];
      assert ch in xs[i + 1];
    }
  }

  /** Re-separating a comma-joined list: `",".join(xs).replace(",", " / ")`
      is `" / ".join(xs)` when no word holds a comma. */
  lemma {:induction false} JoinReseparate(xs: seq<string>)
    requires forall i :: 0 <= i < |xs| ==> ',' !in xs[i]
    ensures Replace(Join(xs, ","), ",", " / ") == Join(xs, " / ")
    decreases |xs|
  {
    if |xs| == 0 {
    } else if |xs| == 1 {
      ReplaceAbsent(xs[0], ",", " / ", ',');
    } else {
      var rest := Join(xs[1..], ",");
      assert Join(xs, ",") == xs[0] + (",") + rest;
      ReplaceCharConcat(xs[0] + ",", rest, ',', " / ");
      ReplaceCharConcat(xs[0], ",", ',', " / ");
      ReplaceAbsent(xs[0], ",", " / ", ',');
      assert Replace(",", ",", " / ") == " / ";
      JoinReseparate(xs[1..]);
    }
  }

  predicate IsDigit(c: char) {
    '0' <= c <= '9'
  }

  /** Decimal digits of a natural number, most significant first, no leading zeros. */
  function NatString(n: nat): (r: string)
    ensures |r| >= 1
    ensures n >= 10 ==> |r| >= 2
    ensures forall k :: 0 <= k < |r| ==> IsDigit(r[k])
    decreases n
  {
    if n < 10 then ["0123456789"[n]]
    else NatString(n / 10) + ["0123456789"[n % 10]]
  }

  /** Python's `str(i)` for an `int`. */
  function IntString(i: int): (r: string)
    ensures |r| >= 1 && IsDigit(r[|r| - 1])
    ensures forall k :: 0 <= k < |r| ==> IsDigit(r[k]) || r[k] == '-'
  {
    if i < 0 then "-" + NatString(-i) else NatString(i)
  }

  /** The decimal text of an integer is `"1"` exactly for the integer one. */
  lemma IntStringIsOne(i: int)
    ensures IntString(i) == "1" <==> i == 1
  {
    if i < 0 {
      assert IntString(i)[0] == '-';
    } else if i >= 10 {
      assert |IntString(i)| >= 2;
    } else {
      assert IntString(i) == ["0123456789"[i]];
    }
  }

  /** Integer text is already stripped and lower-case. */
  lemma IntStringCanonical(i: int)
    ensures Strip(IntString(i)) == IntString(i)
    ensures Lower(IntString(i)) == IntString(i)
  {
    var s := IntString(i);
    assert Trimmed(s) by {
      assert IsDigit(s[0]) || s[0] == '-';
    }
    assert s == [] + s + [];
    StripOf([], s, []);
  }
}
