/** The three Python `str` operations the assistant relies on: `strip()`,
    `lower()` and the substring test `needle in haystack`. Strings are
    sequences of Unicode scalar values. A Python `str` may also hold lone
    surrogates (from surrogate-escaped input, say), which a `char` cannot;
    such a code point is neither whitespace nor an ASCII letter, so it
    could change no decision made here. */
module Text {

  /** Python's `str.isspace` for a single character: the fixed set of code
      points CPython treats as whitespace, which `strip()` removes. */
  predicate IsSpace(c: char) {
    || ('\t' <= c <= '\r')
    || ('\U{1C}' <= c <= '\U{1F}')
    || c == ' '
    || c == '\U{85}'
    || c == '\U{A0}'
    || c == '\U{1680}'
    || ('\U{2000}' <= c <= '\U{200A}')
    || c == '\U{2028}'
    || c == '\U{2029}'
    || c == '\U{202F}'
    || c == '\U{205F}'
    || c == '\U{3000}'
  }

  predicate AllSpace(s: string) {
    forall i :: 0 <= i < |s| ==> IsSpace(s[i])
  }

  /** Neither begins nor ends with whitespace: a possible result of `strip()`. */
  predicate Trimmed(s: string) {
    s == [] || (!IsSpace(s[0]) && !IsSpace(s[|s| - 1]))
  }

  /** `s` is `r` with whitespace-only padding of length `a` in front and
      whitespace-only padding behind. */
  predicate PaddedAt(s: string, r: string, a: int) {
    && 0 <= a
    && a + |r| <= |s|
    && s[a..a + |r|] == r
    && AllSpace(s[..a])
    && AllSpace(s[a + |r|..])
  }

  /** `str.lstrip()`: drops leading whitespace. */
  function TrimStart(s: string): string {
    if s != [] && IsSpace(s[0]) then TrimStart(s[1..]) else s
  }

  /** `str.rstrip()`: drops trailing whitespace. */
  function TrimEnd(s: string): string {
    if s != [] && IsSpace(s[|s| - 1]) then TrimEnd(s[..|s| - 1]) else s
  }

  /** `lstrip()` returns the longest suffix that does not start with
      whitespace: only whitespace is cut off. */
  lemma {:induction false} TrimStartSpec(s: string)
    ensures |TrimStart(s)| <= |s|
    ensures TrimStart(s) == s[|s| - |TrimStart(s)|..]
    ensures AllSpace(s[..|s| - |TrimStart(s)|])
    ensures TrimStart(s) == [] || !IsSpace(TrimStart(s)[0])
  {
    if s != [] && IsSpace(s[0]) {
      TrimStartSpec(s[1..]);
      var n := |s| - |TrimStart(s)|;
      assert forall i :: 1 <= i < n ==> s[..n][i] == s[1..][..n - 1][i - 1];
    }
  }

  /** `rstrip()` returns the longest prefix that does not end with
      whitespace: only whitespace is cut off. */
  lemma {:induction false} TrimEndSpec(s: string)
    ensures |TrimEnd(s)| <= |s|
    ensures TrimEnd(s) == s[..|TrimEnd(s)|]
    ensures AllSpace(s[|TrimEnd(s)|..])
    ensures TrimEnd(s) == [] || !IsSpace(TrimEnd(s)[|TrimEnd(s)| - 1])
  {
    if s != [] && IsSpace(s[|s| - 1]) {
      var s' := s[..|s| - 1];
      TrimEndSpec(s');
      var m := |TrimEnd(s)|;
      assert forall i :: 0 <= i < |s| - 1 - m ==> s[m..][i] == s'[m..][i];
    }
  }

  /** `str.strip()` with no argument: whitespace removed at both ends. */
  function Strip(s: string): (r: string)
    ensures |r| <= |s|
    ensures Trimmed(r)
    ensures r == [] <==> AllSpace(s)
  {
    var t := TrimStart(s);
    TrimStartSpec(s);
    var r := TrimEnd(t);
    TrimEndSpec(t);
    assert r == [] ==> t == [];
    assert t == [] ==> s[..|s| - |t|] == s;
    r
  }

  /** What `strip()` returns is a slice of its input, and everything around
      that slice is whitespace. */
  lemma StripIsSlice(s: string)
    ensures exists a :: PaddedAt(s, Strip(s), a)
  {
    var t := TrimStart(s);
    TrimStartSpec(s);
    var r := TrimEnd(t);
    TrimEndSpec(t);
    var a := |s| - |t|;
    assert s[a..a + |r|] == r by {
      assert s[a..] == t;
      assert s[a..a + |r|] == t[..|r|];
    }
    assert s[a + |r|..] == t[|r|..];
    assert PaddedAt(s, r, a);
    assert Strip(s) == r;
  }

  /** Concatenating whitespace-only strings gives a whitespace-only string. */
  lemma AllSpaceConcat(a: string, b: string)
    requires AllSpace(a) && AllSpace(b)
    ensures AllSpace(a + b)
  {
    forall i | 0 <= i < |a + b| ensures IsSpace((a + b)[i]) {
      if i >= |a| { assert (a + b)[i] == b[i - |a|]; }
    }
  }

  /** Leading whitespace in front of a string does not survive `lstrip()`. */
  lemma {:induction false} TrimStartSkipsSpace(p: string, x: string)
    requires AllSpace(p)
    ensures TrimStart(p + x) == TrimStart(x)
  {
    if p != [] {
      assert (p + x)[1..] == p[1..] + x;
      TrimStartSkipsSpace(p[1..], x);
    } else {
      assert p + x == x;
    }
  }

  /** Trailing whitespace behind a string does not survive `rstrip()`. */
  lemma {:induction false} TrimEndSkipsSpace(x: string, q: string)
    requires AllSpace(q)
    ensures TrimEnd(x + q) == TrimEnd(x)
  {
    if q != [] {
      assert (x + q)[..|x + q| - 1] == x + q[..|q| - 1];
      TrimEndSkipsSpace(x, q[..|q| - 1]);
    } else {
      assert x + q == x;
    }
  }

  /** The result of `strip()` is determined by the padding: whatever
      whitespace surrounds a trimmed string, stripping returns exactly it. */
  lemma StripPadded(p: string, t: string, q: string)
    requires AllSpace(p) && AllSpace(q) && Trimmed(t)
    ensures Strip(p + t + q) == t
  {
    assert p + t + q == p + (t + q);
    TrimStartSkipsSpace(p, t + q);
    if t == [] {
      assert t + q == q + [];
      TrimStartSkipsSpace(q, []);
      assert TrimStart(p + t + q) == [];
    } else {
      assert (t + q)[0] == t[0];
      assert TrimStart(p + t + q) == t + q;
      TrimEndSkipsSpace(t, q);
      assert TrimEnd(t + q) == t;
    }
  }

  /** Once a string has something left after `lstrip()`, text appended
      behind it is kept unchanged. */
  lemma {:induction false} TrimStartAppend(s: string, q: string)
    requires TrimStart(s) != []
    ensures TrimStart(s + q) == TrimStart(s) + q
  {
    if IsSpace(s[0]) {
      assert (s + q)[1..] == s[1..] + q;
      TrimStartAppend(s[1..], q);
    }
  }

  /** Padding a string with extra whitespace does not change its `strip()`. */
  lemma StripIgnoresPadding(p: string, s: string, q: string)
    requires AllSpace(p) && AllSpace(q)
    ensures Strip(p + s + q) == Strip(s)
  {
    assert p + s + q == p + (s + q);
    TrimStartSkipsSpace(p, s + q);
    if TrimStart(s) != [] {
      TrimStartAppend(s, q);
      TrimEndSkipsSpace(TrimStart(s), q);
    } else {
      TrimStartSpec(s);
      assert s[..|s|] == s;
      AllSpaceConcat(s, q);
      TrimStartSkipsSpace(s + q, []);
      assert s + q + [] == s + q;
    }
  }

  /** A string without surrounding whitespace is its own stripped form. */
  lemma StripKeepsTrimmed(s: string)
    requires Trimmed(s)
    ensures Strip(s) == s
  {
    StripPadded([], s, []);
    assert [] + s + [] == s;
  }

  /** `strip()` is idempotent. */
  lemma StripIdempotent(s: string)
    ensures Strip(Strip(s)) == Strip(s)
  {
    StripKeepsTrimmed(Strip(s));
  }

  /** ASCII `str.lower()` for one character. */
  function LowerChar(c: char): (d: char)
    ensures 'A' <= c <= 'Z' ==> 'a' <= d <= 'z' && d as int - c as int == 32
    ensures !('A' <= c <= 'Z') ==> d == c
  {
    if 'A' <= c <= 'Z' then (c as int + 32) as char else c
  }

  /** `str.lower()`, restricted to the ASCII letters. */
  function Lower(s: string): (r: string)
    ensures |r| == |s|
    ensures forall i {:trigger r[i]} :: 0 <= i < |s| ==> r[i] == LowerChar(s[i])
  {
    seq(|s|, i requires 0 <= i < |s| => LowerChar(s[i]))
  }

  /** Lower-casing twice is lower-casing once. */
  lemma LowerIdempotent(s: string)
    ensures Lower(Lower(s)) == Lower(s)
  {
  }

  /** Text without ASCII upper-case letters is its own lower-cased form. */
  lemma LowerFixesLowerCase(s: string)
    requires forall i :: 0 <= i < |s| ==> !('A' <= s[i] <= 'Z')
    ensures Lower(s) == s
  {
  }

  /** Lower-casing neither creates nor removes whitespace, so a line is
      blank exactly when its lower-cased form is. */
  lemma LowerKeepsBlank(s: string)
    ensures AllSpace(Lower(s)) <==> AllSpace(s)
  {
    assert forall i :: 0 <= i < |s| ==> (IsSpace(Lower(s)[i]) <==> IsSpace(s[i]));
  }

  /** Lower-casing works character by character, so it distributes over
      concatenation. */
  lemma LowerConcat(a: string, b: string)
    ensures Lower(a + b) == Lower(a) + Lower(b)
  {
  }

  /** Stripping and lower-casing commute: lower-casing never turns a
      character into whitespace or whitespace into something else. */
  lemma LowerStripCommute(s: string)
    ensures Lower(Strip(s)) == Strip(Lower(s))
  {
    StripIsSlice(s);
    var r := Strip(s);
    var a :| PaddedAt(s, r, a);
    var p, q := s[..a], s[a + |r|..];
    assert s == p + r + q;
    LowerConcat(p + r, q);
    LowerConcat(p, r);
    LowerKeepsBlank(p);
    LowerKeepsBlank(q);
    assert Trimmed(Lower(r)) by {
      if r != [] {
        assert Lower(r)[0] == LowerChar(r[0]);
        assert Lower(r)[|r| - 1] == LowerChar(r[|r| - 1]);
      }
    }
    StripPadded(Lower(p), Lower(r), Lower(q));
  }

  /** `needle` occurs in `hay` starting at index `i`. */
  predicate OccursAt(needle: string, hay: string, i: int) {
    0 <= i && i + |needle| <= |hay| && hay[i..i + |needle|] == needle
  }

  /** Scans `hay` from index `i` for an occurrence of `needle`. */
  function ContainsFrom(needle: string, hay: string, i: nat): (b: bool)
    ensures b <==> exists j :: i <= j && OccursAt(needle, hay, j)
    decreases |hay| - i
  {
    if i + |needle| > |hay| then false
    else if hay[i..i + |needle|] == needle then assert OccursAt(needle, hay, i); true
    else ContainsFrom(needle, hay, i + 1)
  }

  /** Python's `needle in hay` for strings. */
  function Contains(needle: string, hay: string): (b: bool)
    ensures b <==> exists i :: OccursAt(needle, hay, i)
  {
    ContainsFrom(needle, hay, 0)
  }

  /** No character of `s` is one of `cs`. */
  predicate Avoids(s: string, cs: string) {
    forall i :: 0 <= i < |s| ==> s[i] !in cs
  }

  /** A concatenation avoids what both of its parts avoid. */
  lemma AvoidsConcat(a: string, b: string, cs: string)
    requires Avoids(a, cs) && Avoids(b, cs)
    ensures Avoids(a + b, cs)
  {
    forall i | 0 <= i < |a + b| ensures (a + b)[i] !in cs {
      if i >= |a| { assert (a + b)[i] == b[i - |a|]; }
    }
  }

  /** A needle holding a character the haystack avoids cannot occur in it. */
  lemma AvoidedCharExcludes(needle: string, hay: string, cs: string, c: char)
    requires Avoids(hay, cs) && c in cs && c in needle
    ensures !Contains(needle, hay)
  {
  }

  /** Only whitespace occurs in whitespace. */
  lemma BlankHoldsOnlyBlank(needle: string, hay: string)
    requires AllSpace(hay) && Contains(needle, hay)
    ensures AllSpace(needle)
  {
    var i :| OccursAt(needle, hay, i);
    forall k | 0 <= k < |needle| ensures IsSpace(needle[k]) {
      assert needle[k] == hay[i + k];
    }
  }

  /** If `s` avoids every character of `lows` in both ASCII cases, then
      `Lower(s)` avoids `lows`. */
  lemma LowerAvoids(s: string, lows: string, both: string)
    requires forall c :: c in lows ==> c in both
    requires forall c :: c in lows && 'a' <= c <= 'z' ==> (c as int - 32) as char in both
    requires Avoids(s, both)
    ensures Avoids(Lower(s), lows)
  {
    forall i | 0 <= i < |s| ensures Lower(s)[i] !in lows {
      var c := s[i];
      assert c !in both;
      if 'A' <= c <= 'Z' {
        assert (LowerChar(c) as int - 32) as char == c;
      }
    }
  }

  /** `needle` occurs in `Lower(s)` at index `i` when the characters of `s`
      there lower-case to it. */
  lemma LowerContains(needle: string, s: string, i: int)
    requires 0 <= i && i + |needle| <= |s|
    requires forall k :: 0 <= k < |needle| ==> LowerChar(s[i + k]) == needle[k]
    ensures Contains(needle, Lower(s))
  {
    assert Lower(s)[i..i + |needle|] == needle;
    assert OccursAt(needle, Lower(s), i);
  }
}
