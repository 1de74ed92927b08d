/**
 * Kotlin's `String.trim()`, which the equal-button handler applies to the
 * entered text before it tests for emptiness and parses it.
 *
 * `trim()` removes every leading and every trailing character for which
 * `Char.isWhitespace()` holds.  The module defines that character class, the
 * trimming function, a characterisation of its result, and the consequences
 * the calculator relies on: the trimmed text is empty exactly when the input is
 * blank, trimming twice changes nothing, and surrounding whitespace is ignored.
 */
module KotlinText {

  /** Kotlin/JVM's Char.isWhitespace: the tab, line feed, vertical tab, form
      feed and carriage return controls, the information separators
      U+001C..U+001F, and every character of Unicode category Zs, Zl or Zp as
      Unicode 6.3 and later assign them (U+180E, the Mongolian vowel separator,
      is no longer in Zs).  No character the digit and decimal-point buttons
      enter is whitespace, so trimming never cuts into a typed number. */
  predicate IsWhitespace(c: char)
    ensures IsWhitespace(c) ==> !('0' <= c <= '9') && c != '.'
    ensures c as int == 0x180E ==> !IsWhitespace(c)
    ensures c == ' ' || c == '\t' || c == '\n' || c == '\r' ==> IsWhitespace(c)
  {
    var n := c as int;
    (0x09 <= n <= 0x0D) || (0x1C <= n <= 0x20) || n == 0xA0 || n == 0x1680
    || (0x2000 <= n <= 0x200A) || n == 0x2028 || n == 0x2029 || n == 0x202F
    || n == 0x205F || n == 0x3000
  }

  /** Every character of `s` is whitespace (this includes the empty text). */
  predicate Blank(s: string) {
    forall i :: 0 <= i < |s| ==> IsWhitespace(s[i])
  }

  /** A concatenation is blank exactly when both of its parts are. */
  lemma BlankAppend(a: string, b: string)
    ensures Blank(a + b) <==> Blank(a) && Blank(b)
  {
    assert forall i :: 0 <= i < |a| ==> (a + b)[i] == a[i];
    assert forall i :: 0 <= i < |b| ==> (a + b)[|a| + i] == b[i];
  }

  /** A slice is blank exactly when the characters it covers are whitespace. */
  lemma BlankSlice(s: string, lo: nat, hi: nat)
    requires lo <= hi <= |s|
    ensures Blank(s[lo..hi]) <==> forall k :: lo <= k < hi ==> IsWhitespace(s[k])
  {
    assert forall k :: lo <= k < hi ==> s[lo..hi][k - lo] == s[k];
  }

  /** The number of whitespace characters `s` starts with. */
  function LeadingBlanks(s: string): (n: nat)
    ensures n <= |s|
    ensures Blank(s[..n])
    ensures n < |s| ==> !IsWhitespace(s[n])
  {
    if |s| > 0 && IsWhitespace(s[0]) then 1 + LeadingBlanks(s[1..]) else 0
  }

  /** The number of whitespace characters `s` ends with. */
  function TrailingBlanks(s: string): (n: nat)
    ensures n <= |s|
    ensures Blank(s[|s| - n..])
    ensures n < |s| ==> !IsWhitespace(s[|s| - 1 - n])
  {
    if |s| > 0 && IsWhitespace(s[|s| - 1]) then 1 + TrailingBlanks(s[..|s| - 1]) else 0
  }

  /** `r` is `s` with its leading and trailing whitespace cut off: a slice of
      `s` that begins and ends with a non-whitespace character (or is empty),
      everything outside of which is whitespace. */
  ghost predicate IsTrimOf(r: string, s: string) {
    && (r == [] || (!IsWhitespace(r[0]) && !IsWhitespace(r[|r| - 1])))
    && exists i :: 0 <= i <= |s| - |r| && IsSliceAt(r, s, i)
  }

  /** `r` occurs in `s` at offset `i`, with only whitespace before and after it. */
  ghost predicate IsSliceAt(r: string, s: string, i: nat)
    requires i <= |s| - |r|
  {
    r == s[i..i + |r|] && Blank(s[..i]) && Blank(s[i + |r|..])
  }

  /** Kotlin's String.trim(). */
  function Trim(s: string): (r: string)
    ensures |r| <= |s|
    ensures r == [] <==> Blank(s)
    ensures r != [] ==> !IsWhitespace(r[0]) && !IsWhitespace(r[|r| - 1])
  {
    var t := s[LeadingBlanks(s)..];
    var r := t[..|t| - TrailingBlanks(t)];
    assert s == s[..LeadingBlanks(s)] + t;
    BlankAppend(s[..LeadingBlanks(s)], t);
    assert r == [] ==> t == t[|t| - TrailingBlanks(t)..];
    r
  }

  /** The result of Trim is the trim of its input in the sense of IsTrimOf. */
  lemma TrimIsTrimOf(s: string)
    ensures IsTrimOf(Trim(s), s)
  {
    var r := Trim(s);
    var i := LeadingBlanks(s);
    var t := s[i..];
    var n := TrailingBlanks(t);
    assert r == t[..|t| - n];
    assert r == s[i..i + |r|];
    assert s[i + |r|..] == t[|t| - n..];
    assert IsSliceAt(r, s, i);
  }

  /** Whitespace before a prefix of non-whitespace is counted exactly. */
  lemma LeadingBlanksAt(s: string, i: nat)
    requires i < |s| && Blank(s[..i]) && !IsWhitespace(s[i])
    ensures LeadingBlanks(s) == i
  {
    var n := LeadingBlanks(s);
    BlankSlice(s, 0, n);
    BlankSlice(s, 0, i);
  }

  /** Whitespace after a suffix of non-whitespace is counted exactly. */
  lemma TrailingBlanksAt(s: string, j: nat)
    requires j < |s| && Blank(s[|s| - j..]) && !IsWhitespace(s[|s| - 1 - j])
    ensures TrailingBlanks(s) == j
  {
    var n := TrailingBlanks(s);
    BlankSlice(s, |s| - n, |s|);
    BlankSlice(s, |s| - j, |s|);
  }

  /** A non-empty slice with non-whitespace ends and only whitespace around
      it is what Trim returns. */
  lemma TrimAtSlice(r: string, s: string, i: nat)
    requires r != [] && !IsWhitespace(r[0]) && !IsWhitespace(r[|r| - 1])
    requires i <= |s| - |r| && IsSliceAt(r, s, i)
    ensures Trim(s) == r
  {
    assert s[i] == r[0];
    LeadingBlanksAt(s, i);
    var t := s[i..];
    var j := |t| - |r|;
    assert t[|t| - j..] == s[i + |r|..];
    assert t[|t| - 1 - j] == r[|r| - 1];
    TrailingBlanksAt(t, j);
    assert t[..|t| - j] == r;
  }

  /** IsTrimOf determines its first argument: whatever meets it is Trim's result. */
  lemma TrimUnique(r: string, s: string)
    requires IsTrimOf(r, s)
    ensures r == Trim(s)
  {
    var i :| 0 <= i <= |s| - |r| && IsSliceAt(r, s, i);
    if r == [] {
      assert s == s[..i] + s[i + |r|..];
      BlankAppend(s[..i], s[i + |r|..]);
    } else {
      TrimAtSlice(r, s, i);
    }
  }

  /** Trimming is idempotent. */
  lemma TrimIdempotent(s: string)
    ensures Trim(Trim(s)) == Trim(s)
  {
    var r := Trim(s);
    assert r[0..0 + |r|] == r;
    assert IsSliceAt(r, r, 0);
    TrimUnique(r, r);
  }

  /** Padding both sides of `s` with whitespace keeps a blank-surrounded
      slice blank-surrounded, shifted by the length of the left padding. */
  lemma SliceInPadding(r: string, s: string, i: nat, before: string, after: string)
    requires i <= |s| - |r| && IsSliceAt(r, s, i)
    requires Blank(before) && Blank(after)
    ensures IsSliceAt(r, before + s + after, |before| + i)
  {
    var padded := before + s + after;
    var k := |before| + i;
    assert padded[k..k + |r|] == s[i..i + |r|];
    assert padded[..k] == before + s[..i];
    assert padded[k + |r|..] == s[i + |r|..] + after;
    BlankAppend(before, s[..i]);
    BlankAppend(s[i + |r|..], after);
  }

  /** Whitespace around the text does not change what trim() returns. */
  lemma TrimIgnoresPadding(before: string, s: string, after: string)
    requires Blank(before) && Blank(after)
    ensures Trim(before + s + after) == Trim(s)
  {
    var r := Trim(s);
    TrimIsTrimOf(s);
    var i :| 0 <= i <= |s| - |r| && IsSliceAt(r, s, i);
    SliceInPadding(r, s, i, before, after);
    TrimUnique(r, before + s + after);
  }
}
