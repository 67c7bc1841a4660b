/** The Python string operations the search pipeline relies on:
    `str.lower()`, `str.strip()` and `str.split(",")[0]`. */
module Text {

  /** The characters for which Python's `str.isspace()` holds, which are
      the ones `str.strip()` with no argument removes: the C0 separators
      U+0009..U+000D and U+001C..U+001F, the space, NEXT LINE, NO-BREAK
      SPACE, OGHAM SPACE MARK, U+2000..U+200A, LINE and PARAGRAPH SEPARATOR,
      NARROW NO-BREAK SPACE, MEDIUM MATHEMATICAL SPACE and IDEOGRAPHIC SPACE. */
  const Whitespace: set<char> := {
    '\t', '\n', '\U{0B}', '\U{0C}', '\r', '\U{1C}', '\U{1D}', '\U{1E}', '\U{1F}', ' ',
    '\U{85}', '\U{A0}', '\U{1680}',
    '\U{2000}', '\U{2001}', '\U{2002}', '\U{2003}', '\U{2004}', '\U{2005}',
    '\U{2006}', '\U{2007}', '\U{2008}', '\U{2009}', '\U{200A}',
    '\U{2028}', '\U{2029}', '\U{202F}', '\U{205F}', '\U{3000}'
  }

  predicate IsSpace(c: char) {
    c in Whitespace
  }

  predicate IsUpperAscii(c: char) { 'A' <= c <= 'Z' }

  /** KELVIN SIGN, the one character outside ASCII whose lower case is an
      ASCII letter ('k'). */
  const KelvinSign: char := '\U{212A}'

  /** Lower-case folding of one character: the ASCII capitals and the
      Kelvin sign; every other character is kept. */
  function LowerChar(c: char): (r: char)
    ensures !IsUpperAscii(r)
    ensures IsUpperAscii(c) ==> 'a' <= r <= 'z' && r as int - 'a' as int == c as int - 'A' as int
    ensures c == KelvinSign ==> r == 'k'
    ensures !IsUpperAscii(c) && c != KelvinSign ==> r == c
    ensures IsSpace(r) <==> IsSpace(c)
  {
    if IsUpperAscii(c) then (c as int + 32) as char
    else if c == KelvinSign then 'k'
    else c
  }

  /** `s.lower()`: each capital replaced by its lower-case letter, everything
      else kept in place. */
  function Lower(s: string): (r: string)
    ensures |r| == |s|
    ensures forall i :: 0 <= i < |s| ==>
      && (IsUpperAscii(s[i]) ==> r[i] as int == s[i] as int + 32)
      && (s[i] == KelvinSign ==> r[i] == 'k')
      && (!IsUpperAscii(s[i]) && s[i] != KelvinSign ==> r[i] == s[i])
    ensures forall i :: 0 <= i < |s| ==> !IsUpperAscii(r[i])
  {
    seq(|s|, i requires 0 <= i < |s| => LowerChar(s[i]))
  }

  /** No whitespace at either end of `s`: what `strip()` returns. */
  predicate Stripped(s: string) {
    s == [] || (!IsSpace(s[0]) && !IsSpace(s[|s| - 1]))
  }

  /** `s[lo..hi]` is all whitespace. */
  predicate SpaceBetween(s: string, lo: int, hi: int) {
    0 <= lo <= hi <= |s| && forall i :: lo <= i < hi ==> IsSpace(s[i])
  }

  /** The scan `strip()` makes from the left: the first index at or after
      `i` that holds no whitespace, or `|s|`. */
  function SkipSpaceForward(s: string, i: nat): (k: nat)
    requires i <= |s|
    ensures i <= k <= |s| && SpaceBetween(s, i, k)
    ensures k == |s| || !IsSpace(s[k])
    decreases |s| - i
  {
    if i < |s| && IsSpace(s[i]) then SkipSpaceForward(s, i + 1) else i
  }

  /** The scan `strip()` makes from the right, never passing `lo`: the
      smallest `e` with only whitespace in `s[e..j]`. */
  function SkipSpaceBackward(s: string, lo: nat, j: nat): (e: nat)
    requires lo <= j <= |s|
    ensures lo <= e <= j && SpaceBetween(s, e, j)
    ensures e == lo || !IsSpace(s[e - 1])
    decreases j
  {
    if lo < j && IsSpace(s[j - 1]) then SkipSpaceBackward(s, lo, j - 1) else j
  }

  /** `r` is `s` with the `k` characters before it and the ones after it
      cut off, all of them whitespace. */
  predicate TrimmedAt(s: string, r: string, k: int) {
    0 <= k && k + |r| <= |s| && r == s[k..k + |r|]
    && SpaceBetween(s, 0, k) && SpaceBetween(s, k + |r|, |s|)
  }

  /** `s.strip()`: the text between the leading and the trailing whitespace. */
  function Strip(s: string): (r: string)
    ensures Stripped(r)
    ensures TrimmedAt(s, r, SkipSpaceForward(s, 0))
  {
    var i := SkipSpaceForward(s, 0);
    s[i..SkipSpaceBackward(s, i, |s|)]
  }

  /** The stripped form of a string is unique: `Strip` is the only cut of
      `s` that removes whitespace from the ends and leaves none at its edges. */
  lemma StripUnique(s: string, r: string, k: nat)
    requires TrimmedAt(s, r, k) && Stripped(r)
    ensures r == Strip(s)
  {
    var i := SkipSpaceForward(s, 0);
    var e := SkipSpaceBackward(s, i, |s|);
    if r == [] {
      assert SpaceBetween(s, 0, |s|);
      assert i == |s|;
    } else {
      var j := k + |r|;
      assert !IsSpace(s[k]) by { assert s[k] == r[0]; }
      assert !IsSpace(s[j - 1]) by { assert s[j - 1] == r[|r| - 1]; }
      assert i == k;
      assert e == j;
    }
  }

  /** The cut `s[k..e]` with whitespace only outside it and none at its
      edges is what `strip()` returns. */
  lemma StripAt(s: string, k: nat, e: nat)
    requires k <= e && SpaceBetween(s, 0, k) && SpaceBetween(s, e, |s|)
    requires k == e || (!IsSpace(s[k]) && !IsSpace(s[e - 1]))
    ensures Strip(s) == s[k..e]
  {
    var r := s[k..e];
    assert TrimmedAt(s, r, k);
    StripUnique(s, r, k);
  }

  /** Stripping twice is stripping once. */
  lemma StripIdempotent(s: string)
    ensures Strip(Strip(s)) == Strip(s)
  {
    var r := Strip(s);
    assert TrimmedAt(r, r, 0);
    StripUnique(r, r, 0);
  }

  /** Lower-casing twice is lower-casing once. */
  lemma LowerIdempotent(s: string)
    ensures Lower(Lower(s)) == Lower(s)
  {
  }

  /** Lower-casing a slice is slicing the lower-cased string. */
  lemma LowerSlice(s: string, i: nat, j: nat)
    requires i <= j <= |s|
    ensures Lower(s[i..j]) == Lower(s)[i..j]
  {
    var a, b := Lower(s[i..j]), Lower(s)[i..j];
    forall m | 0 <= m < j - i ensures a[m] == b[m] {
      assert s[i..j][m] == s[i + m];
    }
  }

  /** Lower-casing a trimmed cut gives a trimmed cut of the lower-cased string. */
  lemma LowerTrimmedAt(s: string, r: string, k: nat)
    requires TrimmedAt(s, r, k)
    ensures TrimmedAt(Lower(s), Lower(r), k)
  {
    var ls := Lower(s);
    LowerSlice(s, k, k + |r|);
    assert forall i :: 0 <= i < |s| ==> (IsSpace(ls[i]) <==> IsSpace(s[i]));
  }

  /** Lower-casing keeps a stripped string stripped. */
  lemma LowerStripped(r: string)
    requires Stripped(r)
    ensures Stripped(Lower(r))
  {
    if r != [] {
      assert LowerChar(r[0]) == Lower(r)[0];
      assert LowerChar(r[|r| - 1]) == Lower(r)[|r| - 1];
    }
  }

  /** Lower-casing does not move whitespace, so it commutes with stripping. */
  lemma LowerStripCommute(s: string)
    ensures Lower(Strip(s)) == Strip(Lower(s))
  {
    var r := Strip(s);
    var k := SkipSpaceForward(s, 0);
    LowerTrimmedAt(s, r, k);
    LowerStripped(r);
    StripUnique(Lower(s), Lower(r), k);
  }

  /** The query normalisation of the search box: `query.lower().strip()`. */
  function Normalize(query: string): (q: string)
    ensures Stripped(q)
    ensures forall i :: 0 <= i < |q| ==> !IsUpperAscii(q[i])
  {
    Strip(Lower(query))
  }

  /** Normalising a normalised query changes nothing. */
  lemma NormalizeIdempotent(query: string)
    ensures Normalize(Normalize(query)) == Normalize(query)
  {
    var q := Normalize(query);
    LowerStripCommute(Lower(query));
    LowerIdempotent(query);
    StripIdempotent(Lower(query));
  }

  /** `s.split(",")[0]`: everything before the first comma, or all of `s`
      when it has none. */
  function FirstField(s: string): (r: string)
    ensures |r| <= |s| && r == s[..|r|]
    ensures ',' !in r
    ensures |r| < |s| ==> s[|r|] == ','
  {
    if s == [] || s[0] == ',' then [] else [s[0]] + FirstField(s[1..])
  }
}
