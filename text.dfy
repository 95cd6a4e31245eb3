/** String helpers with JavaScript's meaning: `toLowerCase`, `includes`, the first
    occurrence used by `replace`, the `\s` class of regular expressions and `trim`.
    Lower-casing is ASCII only (see README). */
module Text {
  import opened Common

  /** `c.toLowerCase()` for ASCII letters; every other character is kept. */
  function LowerChar(c: char): (d: char)
    ensures 'A' <= c <= 'Z' ==> d as int == c as int + 32
    ensures !('A' <= c <= 'Z') ==> d == c
  {
    if 'A' <= c <= 'Z' then (c as int + 32) as char else c
  }

  function ToLower(s: string): (r: string)
    ensures |r| == |s|
    ensures forall i :: 0 <= i < |s| ==> r[i] == LowerChar(s[i])
  {
    if s == [] then [] else [LowerChar(s[0])] + ToLower(s[1..])
  }

  lemma {:induction false} ToLowerIdempotent(s: string)
    ensures ToLower(ToLower(s)) == ToLower(s)
  {
    if s != [] {
      ToLowerIdempotent(s[1..]);
      assert ToLower(s)[1..] == ToLower(s[1..]);
    }
  }

  lemma ToLowerConcat(a: string, b: string)
    ensures ToLower(a + b) == ToLower(a) + ToLower(b)
  {
    assert forall i :: 0 <= i < |a + b| ==> ToLower(a + b)[i] == (ToLower(a) + ToLower(b))[i];
  }

  /** Strings that differ at some position even after lower-casing stay different. */
  lemma ToLowerDiffers(a: string, b: string, i: nat)
    requires i < |a| && i < |b| && LowerChar(a[i]) != LowerChar(b[i])
    ensures ToLower(a) != ToLower(b)
  {
    assert ToLower(a)[i] != ToLower(b)[i];
  }

  /** `s.length`: the number of UTF-16 code units, two for a character beyond U+FFFF. */
  function Utf16Length(s: string): (n: nat)
    ensures |s| <= n <= 2 * |s|
    decreases |s|
  {
    if s == [] then 0 else (if s[0] as int > 0xFFFF then 2 else 1) + Utf16Length(s[1..])
  }

  /** On text within the Basic Multilingual Plane, `length` counts characters. */
  lemma {:induction false} Utf16LengthBmp(s: string)
    requires forall i :: 0 <= i < |s| ==> s[i] as int <= 0xFFFF
    ensures Utf16Length(s) == |s|
    decreases |s|
  {
    if s != [] {
      assert forall i :: 0 <= i < |s[1..]| ==> s[1..][i] == s[i + 1];
      Utf16LengthBmp(s[1..]);
    }
  }

  /** One character beyond U+FFFF already has length 2. */
  lemma AstralCharLength(c: char)
    requires c as int > 0xFFFF
    ensures Utf16Length([c]) == 2
  {
    assert [c][1..] == [];
  }

  /** `pat` occurs in `s` starting at index `i`. */
  predicate OccursAt(s: string, pat: string, i: int) {
    0 <= i && i + |pat| <= |s| && s[i..i + |pat|] == pat
  }

  /** `s.indexOf(pat)`: the first index at which `pat` occurs. */
  function IndexOf(s: string, pat: string): (r: Option<nat>)
    ensures r.Some? ==> OccursAt(s, pat, r.value)
    ensures r.Some? ==> forall j :: 0 <= j < r.value ==> !OccursAt(s, pat, j)
    ensures r.None? ==> forall j :: !OccursAt(s, pat, j)
    decreases |s|
  {
    if |pat| > |s| then None
    else if s[..|pat|] == pat then Some(0)
    else
      var rest := IndexOf(s[1..], pat);
      ShiftOccurrence(s, pat);
      if rest.None? then None else Some(rest.value + 1)
  }

  /** An occurrence in `s` at `j >= 1` is an occurrence in `s[1..]` at `j - 1`. */
  lemma ShiftOccurrence(s: string, pat: string)
    requires s != []
    ensures forall j :: 1 <= j ==> (OccursAt(s, pat, j) <==> OccursAt(s[1..], pat, j - 1))
  {
    forall j | 1 <= j
      ensures OccursAt(s, pat, j) <==> OccursAt(s[1..], pat, j - 1)
    {
      if j + |pat| <= |s| {
        assert s[1..][j - 1..j - 1 + |pat|] == s[j..j + |pat|];
      }
    }
  }

  /** An occurrence before which no character starts the pattern is the first one. */
  lemma FirstOccurrence(s: string, pat: string, i: nat)
    requires pat != [] && OccursAt(s, pat, i)
    requires forall j :: 0 <= j < i ==> s[j] != pat[0]
    ensures IndexOf(s, pat) == Some(i)
  {
    forall j | 0 <= j < i
      ensures !OccursAt(s, pat, j)
    {
      if j + |pat| <= |s| {
        assert s[j..j + |pat|][0] == s[j];
      }
    }
  }

  /** `s.includes(pat)`. */
  predicate Includes(s: string, pat: string) {
    IndexOf(s, pat).Some?
  }

  lemma IncludesIff(s: string, pat: string)
    ensures Includes(s, pat) <==> exists i :: OccursAt(s, pat, i)
  {
  }

  /** A string none of whose characters is `c` does not include `[c]`. */
  lemma NotIncludesChar(s: string, c: char)
    requires forall k :: 0 <= k < |s| ==> s[k] != c
    ensures !Includes(s, [c])
  {
    forall j | 0 <= j && j + 1 <= |s|
      ensures !OccursAt(s, [c], j)
    {
      assert s[j..j + 1] == [s[j]];
    }
  }

  /** Each character of a string that does not include `[c]` differs from `c`. */
  lemma CharNotIncluded(s: string, c: char, j: int)
    requires !Includes(s, [c]) && 0 <= j < |s|
    ensures s[j] != c
  {
    assert s[j..j + 1] == [s[j]];
    assert OccursAt(s, [s[j]], j);
  }

  /** Every string includes the empty string. */
  lemma IncludesEmpty(s: string)
    ensures Includes(s, "")
  {
    assert OccursAt(s, "", 0);
  }

  /** A string includes itself. */
  lemma IncludesSelf(s: string)
    ensures Includes(s, s)
  {
    assert OccursAt(s, s, 0);
  }

  /** Case-insensitive containment, as `a.toLowerCase().includes(b.toLowerCase())`. */
  predicate IncludesIgnoringCase(s: string, pat: string) {
    Includes(ToLower(s), ToLower(pat))
  }

  /** Lower-casing both sides keeps every occurrence, so an exact match is also a
      case-insensitive one. */
  lemma IncludesLower(s: string, pat: string)
    requires Includes(s, pat)
    ensures IncludesIgnoringCase(s, pat)
  {
    var i := IndexOf(s, pat).value;
    var lowered := ToLower(s);
    forall k | 0 <= k < |pat|
      ensures lowered[i..i + |pat|][k] == ToLower(pat)[k]
    {
      assert lowered[i..i + |pat|][k] == lowered[i + k];
      assert s[i + k] == s[i..i + |pat|][k];
    }
    assert lowered[i..i + |pat|] == ToLower(pat);
    assert OccursAt(lowered, ToLower(pat), i);
    IncludesIff(ToLower(s), ToLower(pat));
  }

  /** A member of the `\s` class of JavaScript regular expressions (also what `trim` removes). */
  predicate IsWhitespace(c: char) {
    c == ' ' || c == '\t' || c == '\n' || c == '\r' || c == '\U{000B}' || c == '\U{000C}'
    || c == '\U{00A0}' || c == '\U{1680}' || ('\U{2000}' <= c <= '\U{200A}')
    || c == '\U{2028}' || c == '\U{2029}' || c == '\U{202F}' || c == '\U{205F}'
    || c == '\U{3000}' || c == '\U{FEFF}'
  }

  /** The end of the run of whitespace that starts at `i`. */
  function WhitespaceFrom(s: string, i: nat): (k: nat)
    requires i <= |s|
    ensures i <= k <= |s|
    ensures k < |s| ==> !IsWhitespace(s[k])
    ensures forall j :: i <= j < k ==> IsWhitespace(s[j])
    decreases |s| - i
  {
    if i < |s| && IsWhitespace(s[i]) then WhitespaceFrom(s, i + 1) else i
  }

  /** The start of the run of whitespace that ends at `i`. */
  function WhitespaceUntil(s: string, i: nat): (k: nat)
    requires i <= |s|
    ensures k <= i
    ensures k > 0 ==> !IsWhitespace(s[k - 1])
    ensures forall j :: k <= j < i ==> IsWhitespace(s[j])
  {
    if i > 0 && IsWhitespace(s[i - 1]) then WhitespaceUntil(s, i - 1) else i
  }

  function TrimStart(s: string): (r: string)
    ensures |r| <= |s| && r == s[|s| - |r|..]
    ensures r != [] ==> !IsWhitespace(r[0])
    ensures forall i :: 0 <= i < |s| - |r| ==> IsWhitespace(s[i])
  {
    s[WhitespaceFrom(s, 0)..]
  }

  function TrimEnd(s: string): (r: string)
    ensures |r| <= |s| && r == s[..|r|]
    ensures r != [] ==> !IsWhitespace(r[|r| - 1])
    ensures forall i :: |r| <= i < |s| ==> IsWhitespace(s[i])
  {
    s[..WhitespaceUntil(s, |s|)]
  }

  /** `s.trim()`. */
  function Trim(s: string): (r: string)
    ensures |r| <= |s|
    ensures r != [] ==> !IsWhitespace(r[0]) && !IsWhitespace(r[|r| - 1])
  {
    TrimEnd(TrimStart(s))
  }
}
