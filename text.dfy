/**
 * Character classes and string operations the scraper relies on:
 * the regular-expression class `\d`, `str.isspace`, `str.strip`,
 * `str.lower` and the `in` operator on strings.
 */
module Text {

  /** `\d`, restricted to the ASCII decimal digits. */
  predicate IsDigit(c: char) {
    '0' <= c <= '9'
  }

  /** The characters for which Python's `str.isspace` holds. */
  predicate IsSpace(c: char) {
    ('\U{9}' <= c <= '\U{D}') || ('\U{1C}' <= c <= '\U{20}')
    || c == '\U{85}' || c == '\U{A0}' || c == '\U{1680}'
    || ('\U{2000}' <= c <= '\U{200A}') || c == '\U{2028}' || c == '\U{2029}'
    || c == '\U{202F}' || c == '\U{205F}' || c == '\U{3000}'
  }

  predicate IsUpper(c: char) {
    'A' <= c <= 'Z'
  }

  function LowerChar(c: char): char {
    if IsUpper(c) then (c as int + 32) as char else c
  }

  /** `str.lower`, with ASCII case mapping. */
  function Lower(s: string): (r: string)
    ensures |r| == |s|
    ensures forall i :: 0 <= i < |s| ==> r[i] == LowerChar(s[i])
    ensures forall i :: 0 <= i < |r| ==> !IsUpper(r[i])
  {
    seq(|s|, i requires 0 <= i < |s| => LowerChar(s[i]))
  }

  /** Number of whitespace characters at the start of `s`. */
  function LeadingSpaces(s: string): (n: nat)
    ensures n <= |s|
    ensures forall k :: 0 <= k < n ==> IsSpace(s[k])
    ensures n < |s| ==> !IsSpace(s[n])
  {
    if s != [] && IsSpace(s[0]) then 1 + LeadingSpaces(s[1..]) else 0
  }

  /** Number of whitespace characters at the end of `s`. */
  function TrailingSpaces(s: string): (n: nat)
    ensures n <= |s|
    ensures forall k :: |s| - n <= k < |s| ==> IsSpace(s[k])
    ensures n < |s| ==> !IsSpace(s[|s| - n - 1])
  {
    if s != [] && IsSpace(s[|s| - 1]) then 1 + TrailingSpaces(s[..|s| - 1]) else 0
  }

  /**
   * `str.strip()` with no argument: the longest infix of `s` that neither
   * starts nor ends with whitespace, obtained by dropping whitespace only.
   */
  function Strip(s: string): (r: string)
    ensures |r| <= |s|
    ensures r == [] <==> forall k :: 0 <= k < |s| ==> IsSpace(s[k])
    ensures r != [] ==> !IsSpace(r[0]) && !IsSpace(r[|r| - 1])
    ensures LeadingSpaces(s) + |r| <= |s|
    ensures r == s[LeadingSpaces(s)..LeadingSpaces(s) + |r|]
    ensures forall k :: 0 <= k < LeadingSpaces(s) ==> IsSpace(s[k])
    ensures forall k :: LeadingSpaces(s) + |r| <= k < |s| ==> IsSpace(s[k])
  {
    var lead := LeadingSpaces(s);
    if lead == |s| then []
    else
      var trail := TrailingSpaces(s);
      s[lead..|s| - trail]
  }

  /**
   * `r` is what remains of `s` once whitespace is dropped from both ends,
   * and only there: an infix of `s`, whitespace on either side of it, and
   * no whitespace at its own ends.
   */
  predicate IsStripOf(r: string, s: string) {
    exists a :: 0 <= a <= |s| && StripAt(r, s, a)
  }

  /** `r` is the infix of `s` starting at `a`, with only whitespace around it. */
  predicate StripAt(r: string, s: string, a: int) {
    && 0 <= a <= |s| - |r| && r == s[a..a + |r|]
    && (forall k :: 0 <= k < a ==> IsSpace(s[k]))
    && (forall k :: a + |r| <= k < |s| ==> IsSpace(s[k]))
    && (r != [] ==> !IsSpace(r[0]) && !IsSpace(r[|r| - 1]))
  }

  /** `Strip` computes the one text that `IsStripOf` describes. */
  lemma StripCharacterised(r: string, s: string)
    ensures IsStripOf(r, s) <==> r == Strip(s)
  {
    var t := Strip(s);
    var lead := LeadingSpaces(s);
    assert StripAt(t, s, lead);
    if IsStripOf(r, s) {
      var a :| 0 <= a <= |s| && StripAt(r, s, a);
      if r == [] {
        assert forall k :: 0 <= k < |s| ==> IsSpace(s[k]);
      } else {
        assert s[a] == r[0] && s[a + |r| - 1] == r[|r| - 1];
        SameStart(s, a, lead);
        assert s[lead + |t| - 1] == t[|t| - 1];
        SameEnd(s, a + |r|, lead + |t|);
      }
    }
  }

  /** Only one position starts with a non-space character after nothing but whitespace. */
  lemma SameStart(s: string, a: nat, b: nat)
    requires a < |s| && !IsSpace(s[a]) && forall k :: 0 <= k < a ==> IsSpace(s[k])
    requires b < |s| && !IsSpace(s[b]) && forall k :: 0 <= k < b ==> IsSpace(s[k])
    ensures a == b
  {
  }

  /** Only one position ends with a non-space character before nothing but whitespace. */
  lemma SameEnd(s: string, a: nat, b: nat)
    requires 0 < a <= |s| && !IsSpace(s[a - 1]) && forall k :: a <= k < |s| ==> IsSpace(s[k])
    requires 0 < b <= |s| && !IsSpace(s[b - 1]) && forall k :: b <= k < |s| ==> IsSpace(s[k])
    ensures a == b
  {
  }

  /** `pat` occurs in `text` starting at index `i`. */
  predicate OccursAt(text: string, pat: string, i: int) {
    0 <= i && i + |pat| <= |text| && text[i..i + |pat|] == pat
  }

  /** Some occurrence of `pat` in `text` starts at or after `from`. */
  function ContainsFrom(text: string, pat: string, from: nat): (b: bool)
    ensures b <==> exists i :: from <= i && OccursAt(text, pat, i)
    decreases |text| - from
  {
    if from + |pat| > |text| then
      assert forall i :: from <= i ==> !OccursAt(text, pat, i);
      false
    else if text[from..from + |pat|] == pat then
      assert OccursAt(text, pat, from);
      true
    else
      ContainsFrom(text, pat, from + 1)
  }

  /** Python's `pat in text` on strings. */
  function Contains(text: string, pat: string): (b: bool)
    ensures b <==> exists i :: OccursAt(text, pat, i)
  {
    ContainsFrom(text, pat, 0)
  }

  /** A pattern with a character the text lacks does not occur in it. */
  lemma MissingCharNotContained(text: string, pat: string, k: nat)
    requires k < |pat|
    requires forall j :: 0 <= j < |text| ==> text[j] != pat[k]
    ensures !Contains(text, pat)
  {
    forall i | 0 <= i && i + |pat| <= |text| ensures !OccursAt(text, pat, i) {
      assert text[i..i + |pat|][k] == text[i + k] != pat[k];
    }
  }

  /** A string with an upper-case letter never occurs in a lower-cased text. */
  lemma UpperNeverInLower(text: string, pat: string, k: nat)
    requires k < |pat| && IsUpper(pat[k])
    ensures !Contains(Lower(text), pat)
  {
    MissingCharNotContained(Lower(text), pat, k);
  }
}
