/**
 * The verification-code pattern of `get_verification_code_from_email`:
 * `re.search(r'\d{6}', snippet)`, i.e. the leftmost window of six
 * consecutive digits, with no check on the characters around it.
 */
module CodeExtraction {
  import opened Wrappers
  import opened Text

  const CODE_LENGTH: nat := 6

  /** Six digits start at index `i` of `s`. */
  predicate CodeAt(s: string, i: int) {
    0 <= i && i + CODE_LENGTH <= |s| && forall k :: i <= k < i + CODE_LENGTH ==> IsDigit(s[k])
  }

  predicate IsCode(c: string) {
    |c| == CODE_LENGTH && forall k :: 0 <= k < |c| ==> IsDigit(c[k])
  }

  /** The leftmost start of a six-digit window at or after `from`. */
  function FirstCodeFrom(s: string, from: nat): (r: Option<nat>)
    ensures r.Some? ==> from <= r.value && CodeAt(s, r.value)
    ensures r.Some? ==> forall j :: from <= j < r.value ==> !CodeAt(s, j)
    ensures r.None? ==> forall j :: from <= j ==> !CodeAt(s, j)
    decreases |s| - from
  {
    if from + CODE_LENGTH > |s| then None
    else if CodeAt(s, from) then Some(from)
    else FirstCodeFrom(s, from + 1)
  }

  /**
   * `match.group(0) if match else None` for `re.search(r'\d{6}', snippet)`:
   * absent exactly when no six consecutive digits occur; otherwise the six
   * characters of the leftmost such window.
   */
  function ExtractCode(snippet: string): (r: Option<string>)
    ensures r.None? <==> forall i :: !CodeAt(snippet, i)
    ensures r.Some? ==> IsCode(r.value)
    ensures r.Some? ==> exists i :: CodeAt(snippet, i) && r.value == snippet[i..i + CODE_LENGTH]
                                    && forall j :: 0 <= j < i ==> !CodeAt(snippet, j)
  {
    match FirstCodeFrom(snippet, 0)
    case None => None
    case Some(i) => Some(snippet[i..i + CODE_LENGTH])
  }

  /**
   * There is no digit-boundary check: a code at the front of the snippet is
   * returned whatever follows it, even more digits.
   */
  lemma CodeAtFront(code: string, rest: string)
    requires IsCode(code)
    ensures ExtractCode(code + rest) == Some(code)
  {
    var s := code + rest;
    assert CodeAt(s, 0) by {
      forall k | 0 <= k < CODE_LENGTH ensures IsDigit(s[k]) {
        assert s[k] == code[k];
      }
    }
    assert s[0..CODE_LENGTH] == code;
  }

  /** A code preceded only by non-digit text is the one extracted. */
  lemma {:induction false} CodeAfterText(prefix: string, code: string, rest: string)
    requires forall k :: 0 <= k < |prefix| ==> !IsDigit(prefix[k])
    requires IsCode(code)
    ensures ExtractCode(prefix + code + rest) == Some(code)
  {
    var s := prefix + code + rest;
    var p := |prefix|;
    assert s[p..p + CODE_LENGTH] == code;
    assert CodeAt(s, p) by {
      forall k | p <= k < p + CODE_LENGTH ensures IsDigit(s[k]) {
        assert s[k] == code[k - p];
      }
    }
    forall j | 0 <= j < p ensures !CodeAt(s, j) {
      assert s[j] == prefix[j];
    }
    assert FirstCodeFrom(s, 0) == Some(p);
  }

  /**
   * A ten-digit run yields its first six digits rather than "no code", and
   * the message "Your code is 482913" yields its code.
   */
  lemma ExtractionExamples()
    ensures ExtractCode("Ref 0123456789") == Some("012345")
    ensures ExtractCode("Your code is 482913") == Some("482913")
  {
    CodeAfterText("Ref ", "012345", "6789");
    assert "Ref " + "012345" + "6789" == "Ref 0123456789";
    CodeAfterText("Your code is ", "482913", "");
    assert "Your code is " + "482913" + "" == "Your code is 482913";
  }
}
