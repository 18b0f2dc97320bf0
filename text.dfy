/** JavaScript's `String.prototype.trim` and the blank test built on it:
    `!s.trim()` holds exactly when the trimmed string is empty. */
module Text {

  /** The characters `trim` removes: ECMAScript's WhiteSpace (TAB, VT, FF,
      SP, NBSP, ZWNBSP and every other space separator) and LineTerminator
      (LF, CR, LS, PS). */
  predicate IsWhitespace(c: char) {
    || '\t' <= c <= '\r'                  // TAB, LF, VT, FF, CR
    || c == ' ' || c == '\U{A0}' || c == '\U{1680}'
    || '\U{2000}' <= c <= '\U{200A}'      // EN QUAD .. HAIR SPACE
    || c == '\U{2028}' || c == '\U{2029}'  // LS, PS
    || c == '\U{202F}' || c == '\U{205F}' || c == '\U{3000}'
    || c == '\U{FEFF}'
  }

  predicate AllWhitespace(s: string) {
    forall k :: 0 <= k < |s| ==> IsWhitespace(s[k])
  }

  /** Length of the longest all-whitespace prefix of `s`. */
  function LeadingWhitespace(s: string): (n: nat)
    ensures n <= |s|
    ensures forall k :: 0 <= k < n ==> IsWhitespace(s[k])
    ensures n < |s| ==> !IsWhitespace(s[n])
  {
    if s == [] || !IsWhitespace(s[0]) then 0
    else 1 + LeadingWhitespace(s[1..])
  }

  /** Length of the longest all-whitespace suffix of `s`. */
  function TrailingWhitespace(s: string): (n: nat)
    ensures n <= |s|
    ensures forall k :: |s| - n <= k < |s| ==> IsWhitespace(s[k])
    ensures n < |s| ==> !IsWhitespace(s[|s| - 1 - n])
  {
    if s == [] || !IsWhitespace(s[|s| - 1]) then 0
    else 1 + TrailingWhitespace(s[..|s| - 1])
  }

  /** `s.trim()`: empty exactly when `s` is all whitespace, and otherwise
      neither starts nor ends with whitespace. `TrimSplits` shows that the
      result is `s` with a whitespace prefix and suffix removed. */
  function Trim(s: string): (r: string)
    ensures |r| <= |s|
    ensures r != [] ==> !IsWhitespace(r[0]) && !IsWhitespace(r[|r| - 1])
    ensures r == [] <==> AllWhitespace(s)
  {
    var lead := LeadingWhitespace(s);
    if lead == |s| then []
    else
      var trail := TrailingWhitespace(s);
      s[lead..|s| - trail]
  }

  /** `s` is a whitespace prefix, then `Trim(s)`, then a whitespace suffix. */
  lemma TrimSplits(s: string)
    ensures LeadingWhitespace(s) + |Trim(s)| <= |s|
    ensures s == s[..LeadingWhitespace(s)] + Trim(s) + s[LeadingWhitespace(s) + |Trim(s)|..]
    ensures AllWhitespace(s[..LeadingWhitespace(s)])
    ensures AllWhitespace(s[LeadingWhitespace(s) + |Trim(s)|..])
  {
    var lead, r := LeadingWhitespace(s), Trim(s);
    if lead < |s| {
      var trail := TrailingWhitespace(s);
      assert r == s[lead..|s| - trail];
      var post := s[lead + |r|..];
      forall k | 0 <= k < |post|
        ensures IsWhitespace(post[k])
      {
        assert post[k] == s[lead + |r| + k];
      }
    }
    assert s == s[..lead] + r + s[lead + |r|..];
  }

  /** `!s.trim()`: the string is empty once trimmed. */
  predicate Blank(s: string) {
    Trim(s) == []
  }

  /** A name as the handlers store it: non-empty and already trimmed. */
  predicate TrimmedName(s: string) {
    s != [] && Trim(s) == s
  }

  /** The leading-whitespace count is determined by where the first
      non-whitespace character is. */
  lemma {:induction false} LeadingWhitespaceAt(s: string, n: nat)
    requires n <= |s| && forall k :: 0 <= k < n ==> IsWhitespace(s[k])
    requires n < |s| ==> !IsWhitespace(s[n])
    ensures LeadingWhitespace(s) == n
  {
    if n > 0 {
      assert IsWhitespace(s[0]);
      LeadingWhitespaceAt(s[1..], n - 1);
    }
  }

  lemma {:induction false} TrailingWhitespaceAt(s: string, n: nat)
    requires n <= |s| && forall k :: |s| - n <= k < |s| ==> IsWhitespace(s[k])
    requires n < |s| ==> !IsWhitespace(s[|s| - 1 - n])
    ensures TrailingWhitespace(s) == n
  {
    if n > 0 {
      assert IsWhitespace(s[|s| - 1]);
      TrailingWhitespaceAt(s[..|s| - 1], n - 1);
    }
  }

  /** Reference characterisation of `trim`: whatever whitespace surrounds a
      string that starts and ends with a non-whitespace character, trimming
      returns exactly that string. */
  lemma TrimUnique(pre: string, r: string, post: string)
    requires AllWhitespace(pre) && AllWhitespace(post)
    requires r != [] && !IsWhitespace(r[0]) && !IsWhitespace(r[|r| - 1])
    ensures Trim(pre + r + post) == r
  {
    var s := pre + r + post;
    assert s[|pre|] == r[0];
    LeadingWhitespaceAt(s, |pre|);
    assert s[|s| - 1 - |post|] == r[|r| - 1];
    forall k | |s| - |post| <= k < |s|
      ensures IsWhitespace(s[k])
    {
      assert s[k] == post[k - (|s| - |post|)];
    }
    TrailingWhitespaceAt(s, |post|);
    assert s[|pre|..|s| - |post|] == r;
  }

  /** Trimming twice is trimming once. */
  lemma TrimIdempotent(s: string)
    ensures Trim(Trim(s)) == Trim(s)
  {
    var r := Trim(s);
    if r != [] {
      TrimUnique([], r, []);
      assert [] + r + [] == r;
    } else {
      assert AllWhitespace(r);
    }
  }

  /** A string that is not blank trims to a stored-form name. */
  lemma TrimOfNonBlankIsTrimmedName(s: string)
    requires !Blank(s)
    ensures TrimmedName(Trim(s))
  {
    TrimIdempotent(s);
  }
}
