/**
 * The chat box's suggestion command: input whose lower-cased form starts with "suggest:"
 * is recorded as the text after those eight characters, with surrounding white space
 * removed; any other input is not recorded.
 */
module Suggestions {
  import opened Wrappers

  const Prefix: string := "suggest:"

  /** The ASCII lower-case of `c`; every other character is left alone. */
  function LowerChar(c: char): (r: char)
  {
    if 'A' <= c <= 'Z' then (c as int + 32) as char else c
  }

  /** `s` with every ASCII capital replaced by its small letter. */
  function Lower(s: string): (r: string)
    ensures |r| == |s|
    ensures forall k :: 0 <= k < |s| && 'A' <= s[k] <= 'Z' ==> r[k] as int == s[k] as int + 32
    ensures forall k :: 0 <= k < |s| && !('A' <= s[k] <= 'Z') ==> r[k] == s[k]
  {
    seq(|s|, k requires 0 <= k < |s| => LowerChar(s[k]))
  }

  /** The characters Python's `str.isspace` accepts, which `str.strip` removes. */
  predicate IsSpace(c: char)
    ensures IsSpace(c) ==> c == ' ' || c < ' ' || c > '~'
  {
    || c == ' ' || c == '\t' || c == '\n' || c == '\r'
    || c == '\U{B}' || c == '\U{C}'
    || ('\U{1C}' <= c <= '\U{1F}')
    || c == '\U{85}' || c == '\U{A0}' || c == '\U{1680}'
    || ('\U{2000}' <= c <= '\U{200A}')
    || c == '\U{2028}' || c == '\U{2029}' || c == '\U{202F}' || c == '\U{205F}'
    || c == '\U{3000}'
  }

  /** The number of white-space characters `s` begins with. */
  function LeadingSpaces(s: string): (n: nat)
    ensures n <= |s|
    ensures forall k :: 0 <= k < n ==> IsSpace(s[k])
    ensures n == |s| || !IsSpace(s[n])
    decreases |s|
  {
    if |s| > 0 && IsSpace(s[0]) then 1 + LeadingSpaces(s[1..]) else 0
  }

  /** The number of white-space characters `s` ends with. */
  function TrailingSpaces(s: string): (n: nat)
    ensures n <= |s|
    ensures forall k :: |s| - n <= k < |s| ==> IsSpace(s[k])
    ensures n == |s| || !IsSpace(s[|s| - n - 1])
    decreases |s|
  {
    if |s| > 0 && IsSpace(s[|s| - 1]) then 1 + TrailingSpaces(s[..|s| - 1]) else 0
  }

  /**
   * `s` without surrounding white space: the part of `s` after its leading white space
   * that neither begins nor ends with white space, everything after it being white space.
   */
  function Strip(s: string): (r: string)
    ensures r == [] || (!IsSpace(r[0]) && !IsSpace(r[|r| - 1]))
    ensures LeadingSpaces(s) + |r| <= |s|
    ensures r == s[LeadingSpaces(s)..LeadingSpaces(s) + |r|]
    ensures forall k :: LeadingSpaces(s) + |r| <= k < |s| ==> IsSpace(s[k])
  {
    var t := s[LeadingSpaces(s)..];
    var r := t[..|t| - TrailingSpaces(t)];
    assert forall k :: LeadingSpaces(s) + |r| <= k < |s| ==> s[k] == t[k - LeadingSpaces(s)];
    r
  }

  /** Stripping twice is stripping once. */
  lemma StripIdempotent(s: string)
    ensures Strip(Strip(s)) == Strip(s)
  {
  }

  /** A character lower-cases to the k-th prefix character exactly when it is that letter in either case. */
  lemma LowerMatchesPrefix(c: char, k: int)
    requires 0 <= k < 8
    ensures LowerChar(c) == Prefix[k] <==> c == "suggest:"[k] || c == "SUGGEST:"[k]
  {
  }

  /** Parses one chat input: the suggestion text if it carries the prefix, else nothing. */
  function ParseSuggestion(input: string): (r: Option<string>)
    ensures r.Some? <==> (|input| >= 8
      && forall k :: 0 <= k < 8 ==> input[k] == "suggest:"[k] || input[k] == "SUGGEST:"[k])
    ensures r.Some? ==> r.value == Strip(input[8..])
  {
    var lowered := Lower(input);
    assert |lowered| >= |Prefix| && lowered[..|Prefix|] == Prefix <==> (|input| >= 8
      && forall k :: 0 <= k < 8 ==> input[k] == "suggest:"[k] || input[k] == "SUGGEST:"[k]) by {
      if |input| >= 8 {
        forall k | 0 <= k < 8
          ensures lowered[k] == Prefix[k] <==> input[k] == "suggest:"[k] || input[k] == "SUGGEST:"[k]
        {
          LowerMatchesPrefix(input[k], k);
        }
        assert lowered[..|Prefix|] == Prefix <==> forall k :: 0 <= k < 8 ==> lowered[k] == Prefix[k];
      }
    }
    if |lowered| >= |Prefix| && lowered[..|Prefix|] == Prefix then
      Some(Strip(input[|Prefix|..]))
    else
      None
  }
}
