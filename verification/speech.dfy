/** Text tests applied to a transcription before the interpreter sees it:
    Python's str.strip(), the silence filter of the listening block, and
    the str.upper() used on a client bubble's language tag. */
module Speech {

  /** Python's str.isspace() for one code point: exactly the characters
      that str.strip() with no argument removes. */
  predicate IsSpace(c: char)
  {
    var n := c as int;
    (9 <= n <= 13) || (28 <= n <= 32) || n == 0x85 || n == 0xA0 || n == 0x1680
    || (0x2000 <= n <= 0x200A) || n == 0x2028 || n == 0x2029 || n == 0x202F
    || n == 0x205F || n == 0x3000
  }

  /** Number of whitespace characters at the start of `s`. */
  function LeadingSpace(s: string): (n: nat)
    ensures n <= |s|
    ensures forall k :: 0 <= k < n ==> IsSpace(s[k])
    ensures n < |s| ==> !IsSpace(s[n])
  {
    if s == [] || !IsSpace(s[0]) then 0 else 1 + LeadingSpace(s[1..])
  }

  /** Number of whitespace characters at the end of `s`. */
  function TrailingSpace(s: string): (n: nat)
    ensures n <= |s|
    ensures forall k :: |s| - n <= k < |s| ==> IsSpace(s[k])
    ensures n < |s| ==> !IsSpace(s[|s| - 1 - n])
  {
    if s == [] || !IsSpace(s[|s| - 1]) then 0 else 1 + TrailingSpace(s[..|s| - 1])
  }

  /** Python's `s.strip()`: the longest infix of `s` that neither starts nor
      ends with whitespace, everything cut away being whitespace. */
  function Strip(s: string): (r: string)
    ensures LeadingSpace(s) + |r| <= |s|
    ensures r == s[LeadingSpace(s)..LeadingSpace(s) + |r|]
    ensures forall k :: LeadingSpace(s) + |r| <= k < |s| ==> IsSpace(s[k])
    ensures r != [] ==> !IsSpace(r[0]) && !IsSpace(r[|r| - 1])
    ensures r == [] <==> forall k :: 0 <= k < |s| ==> IsSpace(s[k])
  {
    var i := LeadingSpace(s);
    var t := s[i..];
    assert forall k :: 0 <= k < |t| ==> t[k] == s[i + k];
    t[..|t| - TrailingSpace(t)]
  }

  /** The silence filter of the listening block: the stripped text is not
      empty AND the UNTRIMMED text is longer than two characters. */
  predicate HasSpeech(text: string)
    ensures HasSpeech(text) <==>
      |text| > 2 && exists k :: 0 <= k < |text| && !IsSpace(text[k])
  {
    Strip(text) != [] && |text| > 2
  }

  /** Python's str.upper() on one character, for the ASCII letters. */
  function UpperChar(c: char): char
  {
    if 'a' <= c <= 'z' then (c as int - 32) as char else c
  }

  /** Python's str.upper() on a language code. */
  function Upper(s: string): (r: string)
    ensures |r| == |s|
    ensures forall k :: 0 <= k < |s| ==> !('a' <= r[k] <= 'z')
    ensures forall k :: 0 <= k < |s| && !('a' <= s[k] <= 'z') ==> r[k] == s[k]
    ensures forall k :: 0 <= k < |s| && 'a' <= s[k] <= 'z' ==> 'A' <= r[k] <= 'Z' && r[k] as int + 32 == s[k] as int
  {
    seq(|s|, k requires 0 <= k < |s| => UpperChar(s[k]))
  }

  /** The filter measures the untrimmed text: one letter padded with two
      spaces gets through, although only one character of speech remains. */
  lemma PaddedLetterIsSpeech()
    ensures HasSpeech("  a") && Strip("  a") == "a"
  {
  }

  /** Whitespace alone, or anything of two characters or fewer, is silence. */
  lemma SilenceCases(text: string)
    ensures |text| <= 2 ==> !HasSpeech(text)
    ensures (forall k :: 0 <= k < |text| ==> IsSpace(text[k])) ==> !HasSpeech(text)
  {
  }
}
