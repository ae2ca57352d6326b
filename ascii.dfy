/** ASCII character classes and case folding, as Python's str methods behave
    on ASCII text: isalpha, isdigit, isupper, lower, upper, and membership in
    string.punctuation. Characters outside ASCII fall in no class and are left
    unchanged by case folding. */
module Ascii {

  predicate IsLower(c: char) { 'a' <= c <= 'z' }

  predicate IsUpper(c: char) { 'A' <= c <= 'Z' }

  /** str.isalpha */
  predicate IsAlpha(c: char) { IsLower(c) || IsUpper(c) }

  /** str.isdigit */
  predicate IsDigit(c: char) { '0' <= c <= '9' }

  /** Membership in string.punctuation, the 32 printable ASCII symbols
      !"#$%&'()*+,-./:;<=>?@[\]^_`{|}~ : the four ranges of printable ASCII
      between the digits and the letters. */
  predicate IsPunctuation(c: char)
  {
    ('!' <= c <= '/') || (':' <= c <= '@') || ('[' <= c <= '`') || ('{' <= c <= '~')
  }

  /** str.lower on one character */
  function ToLower(c: char): (r: char)
    ensures IsUpper(c) ==> IsLower(r) && r as int == c as int + 32
    ensures !IsUpper(c) ==> r == c
  {
    if IsUpper(c) then (c as int + 32) as char else c
  }

  /** str.upper on one character */
  function ToUpper(c: char): (r: char)
    ensures IsLower(c) ==> IsUpper(r) && r as int == c as int - 32
    ensures !IsLower(c) ==> r == c
  {
    if IsLower(c) then (c as int - 32) as char else c
  }

  /** str.lower */
  function Lower(s: string): (r: string)
    ensures |r| == |s|
    ensures forall i :: 0 <= i < |s| ==> r[i] == ToLower(s[i]) && !IsUpper(r[i])
  {
    seq(|s|, i requires 0 <= i < |s| => ToLower(s[i]))
  }

  /** Text without uppercase letters is its own folding. */
  lemma {:induction false} LowerKeepsNonUpper(s: string)
    requires forall i :: 0 <= i < |s| ==> !IsUpper(s[i])
    ensures Lower(s) == s
  {
    assert forall i :: 0 <= i < |s| ==> Lower(s)[i] == s[i];
  }

  /** A punctuation character is neither a letter nor a digit, so the three
      classes counted by the feature extractor are pairwise disjoint. */
  lemma PunctuationIsNotAlphanumeric(c: char)
    requires IsPunctuation(c)
    ensures !IsAlpha(c) && !IsDigit(c)
  {
  }

  lemma {:induction false} LowerAppend(a: string, b: string)
    ensures Lower(a + b) == Lower(a) + Lower(b)
  {
    assert forall i :: 0 <= i < |a + b| ==> Lower(a + b)[i] == (Lower(a) + Lower(b))[i];
  }

  /** Folding twice is folding once. */
  lemma {:induction false} LowerIdempotent(s: string)
    ensures Lower(Lower(s)) == Lower(s)
  {
    assert forall i :: 0 <= i < |s| ==> Lower(Lower(s))[i] == Lower(s)[i];
  }

  /** Swaps the case of an ASCII letter; other characters stay. */
  function FlipCase(c: char): (r: char)
    ensures IsAlpha(c) ==> IsAlpha(r) && r != c
    ensures !IsAlpha(c) ==> r == c
  {
    if IsUpper(c) then ToLower(c) else if IsLower(c) then ToUpper(c) else c
  }

  /** Changing the case of any character leaves the folded text unchanged. */
  lemma {:induction false} FlipCaseSameLower(s: string, i: nat)
    requires i < |s|
    ensures Lower(s[i := FlipCase(s[i])]) == Lower(s)
  {
    var t := s[i := FlipCase(s[i])];
    assert ToLower(t[i]) == ToLower(s[i]);
    assert forall k :: 0 <= k < |s| ==> Lower(t)[k] == Lower(s)[k];
  }
}
