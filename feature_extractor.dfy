/** The password feature extractor: a password becomes a record of 13
    numeric features, computed from the password and a set of read-only
    lexical resources (an English word list, a pronunciation table and a
    named-entity recogniser). Characters are ASCII. */
module FeatureExtractor {
  import opened Ascii
  import opened Counting

  /** The labels contains_ner_substring looks for: PERSON, ORG, GPE and LOC. */
  predicate IsNamedLabel(tag: string)
  {
    tag == "PERSON" || tag == "ORG" || tag == "GPE" || tag == "LOC"
  }

  /** The lexical resources, loaded once and never changed.
      words: the English word set; pronunciations: the pronunciation table,
      each word mapped to its alternative pronunciations, each a sequence of
      phones; entities: the labels (`ent.label_`) of the entity spans the
      recogniser finds in a text; entropyOf: the floating-point Shannon entropy of a non-empty
      text, which this model does not compute. */
  datatype Resources = Resources(
    words: set<string>,
    pronunciations: map<string, seq<seq<string>>>,
    entities: string -> seq<string>,
    entropyOf: string -> real)

  /** Every word of the pronunciation table has a pronunciation and no phone
      is empty; without this the syllable count would raise. */
  predicate WellFormedPronunciations(prons: seq<seq<string>>)
  {
    |prons| > 0 && forall pron, phone :: pron in prons && phone in pron ==> |phone| > 0
  }

  /** The resources as the source loads them: a well-formed pronunciation
      table, and a recogniser that finds no entity in the empty text. */
  predicate ValidResources(res: Resources)
  {
    (forall w :: w in res.pronunciations ==> WellFormedPronunciations(res.pronunciations[w])) &&
    res.entities("") == []
  }

  // ---------------------------------------------------------------------
  // Entropy

  /** shannon_entropy: 0.0 for the empty string, otherwise the value of
      -sum p*log2(p) over the character frequencies, taken from the resources. */
  function ShannonEntropy(res: Resources, s: string): (r: real)
    ensures s == [] ==> r == 0.0
    ensures s != [] ==> r == res.entropyOf(s)
  {
    if s == [] then 0.0 else res.entropyOf(s)
  }

  // ---------------------------------------------------------------------
  // Syllables

  /** A stress-marked phone: its last character is a digit. */
  predicate IsStressed(phone: string) { |phone| > 0 && IsDigit(phone[|phone| - 1]) }

  function StressCount(pron: seq<string>): nat { Count(pron, IsStressed) }

  /** The largest stressed-phone count over the alternative pronunciations. */
  function MaxStress(prons: seq<seq<string>>): (r: nat)
    requires |prons| > 0
    ensures exists k :: 0 <= k < |prons| && r == StressCount(prons[k])
    ensures forall k :: 0 <= k < |prons| ==> StressCount(prons[k]) <= r
  {
    if |prons| == 1 then StressCount(prons[0])
    else
      var rest := MaxStress(prons[1..]);
      assert forall k :: 1 <= k < |prons| ==> prons[k] == prons[1..][k - 1];
      if StressCount(prons[0]) >= rest then StressCount(prons[0]) else rest
  }

  /** The character class [aeiouy]. */
  predicate IsVowel(c: char) { c == 'a' || c == 'e' || c == 'i' || c == 'o' || c == 'u' || c == 'y' }

  /** Drops the vowels at the front of s. */
  function SkipVowels(s: string): (r: string)
    ensures |r| <= |s| && r == s[|s| - |r|..]
    ensures r == [] || !IsVowel(r[0])
    ensures forall i :: 0 <= i < |s| - |r| ==> IsVowel(s[i])
    decreases |s|
  {
    if s != [] && IsVowel(s[0]) then
      var r := SkipVowels(s[1..]);
      assert s[1..][|s| - 1 - |r|..] == s[|s| - |r|..];
      assert forall i :: 1 <= i < |s| - |r| ==> s[i] == s[1..][i - 1];
      r
    else s
  }

  /** The number of matches of the regular expression [aeiouy]+ in s: each
      match is a maximal run of vowels. */
  function VowelRuns(s: string): nat
    decreases |s|
  {
    if s == [] then 0
    else if IsVowel(s[0]) then 1 + VowelRuns(SkipVowels(s[1..]))
    else VowelRuns(s[1..])
  }

  /** There are no runs exactly when there is no vowel. */
  lemma {:induction false} VowelRunsZero(s: string)
    ensures VowelRuns(s) == 0 <==> forall i :: 0 <= i < |s| ==> !IsVowel(s[i])
    decreases |s|
  {
    if s != [] && !IsVowel(s[0]) {
      VowelRunsZero(s[1..]);
      assert forall i :: 1 <= i < |s| ==> s[i] == s[1..][i - 1];
    }
  }

  /** Runs are separated by at least one non-vowel, so there are at most
      half as many runs as characters, rounded up; fewer when the text starts
      with a non-vowel. */
  lemma {:induction false} VowelRunsBound(s: string)
    ensures 2 * VowelRuns(s) <= |s| + 1
    ensures s != [] && !IsVowel(s[0]) ==> 2 * VowelRuns(s) <= |s|
    decreases |s|
  {
    if s == [] {
    } else if IsVowel(s[0]) {
      var rest := SkipVowels(s[1..]);
      VowelRunsBound(rest);
    } else {
      VowelRunsBound(s[1..]);
    }
  }

  /** An independent count of the matches of [aeiouy]+, one character at a
      time: a match starts at every vowel whose predecessor (prevVowel) is
      not a vowel. */
  function RunStarts(s: string, prevVowel: bool): nat
  {
    if s == [] then 0
    else (if IsVowel(s[0]) && !prevVowel then 1 else 0) + RunStarts(s[1..], IsVowel(s[0]))
  }

  /** After a vowel, a run of vowels starts no new match. */
  lemma {:induction false} RunStartsSkipVowels(s: string)
    ensures RunStarts(s, true) == RunStarts(SkipVowels(s), true)
    decreases |s|
  {
    if s != [] && IsVowel(s[0]) {
      RunStartsSkipVowels(s[1..]);
    }
  }

  /** Counting maximal runs and counting run starts agree. */
  lemma {:induction false} VowelRunsAreRunStarts(s: string)
    ensures VowelRuns(s) == RunStarts(s, false)
    decreases |s|
  {
    if s != [] {
      if IsVowel(s[0]) {
        var rest := SkipVowels(s[1..]);
        RunStartsSkipVowels(s[1..]);
        assert RunStarts(rest, true) == RunStarts(rest, false);
        VowelRunsAreRunStarts(rest);
      } else {
        VowelRunsAreRunStarts(s[1..]);
      }
    }
  }

  /** count_syllables: the folded word's largest stressed-phone count when
      the pronunciation table has it, the number of vowel runs otherwise. */
  function CountSyllables(res: Resources, word: string): (r: nat)
    requires ValidResources(res)
    ensures Lower(word) in res.pronunciations ==>
      var prons := res.pronunciations[Lower(word)];
      (exists k :: 0 <= k < |prons| && r == StressCount(prons[k])) &&
      (forall k :: 0 <= k < |prons| ==> StressCount(prons[k]) <= r)
    ensures Lower(word) !in res.pronunciations ==>
      r == VowelRuns(Lower(word)) &&
      2 * r <= |word| + 1 &&
      (r == 0 <==> forall i :: 0 <= i < |word| ==> !IsVowel(ToLower(word[i])))
  {
    var w := Lower(word);
    if w in res.pronunciations then
      MaxStress(res.pronunciations[w])
    else
      FoldedVowelRuns(word);
      VowelRuns(w)
  }

  /** The vowel-run fallback on a folded word. */
  lemma {:induction false} FoldedVowelRuns(word: string)
    ensures 2 * VowelRuns(Lower(word)) <= |word| + 1
    ensures VowelRuns(Lower(word)) == 0 <==> forall i :: 0 <= i < |word| ==> !IsVowel(ToLower(word[i]))
  {
    var w := Lower(word);
    VowelRunsBound(w);
    VowelRunsZero(w);
    assert |w| == |word|;
    forall i | 0 <= i < |word|
      ensures w[i] == ToLower(word[i])
    {
    }
  }

  // ---------------------------------------------------------------------
  // Whole-word tests

  /** is_english_word: the folded password is a dictionary entry. */
  function IsEnglishWord(words: set<string>, word: string): bool
  {
    Lower(word) in words
  }

  /** Python's s[::-1] */
  function Reverse(s: string): (r: string)
    ensures |r| == |s|
    ensures forall i :: 0 <= i < |s| ==> r[i] == s[|s| - 1 - i]
  {
    seq(|s|, i requires 0 <= i < |s| => s[|s| - 1 - i])
  }

  /** is_palindrome: the folded word equals its folded reverse. */
  function IsPalindrome(word: string): bool
  {
    Lower(word) == Lower(Reverse(word))
  }

  /** A palindrome reads the same from both ends, ignoring case. */
  lemma {:induction false} PalindromeMirrors(word: string)
    ensures IsPalindrome(word) <==>
      forall i :: 0 <= i < |word| ==> ToLower(word[i]) == ToLower(word[|word| - 1 - i])
  {
    if forall i :: 0 <= i < |word| ==> ToLower(word[i]) == ToLower(word[|word| - 1 - i]) {
      assert forall i :: 0 <= i < |word| ==> Lower(word)[i] == Lower(Reverse(word))[i];
    }
    if IsPalindrome(word) {
      forall i | 0 <= i < |word|
        ensures ToLower(word[i]) == ToLower(word[|word| - 1 - i])
      {
        assert Lower(word)[i] == Lower(Reverse(word))[i];
      }
    }
  }

  lemma PalindromeExamples(c: char)
    ensures IsPalindrome("AbaBA")
    ensures !IsPalindrome("Abc")
    ensures IsPalindrome("")
    ensures IsPalindrome([c])
  {
    PalindromeMirrors("AbaBA");
    PalindromeMirrors("Abc");
    assert ToLower("Abc"[0]) != ToLower("Abc"[2]);
    PalindromeMirrors([c]);
  }

  // ---------------------------------------------------------------------
  // Repeat-character ratio

  lemma {:induction false} OccurrencesBound(s: string, c: char)
    ensures multiset(s)[c] <= |s|
    decreases |s|
  {
    if s != [] {
      var n := |s| - 1;
      assert s == s[..n] + [s[n]];
      OccurrencesBound(s[..n], c);
    }
  }

  /** The largest occurrence count among s[0..k]. */
  function MaxCountUpTo(s: string, k: nat): (r: nat)
    requires 0 < k <= |s|
    ensures exists j :: 0 <= j < k && r == multiset(s)[s[j]]
    ensures forall j :: 0 <= j < k ==> multiset(s)[s[j]] <= r
  {
    if k == 1 then multiset(s)[s[0]]
    else
      var m := MaxCountUpTo(s, k - 1);
      if multiset(s)[s[k - 1]] > m then multiset(s)[s[k - 1]] else m
  }

  /** Counter(s).most_common(1)[0][1]: the number of occurrences of the most
      frequent character. */
  function MostCommonCount(s: string): (r: nat)
    requires |s| > 0
    ensures forall c :: multiset(s)[c] <= r
    ensures exists c :: c in s && multiset(s)[c] == r
    ensures 1 <= r <= |s|
  {
    var r := MaxCountUpTo(s, |s|);
    var j :| 0 <= j < |s| && r == multiset(s)[s[j]];
    OccurrencesBound(s, s[j]);
    r
  }

  /** char_repeat_ratio: 0.0 for the empty word, otherwise the count of the
      most frequent folded character divided by the length. */
  function CharRepeatRatio(word: string): (r: real)
    ensures |word| == 0 ==> r == 0.0
    ensures |word| > 0 ==> r == MostCommonCount(Lower(word)) as real / (|word| as real)
    ensures |word| > 0 ==> 1.0 / (|word| as real) <= r <= 1.0
    ensures 0.0 <= r <= 1.0
  {
    if |word| == 0 then 0.0
    else
      var m := MostCommonCount(Lower(word));
      var n := |word| as real;
      RatioBounds(m as real, n);
      m as real / n
  }

  /** The ratio ignores case: flipping the case of any letter keeps it. */
  lemma {:induction false} RepeatRatioIgnoresCase(word: string, i: nat)
    requires i < |word|
    ensures CharRepeatRatio(word[i := FlipCase(word[i])]) == CharRepeatRatio(word)
  {
    FlipCaseSameLower(word, i);
  }

  /** The threshold 0.3 on the ratio of a non-empty word is the integer
      condition 10 * count < 3 * length. */
  lemma {:induction false} RepeatRatioThreshold(word: string)
    requires |word| > 0
    ensures CharRepeatRatio(word) < 0.3 <==> 10 * MostCommonCount(Lower(word)) < 3 * |word|
  {
    var m := MostCommonCount(Lower(word)) as real;
    var n := |word| as real;
    assert CharRepeatRatio(word) == m / n;
    DivBelow(m, n, 0.3);
  }

  lemma RatioBounds(m: real, n: real)
    requires 1.0 <= m <= n
    ensures 0.0 < 1.0 / n <= m / n <= 1.0
  {
    assert m / n - 1.0 / n == (m - 1.0) / n;
    assert (n - m) / n == 1.0 - m / n;
  }

  lemma DivBelow(m: real, n: real, c: real)
    requires n > 0.0
    ensures m / n < c <==> m < c * n
  {
    assert m / n - c == (m - c * n) / n;
  }

  // ---------------------------------------------------------------------
  // Keyboard patterns

  /** get_keyboard_patterns: QWERTY rows both ways, digit rows, symbol rows,
      bracket pairs, keyboard diagonals and numpad lines. */
  function KeyboardPatterns(): (r: seq<string>)
    ensures |r| == 40
    ensures forall k :: 0 <= k < |r| ==> 2 <= |r[k]| <= 16
  {
    [
    "qwertyuiop", "asdfghjkl", "zxcvbnm",
    "poiuytrewq", "lkjhgfdsa", "mnbvcxz",
    "1234567890", "0987654321",
    "!@#$%^&*()", ")(*&^%$#@!", "`~!@#$%^&*()_+-=", "-=_+)(*&^%$#@!~`",
    "[]{}", "{}[]", "<>", "><", "()", ")(",
    "qaz", "wsx", "edc", "rfv", "tgb", "yhn", "ujm",
    "zaq", "xsw", "cde", "vfr", "bgt", "nhy", "mju",
    "147", "258", "369", "741", "852", "963", "159", "357"
    ]
  }

  /** sub occurs in s starting at position k. */
  predicate OccursAt(sub: string, s: string, k: nat)
  {
    k + |sub| <= |s| && s[k..k + |sub|] == sub
  }

  /** Python's `sub in s` on strings. */
  predicate IsSubstring(sub: string, s: string)
  {
    exists k: nat :: k <= |s| && OccursAt(sub, s, k)
  }

  /** pattern[i:i+len] */
  function Window(pattern: string, i: nat, len: nat): (r: string)
    requires i + len <= |pattern|
    ensures |r| == len
  {
    pattern[i..i + len]
  }

  /** Some window pattern[i:i+minLen] occurs in the (folded) password pw. */
  predicate WindowOccurs(pw: string, pattern: string, minLen: nat)
  {
    exists i: nat :: i + minLen <= |pattern| && IsSubstring(Window(pattern, i, minLen), pw)
  }

  /** What has_keyboard_pattern decides: some catalog entry has a window of
      length minLen that occurs in the folded password. */
  ghost predicate HasKeyboardWindow(password: string, patterns: seq<string>, minLen: nat)
  {
    exists p :: p in patterns && WindowOccurs(Lower(password), p, minLen)
  }

  /** has_keyboard_pattern: try each window of each catalog entry in turn and
      stop at the first one found in the folded password. */
  method HasKeyboardPattern(password: string, patterns: seq<string>, minLen: nat) returns (found: bool)
    ensures found == HasKeyboardWindow(password, patterns, minLen)
  {
    var pw := Lower(password);
    for n := 0 to |patterns|
      invariant forall m :: 0 <= m < n ==> !WindowOccurs(pw, patterns[m], minLen)
    {
      var pattern := patterns[n];
      var i := 0;
      while i + minLen <= |pattern|
        invariant forall i': nat :: i' < i && i' + minLen <= |pattern| ==> !IsSubstring(Window(pattern, i', minLen), pw)
        decreases |pattern| - i
      {
        var sub := Window(pattern, i, minLen);
        if IsSubstring(sub, pw) {
          assert WindowOccurs(pw, pattern, minLen);
          return true;
        }
        i := i + 1;
      }
    }
    return false;
  }

  /** A password shorter than the window length matches nothing. */
  lemma {:induction false} ShortPasswordHasNoKeyboardWindow(password: string, patterns: seq<string>, minLen: nat)
    requires |password| < minLen
    ensures !HasKeyboardWindow(password, patterns, minLen)
  {
  }

  /** The catalog entries that have at least one window of length minLen. */
  function LongEntries(patterns: seq<string>, minLen: nat): (r: seq<string>)
    ensures forall p :: p in r <==> p in patterns && |p| >= minLen
  {
    if patterns == [] then []
    else if |patterns[0]| >= minLen then [patterns[0]] + LongEntries(patterns[1..], minLen)
    else LongEntries(patterns[1..], minLen)
  }

  /** Entries shorter than the window length never contribute: dropping them
      changes nothing. In the catalog these are exactly the four two-character
      bracket entries. */
  lemma {:induction false} ShortEntriesNeverMatch(password: string, patterns: seq<string>, minLen: nat)
    ensures HasKeyboardWindow(password, patterns, minLen) <==>
            HasKeyboardWindow(password, LongEntries(patterns, minLen), minLen)
  {
  }

  /** The catalog entries too short to have a window of length 3 are the
      four bracket pairs. */
  lemma ShortCatalogEntries()
    ensures forall p :: p in KeyboardPatterns() && |p| < 3 ==> p == "<>" || p == "><" || p == "()" || p == ")("
  {
  }

  lemma KeyboardExamples()
    ensures HasKeyboardWindow("xqwertyz", KeyboardPatterns(), 3)
    ensures HasKeyboardWindow("xyz123q", KeyboardPatterns(), 3)
  {
    LowerKeepsNonUpper("xqwertyz");
    LowerKeepsNonUpper("xyz123q");
    assert KeyboardPatterns()[0] == "qwertyuiop" && KeyboardPatterns()[6] == "1234567890";
    var pw := Lower("xqwertyz");
    assert OccursAt(Window("qwertyuiop", 0, 3), pw, 1);
    assert WindowOccurs(pw, "qwertyuiop", 3);
    var pw2 := Lower("xyz123q");
    assert OccursAt(Window("1234567890", 0, 3), pw2, 3);
    assert WindowOccurs(pw2, "1234567890", 3);
  }

  // ---------------------------------------------------------------------
  // Substring searches

  /** What contains_english_word_substring decides: some slice pw[i:j] of
      the folded password, with i < len and j - i >= minLen, is a word. */
  ghost predicate HasWordSubstring(words: set<string>, password: string, minLen: nat)
  {
    exists i, j :: 0 <= i < |password| && i + minLen <= j <= |password| && Lower(password)[i..j] in words
  }

  /** contains_english_word_substring: scan the slices by start, then end,
      and stop at the first dictionary word. */
  method ContainsEnglishWordSubstring(words: set<string>, password: string, minLen: nat) returns (found: bool)
    ensures found == HasWordSubstring(words, password, minLen)
  {
    var pw := Lower(password);
    for i := 0 to |pw|
      invariant forall a, b :: 0 <= a < i && a + minLen <= b <= |pw| ==> pw[a..b] !in words
    {
      var j := i + minLen;
      while j <= |pw|
        invariant i + minLen <= j
        invariant forall b :: i + minLen <= b < j && b <= |pw| ==> pw[i..b] !in words
        decreases |pw| + 1 - j
      {
        if pw[i..j] in words {
          return true;
        }
        j := j + 1;
      }
    }
    return false;
  }

  /** The recogniser finds a PERSON, ORG, GPE or LOC span in text. */
  predicate IsNamedEntity(res: Resources, text: string)
  {
    exists k :: 0 <= k < |res.entities(text)| && IsNamedLabel(res.entities(text)[k])
  }

  /** What contains_ner_substring decides: some slice of the password, in its
      original case, with i < len and j - i >= minLen, holds a named entity. */
  ghost predicate HasNerSubstring(res: Resources, password: string, minLen: nat)
  {
    exists i, j :: 0 <= i < |password| && i + minLen <= j <= |password| && IsNamedEntity(res, password[i..j])
  }

  /** contains_ner_substring: run the recogniser on each slice in turn and
      stop at the first that holds a named entity. */
  method ContainsNerSubstring(res: Resources, password: string, minLen: nat) returns (found: bool)
    ensures found == HasNerSubstring(res, password, minLen)
  {
    for i := 0 to |password|
      invariant forall a, b :: 0 <= a < i && a + minLen <= b <= |password| ==> !IsNamedEntity(res, password[a..b])
    {
      var j := i + minLen;
      while j <= |password|
        invariant i + minLen <= j
        invariant forall b :: i + minLen <= b < j && b <= |password| ==> !IsNamedEntity(res, password[i..b])
        decreases |password| + 1 - j
      {
        var labels := res.entities(password[i..j]);
        var k := 0;
        while k < |labels|
          invariant k <= |labels|
          invariant forall k' :: 0 <= k' < k ==> !IsNamedLabel(labels[k'])
        {
          if IsNamedLabel(labels[k]) {
            return true;
          }
          k := k + 1;
        }
        j := j + 1;
      }
    }
    return false;
  }

  /** Both searches find nothing in a password shorter than minLen. */
  lemma {:induction false} ShortPasswordHasNoSubstring(res: Resources, password: string, minLen: nat)
    requires |password| < minLen
    ensures !HasWordSubstring(res.words, password, minLen)
    ensures !HasNerSubstring(res, password, minLen)
  {
  }

  /** A password that contains a password with a dictionary slice has one too. */
  lemma {:induction false} WordSubstringMonotone(words: set<string>, s: string, a: string, b: string, minLen: nat)
    requires HasWordSubstring(words, s, minLen)
    ensures HasWordSubstring(words, a + s + b, minLen)
  {
    var i, j :| 0 <= i < |s| && i + minLen <= j <= |s| && Lower(s)[i..j] in words;
    LowerAppend(a, s);
    LowerAppend(a + s, b);
    var t := a + s + b;
    assert Lower(t)[i + |a|..j + |a|] == Lower(s)[i..j];
  }

  /** A password that contains a password with a named-entity slice has one too. */
  lemma {:induction false} NerSubstringMonotone(res: Resources, s: string, a: string, b: string, minLen: nat)
    requires HasNerSubstring(res, s, minLen)
    ensures HasNerSubstring(res, a + s + b, minLen)
  {
    var i, j :| 0 <= i < |s| && i + minLen <= j <= |s| && IsNamedEntity(res, s[i..j]);
    var t := a + s + b;
    assert t[i + |a|..j + |a|] == s[i..j];
  }

  /** A whole-word match is also a slice match when it is long enough, and
      any password containing "cat" finds it when "cat" is a word. */
  lemma {:induction false} WordSubstringExamples(words: set<string>, password: string, a: string, b: string)
    ensures IsEnglishWord(words, password) && |password| >= 3 ==>
            HasWordSubstring(words, password, 3)
    ensures "cat" in words ==> HasWordSubstring(words, a + "cat123" + b, 3)
  {
    if Lower(password) in words && |password| >= 3 {
      assert Lower(password)[0..|password|] == Lower(password);
    }
    if "cat" in words {
      assert Lower("cat123")[0..3] == "cat";
      WordSubstringMonotone(words, "cat123", a, b, 3);
    }
  }

  // ---------------------------------------------------------------------
  // The feature record

  /** The 13 features, in the order the extractor returns them and the
      classifier reads them positionally. */
  datatype Features = Features(
    alphabetCount: nat,
    digitCount: nat,
    specialCount: nat,
    uppercaseCount: nat,
    entropy: real,
    syllables: nat,
    isEnglishWord: nat,
    isPalindrome: nat,
    repeatCharRatio: real,
    nerCount: nat,
    hasKeyboardPattern: nat,
    containsNerSubstring: nat,
    containsEnglishWordSubstring: nat)

  /** Python's int(b). */
  function Indicator(b: bool): (r: nat)
    ensures r <= 1 && (r == 1 <==> b)
  {
    if b then 1 else 0
  }

  /** The feature record extract_password_features returns, with the default
      catalog and minimum substring length 3. */
  ghost function FeaturesOf(res: Resources, password: string): Features
    requires ValidResources(res)
  {
    Features(
      alphabetCount := Count(password, IsAlpha),
      digitCount := Count(password, IsDigit),
      specialCount := Count(password, IsPunctuation),
      uppercaseCount := Count(password, IsUpper),
      entropy := ShannonEntropy(res, password),
      syllables := CountSyllables(res, password),
      isEnglishWord := Indicator(IsEnglishWord(res.words, password)),
      isPalindrome := Indicator(IsPalindrome(password)),
      repeatCharRatio := CharRepeatRatio(password),
      nerCount := |res.entities(password)|,
      hasKeyboardPattern := Indicator(HasKeyboardWindow(password, KeyboardPatterns(), 3)),
      containsNerSubstring := Indicator(HasNerSubstring(res, password, 3)),
      containsEnglishWordSubstring := Indicator(HasWordSubstring(res.words, password, 3)))
  }

  /** extract_password_features */
  method ExtractPasswordFeatures(res: Resources, password: string) returns (f: Features)
    requires ValidResources(res)
    ensures f == FeaturesOf(res, password)
  {
    var nerCount := |res.entities(password)|;
    var keyboard := HasKeyboardPattern(password, KeyboardPatterns(), 3);
    var nerSubstring := ContainsNerSubstring(res, password, 3);
    var wordSubstring := ContainsEnglishWordSubstring(res.words, password, 3);
    f := Features(
      alphabetCount := Count(password, IsAlpha),
      digitCount := Count(password, IsDigit),
      specialCount := Count(password, IsPunctuation),
      uppercaseCount := Count(password, IsUpper),
      entropy := ShannonEntropy(res, password),
      syllables := CountSyllables(res, password),
      isEnglishWord := Indicator(IsEnglishWord(res.words, password)),
      isPalindrome := Indicator(IsPalindrome(password)),
      repeatCharRatio := CharRepeatRatio(password),
      nerCount := nerCount,
      hasKeyboardPattern := Indicator(keyboard),
      containsNerSubstring := Indicator(nerSubstring),
      containsEnglishWordSubstring := Indicator(wordSubstring));
  }

  /** Letters, digits and punctuation are disjoint classes, so together they
      count at most the length of the text. */
  lemma {:induction false} ClassCountsFit(s: string)
    ensures Count(s, IsAlpha) + Count(s, IsDigit) + Count(s, IsPunctuation) <= |s|
    decreases |s|
  {
    if s != [] {
      if IsPunctuation(s[0]) {
        PunctuationIsNotAlphanumeric(s[0]);
      }
      ClassCountsFit(s[1..]);
    }
  }

  /** The ranges of the features: each count is at most the length, the
      three character classes together too, uppercase letters are letters,
      the flags are 0 or 1 and the ratio lies in [0, 1]. */
  lemma {:induction false} FeatureRanges(res: Resources, password: string)
    requires ValidResources(res)
    ensures var f := FeaturesOf(res, password);
      f.alphabetCount + f.digitCount + f.specialCount <= |password| &&
      f.uppercaseCount <= f.alphabetCount &&
      f.isEnglishWord <= 1 && f.isPalindrome <= 1 && f.hasKeyboardPattern <= 1 &&
      f.containsNerSubstring <= 1 && f.containsEnglishWordSubstring <= 1 &&
      0.0 <= f.repeatCharRatio <= 1.0
  {
    var f := FeaturesOf(res, password);
    ClassCountsFit(password);
    assert f.uppercaseCount <= f.alphabetCount by {
      CountMono(password, IsUpper, IsAlpha);
    }
  }

  /** The empty password: the four class counts and the entity count are 0,
      entropy and ratio are 0.0, the keyboard and substring flags are 0, and
      it is a palindrome (flag 1). Its syllable count and word flag are 0
      unless the pronunciation table or the word list holds "". */
  lemma EmptyPasswordFeatures(res: Resources)
    requires ValidResources(res)
    ensures var f := FeaturesOf(res, "");
      f.alphabetCount == 0 && f.digitCount == 0 && f.specialCount == 0 && f.uppercaseCount == 0 &&
      f.entropy == 0.0 && f.repeatCharRatio == 0.0 && f.isPalindrome == 1 &&
      f.hasKeyboardPattern == 0 && f.containsNerSubstring == 0 && f.containsEnglishWordSubstring == 0 &&
      f.nerCount == 0 &&
      ("" !in res.pronunciations ==> f.syllables == 0) &&
      ("" !in res.words ==> f.isEnglishWord == 0)
  {
    ShortPasswordHasNoKeyboardWindow("", KeyboardPatterns(), 3);
    assert Lower("") == "";
    assert Lower(Reverse("")) == "";
  }
}
