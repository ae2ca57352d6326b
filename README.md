# Password strength analyzer: feature extractor and strong-password generator

This project models two parts of the password strength analyzer in Dafny and proves properties of them.

- **The feature extractor** turns a password into a record of 13 numeric features. The features are:
  - counts of letters, digits, punctuation and uppercase letters;
  - Shannon entropy;
  - syllable count;
  - flags for "is an English word", "is a palindrome", "contains a keyboard pattern", "contains a named-entity substring" and "contains an English-word substring";
  - the ratio of the most repeated character;
  - the number of named entities.
- **The generator** works by rejection sampling:
  1. It draws 5 lowercase letters, 3 digits, 3 special characters and 3 uppercase letters.
  2. It shuffles them.
  3. It appends a folded dictionary word and a capitalised name.
  4. It shuffles everything again.
  5. It keeps the result only when the extractor's record passes thirteen checks.

Modules:

- `Ascii`: Python's ASCII character classes (`isalpha`, `isdigit`, `isupper`, `string.punctuation`) and case folding.
- `Counting`: counting the elements that satisfy a predicate, i.e. `sum(p(c) for c in s)`.
- `FeatureExtractor`: the helper functions and `extract_password_features`.
  - The word list, the pronunciation table and the named-entity recogniser form a read-only `Resources` value.
  - The recogniser is an oracle from text to entity labels.
  - Floating-point entropy is an oracle from non-empty text to a real.
- `RandomModel`: the parts of Python's `random` module the generator uses.
  - The generator's hidden state is the class `RandomSource`. It holds a fixed stream of draws, which is what the seed determines, and a call counter.
  - `shuffle` is Fisher–Yates, in place, on an array.
  - `sample` is CPython's pool algorithm.
- `Generator`: `generate_strong_password`, its acceptance test, and what every candidate satisfies by construction.

The source's loops are methods with loops. What each one is proved to do:

- `has_keyboard_pattern`, `contains_english_word_substring` and `contains_ner_substring`: each is proved equal to a declarative specification. For example, the keyboard search returns true exactly when some window of some catalog entry occurs in the folded password. Further properties are proved about those specifications.
- `random.shuffle` and `random.sample`: each is proved to rearrange its input, keeping the same multiset of characters.
- The attempt loop of `generate_strong_password`: any password it returns is proved to pass all thirteen checks and to be built from a base, a listed word and a listed name. Every candidate it turns down is proved to be constructed and rejected, and it gives up only after `maxAttempts` such rejections. It raises IndexError exactly when at least one attempt is allowed and the word list or the name list is empty.

Two edge cases are proved as facts:

- `PalindromeExamples`: the empty password is a palindrome, because `"" == ""[::-1]`. So its `is_palindrome` feature is 1 (`EmptyPasswordFeatures`).
- `KeyboardExamples`: `"xyz123q"` contains a keyboard pattern, because it contains `"123"`, a window of `"1234567890"`.

## Model

| member | source | states |
|---|---|---|
| Ascii.IsAlpha | feature_extractor.py:106 | `str.isalpha` on ASCII: a lowercase or uppercase letter (definition; `CountMono` and `LettersAreLowerOrUpper` relate its count to the others) |
| Ascii.IsDigit | feature_extractor.py:107 | `str.isdigit` on ASCII: '0' to '9' (definition; `PunctuationIsNotAlphanumeric` separates it from punctuation) |
| Ascii.IsPunctuation | feature_extractor.py:108 | membership in `string.punctuation`: the four ranges of printable ASCII symbols (definition; characterised by `PunctuationIsNotAlphanumeric` and `SpecialIsPunctuation`) |
| Ascii.IsLower | generate_password.py:35 | the class of `string.ascii_lowercase`: 'a' to 'z' (definition; `LowercaseAlphabet` places the alphabet in it and `IsBase` counts it) |
| Ascii.IsUpper | feature_extractor.py:109 | `str.isupper` on one ASCII character: 'A' to 'Z' (definition; `CountMono` gives uppercase count <= letter count) |
| Ascii.Lower | feature_extractor.py:29 | `str.lower` keeps the length, folds each character by `ToLower`, and leaves no uppercase letter |
| Ascii.ToLower | feature_extractor.py:29 | folding maps an uppercase ASCII letter to its lowercase partner (code point + 32) and leaves every other character alone |
| Ascii.ToUpper | generate_password.py:45 | the first-character step of `str.capitalize`: a lowercase ASCII letter becomes its uppercase partner (code point - 32) and every other character stays |
| Ascii.LowerIdempotent | feature_extractor.py:33 | folding the already folded word again (`word.lower()` twice) changes nothing |
| Ascii.FlipCaseSameLower | feature_extractor.py:47 | changing the case of any one character leaves the folded text unchanged |
| Ascii.PunctuationIsNotAlphanumeric | feature_extractor.py:106-108 | a `string.punctuation` character is neither a letter nor a digit |
| Counting.Count | feature_extractor.py:106-109 | `sum(p(c) for c in s)` is at most the length of s |
| Counting.CountZero | feature_extractor.py:106-109 | a count is 0 exactly when no character satisfies the test |
| Counting.CountFull | feature_extractor.py:106-109 | a count equals the length exactly when every character satisfies the test |
| Counting.CountAppend | generate_password.py:40 | counting over joined lists adds the counts of the parts |
| Counting.CountMono | feature_extractor.py:106-109 | a test implied by another counts at least as much, e.g. uppercase letters are at most all letters |
| Counting.CountDisjointUnion | feature_extractor.py:106-108 | a test that is the disjoint union of two tests counts their sum |
| Counting.CountRemove | generate_password.py:48 | taking one element out of a list lowers a count by that element's own contribution |
| Counting.CountPermutation | generate_password.py:41-48 | counts do not change when the characters are rearranged, as the two shuffles do |
| FeatureExtractor.ShannonEntropy | feature_extractor.py:21-25 | the empty string has entropy 0.0; otherwise the entropy is the value of the entropy oracle |
| FeatureExtractor.IsStressed | feature_extractor.py:31 | `y[-1].isdigit()`: a phone whose last character is a digit carries stress (definition) |
| FeatureExtractor.StressCount | feature_extractor.py:31 | `len([y for y in x if y[-1].isdigit()])`: the number of stressed phones of one pronunciation, as a `Count` (definition; `MaxStress` takes the largest) |
| FeatureExtractor.MaxStress | feature_extractor.py:31 | the result is the stressed-phone count of one of the pronunciations and no pronunciation has more |
| FeatureExtractor.IsVowel | feature_extractor.py:33 | the character class `[aeiouy]` (definition; used by `VowelRuns` and `RunStarts`) |
| FeatureExtractor.SkipVowels | feature_extractor.py:33 | what is dropped is a prefix of vowels, and what remains starts with a non-vowel |
| FeatureExtractor.VowelRunsZero | feature_extractor.py:33 | `[aeiouy]+` has no match exactly when the text has no vowel |
| FeatureExtractor.VowelRunsBound | feature_extractor.py:33 | maximal vowel runs number at most half the length, rounded up, and at most half when the text starts with a non-vowel |
| FeatureExtractor.VowelRuns | feature_extractor.py:33 | `len(re.findall(r'[aeiouy]+', s))`, counted as maximal runs (definition; `VowelRunsAreRunStarts` equates it with an independent count) |
| FeatureExtractor.RunStarts | feature_extractor.py:33 | the independent count for `re.findall(r'[aeiouy]+', s)`: vowels not preceded by a vowel, scanned one character at a time (definition; `VowelRunsAreRunStarts` equates it with `VowelRuns`) |
| FeatureExtractor.RunStartsSkipVowels | feature_extractor.py:33 | after a vowel, a further run of vowels starts no new match |
| FeatureExtractor.VowelRunsAreRunStarts | feature_extractor.py:33 | the number of maximal vowel runs equals the number of vowels not preceded by a vowel, counted one character at a time |
| FeatureExtractor.CountSyllables | feature_extractor.py:28-33 | for a word in the table: the largest stressed-phone count over its pronunciations; otherwise: exactly `VowelRuns` of the folded word, which is 0 exactly when it has no vowel and is at most (len + 1) / 2 |
| FeatureExtractor.FoldedVowelRuns | feature_extractor.py:33 | the vowel-run fallback on a folded word is bounded by half its length, rounded up, and is 0 exactly when no folded character is a vowel |
| FeatureExtractor.IsEnglishWord | feature_extractor.py:36-37 | the folded word is in the word set (definition; `WordSubstringExamples` shows a long enough whole-word match is also a slice match) |
| FeatureExtractor.IsPalindrome | feature_extractor.py:40-41 | the folded word equals its folded reverse (definition; characterised by `PalindromeMirrors`) |
| FeatureExtractor.Reverse | feature_extractor.py:41 | `s[::-1]` has the same length and position i holds s[len - 1 - i] |
| FeatureExtractor.PalindromeMirrors | feature_extractor.py:40-41 | `is_palindrome` holds exactly when each character equals its mirror, ignoring case |
| FeatureExtractor.PalindromeExamples | feature_extractor.py:40-41 | "AbaBA", the empty string and every one-character string are palindromes and "Abc" is not |
| FeatureExtractor.MostCommonCount | feature_extractor.py:47-48 | `most_common(1)[0][1]` is the occurrence count of a character of the text, no character occurs more often, and it lies between 1 and the length |
| FeatureExtractor.CharRepeatRatio | feature_extractor.py:44-49 | the ratio is 0.0 for the empty word; otherwise it equals the most-common count of the folded word divided by the length, and lies between 1/len and 1 |
| FeatureExtractor.RepeatRatioIgnoresCase | feature_extractor.py:47 | flipping the case of any letter does not change the ratio |
| FeatureExtractor.RepeatRatioThreshold | feature_extractor.py:49 | for a non-empty word, ratio < 0.3 exactly when 10 * most-common count < 3 * length |
| FeatureExtractor.KeyboardPatterns | feature_extractor.py:52-68 | `get_keyboard_patterns()`: 40 entries, each 2 to 16 characters long |
| FeatureExtractor.IsSubstring | feature_extractor.py:78 | Python's `sub in pw`: sub occurs at some position of pw (definition; `HasKeyboardPattern` is proved against it) |
| FeatureExtractor.Window | feature_extractor.py:77 | `pattern[i:i+min_len]`: the window of min_len characters starting at i, exactly min_len long |
| FeatureExtractor.HasKeyboardPattern | feature_extractor.py:71-80 | the scan returns true exactly when some window of length min_len of some catalog entry occurs in the folded password |
| FeatureExtractor.ShortPasswordHasNoKeyboardWindow | feature_extractor.py:71-80 | a password shorter than min_len has no keyboard pattern |
| FeatureExtractor.LongEntries | feature_extractor.py:76 | keeps exactly the catalog entries with at least min_len characters |
| FeatureExtractor.ShortEntriesNeverMatch | feature_extractor.py:76 | entries shorter than min_len have an empty window range, so dropping them does not change the answer |
| FeatureExtractor.ShortCatalogEntries | feature_extractor.py:52-68 | the only catalog entries shorter than 3 are "<>", "><", "()" and ")(" |
| FeatureExtractor.KeyboardExamples | feature_extractor.py:52-80 | "xqwertyz" (via "qwe") and "xyz123q" (via "123") both contain a keyboard pattern |
| FeatureExtractor.ContainsEnglishWordSubstring | feature_extractor.py:83-89 | the scan returns true exactly when some slice pw[i:j] of the folded password, with i < len and j - i >= min_len, is a dictionary word |
| FeatureExtractor.IsNamedLabel | feature_extractor.py:97 | `ent.label_ in ['PERSON', 'ORG', 'GPE', 'LOC']` (definition) |
| FeatureExtractor.IsNamedEntity | feature_extractor.py:96-97 | `any(...)` over the recogniser's entity labels of a text: some label is named (definition; `ContainsNerSubstring` is proved against it) |
| FeatureExtractor.ContainsNerSubstring | feature_extractor.py:92-99 | the scan returns true exactly when the recogniser finds a PERSON, ORG, GPE or LOC entity in some slice, in the original case, of at least min_len characters |
| FeatureExtractor.ShortPasswordHasNoSubstring | feature_extractor.py:83-99 | neither substring search succeeds on a password shorter than min_len |
| FeatureExtractor.WordSubstringMonotone | feature_extractor.py:83-89 | adding characters before and after a password keeps a dictionary slice found |
| FeatureExtractor.NerSubstringMonotone | feature_extractor.py:92-99 | adding characters before and after a password keeps a named-entity slice found |
| FeatureExtractor.WordSubstringExamples | feature_extractor.py:36-37 | a whole-word match of at least 3 characters is also a slice match, and "cat" is found inside any password containing "cat123" |
| FeatureExtractor.Indicator | feature_extractor.py:127-132 | `int(b)` is 0 or 1, and 1 exactly when b holds |
| FeatureExtractor.FeaturesOf | feature_extractor.py:104-134 | the 13 features in the source's key order, with the default catalog and min_len 3 (definition; `FeatureRanges` and `EmptyPasswordFeatures` are about it) |
| FeatureExtractor.ExtractPasswordFeatures | feature_extractor.py:104-134 | the returned record is the thirteen features of the password, with the default catalog and min_len 3 |
| FeatureExtractor.ClassCountsFit | feature_extractor.py:106-108 | letters, digits and punctuation together number at most the password's length |
| FeatureExtractor.FeatureRanges | feature_extractor.py:104-134 | in every record the class counts fit in the length, uppercase count <= letter count, each flag is 0 or 1 and the ratio lies in [0, 1] |
| FeatureExtractor.EmptyPasswordFeatures | feature_extractor.py:104-134 | the empty password has the four class counts, `ner_count`, entropy, ratio, keyboard flag and substring flags 0 and the palindrome flag 1; its syllable count and word flag are 0 unless the pronunciation table or the word list holds "" |
| RandomModel.RandomSource.RandBelow | generate_password.py:44-45 | an index below n, taken from the next draw of the stream, and the draw counter advances by one |
| RandomModel.Choices | generate_password.py:35-38 | `random.choices(population, k=k)` returns k characters, each taken from the population |
| RandomModel.Shuffle | generate_password.py:41 | `random.shuffle` permutes the list in place: the same multiset of characters |
| RandomModel.TakeFromPool | generate_password.py:48 | taking one element out of the pool and moving the last element into the hole leaves the rest of the pool |
| RandomModel.Sample | generate_password.py:48 | `random.sample(s, len(s))` returns a rearrangement of s: the same multiset of characters |
| Generator.IsSpecial | generate_password.py:13 | membership in `special_chars` (definition; `SpecialIsPunctuation` places it inside `string.punctuation`) |
| Generator.SpecialIsPunctuation | generate_password.py:13 | every generator special character is in `string.punctuation`, so it is counted as special and never as a letter or digit |
| Generator.LowercaseAlphabet | generate_password.py:35 | every character of `string.ascii_lowercase` is a lowercase letter |
| Generator.DigitAlphabet | generate_password.py:36 | every character of `string.digits` is a digit |
| Generator.UppercaseAlphabet | generate_password.py:38 | every character of `string.ascii_uppercase` is an uppercase letter |
| Generator.Capitalize | generate_password.py:45 | `str.capitalize`: same length, first character uppercased and the rest lowercased (characterised by `CapitalizeKeepsLower`, `CapitalizeIdempotent` and `CapitalizeCase`) |
| Generator.CapitalizeKeepsLower | generate_password.py:45 | `capitalize` changes only case: the folded name is unchanged |
| Generator.CapitalizeIdempotent | generate_password.py:45 | capitalising twice is capitalising once |
| Generator.CapitalizeCase | generate_password.py:45 | `capitalize` uppercases a leading letter and leaves no uppercase letter after the first character |
| Generator.IsBase | generate_password.py:35-41 | the 14 drawn characters: 5 lowercase letters, 3 digits, 3 special characters and 3 uppercase letters, in any order (definition; `JoinedIsBase` and `BasePermutation` establish it) |
| Generator.Constructed | generate_password.py:35-48 | a rearrangement of a base, a listed word folded and a listed name capitalised (definition; `BuildCandidate` establishes it and `ConstructedCounts` and `ConstructedLength` use it) |
| Generator.JoinedIsBase | generate_password.py:35-40 | the joined draws hold exactly 5 lowercase letters, 3 digits, 3 special characters and 3 uppercase letters, 14 in all |
| Generator.BasePermutation | generate_password.py:41 | a rearranged base is still a base |
| Generator.DrawBase | generate_password.py:35-41 | the drawn and shuffled base has length 14 with 5 lowercase letters, 3 digits, 3 specials and 3 uppercase letters |
| Generator.BuildCandidate | generate_password.py:35-48 | a candidate rearranges a base, a folded word of the word list and a capitalised name of the name list, and its length is 14 + the word's + the name's |
| Generator.DrawnCandidate | generate_password.py:44-48 | a rearrangement of a base, a listed word folded and a listed name capitalised is a candidate |
| Generator.RearrangedLength | generate_password.py:47-48 | the shuffled password is as long as the base, the word and the name together |
| Generator.Accepted | generate_password.py:54-68 | the thirteen checks on the feature record (definition; `AcceptanceOfCandidate` reduces it to nine for candidates) |
| Generator.GenerateStrongPassword | generate_password.py:32-69 | a returned password passes all thirteen checks on its feature record and was built from a base, a listed word and a listed name; every candidate turned down is constructed and fails the checks, and GaveUp comes only after `maxAttempts` of them; the run ends in IndexError exactly when `maxAttempts > 0` and the word or name list is empty |
| Generator.ConstructedCounts | generate_password.py:35-48 | every candidate holds at least 8 letters, 3 digits, 3 punctuation characters and 3 uppercase letters |
| Generator.ConstructedClassCounts | generate_password.py:54-58 | so the four class checks (>= 8, >= 2, >= 2, >= 2) always pass for a candidate |
| Generator.CandidateCounts | generate_password.py:40-48 | any rearrangement of a base followed by more text keeps the base's class counts as lower bounds and is 14 characters longer than the added text |
| Generator.ConstructedLength | generate_password.py:32-48 | a candidate's length is 14 + the word's length + the name's length, whatever `length` asks for |
| Generator.AcceptanceOfCandidate | generate_password.py:54-69 | for a candidate, acceptance holds exactly when the nine checks not settled by construction hold, with the ratio check as 10 * most-common count < 3 * length |

## Left out

- Shannon entropy's floating-point value (feature_extractor.py:24-25) is taken from an oracle in `Resources`. The model only fixes 0.0 for the empty string. Logarithms and floating point are not modelled.
- The spaCy recogniser (`nlp`) is an oracle from text to the sequence of its entity labels (`ent.label_`). `ner_count` is the number of spans it reports. It reports no entity in the empty text, as spaCy does.
- Loading the resources (the nltk downloads, `words`, `cmudict`, `names`, `spacy.load`) is I/O and is left out. The word set, pronunciation table, word list and name list are parameters.
- The pronunciation table must be well formed: every entry has a pronunciation and no phone is empty. cmudict satisfies this, and otherwise the source raises.
- Floating point in `char_repeat_ratio`: the ratio is the exact rational count / length. `RepeatRatioThreshold` states the threshold on those exact values.
- Case folding and character classes cover ASCII only. Python's Unicode-aware `lower`, `isalpha`, `isdigit` and `isupper` are not modelled for other characters.
- A negative `min_len` is not modelled; `min_len` is a natural number. The extractor always uses 3.
- Generator.GenerateStrongPassword: the source loops forever until a candidate is accepted. The model tries at most `maxAttempts` candidates and returns GaveUp when all are rejected. It does not state that a password is eventually found, which depends on the distribution of the draws.
- Generator.GenerateStrongPassword: the `length` argument is accepted and, as in the source, never read.
- RandomModel.Choices: requires a non-empty population, where Python raises IndexError on an empty one. The generator only calls it on its four non-empty alphabets.
- Generator.BuildCandidate: requires non-empty word and name lists, where `random.choice` raises IndexError on an empty one. `GenerateStrongPassword` checks for that case first and returns IndexError.
- Randomness is a fixed stream of draws. Every random index is the next draw reduced below its bound. CPython derives `choices` from `floor(random() * n)` and `choice`, `shuffle` and `sample` from `_randbelow`. The model does not tell these apart and says nothing about the distribution.
- `random.choice(list(english_words))` depends on the iteration order of a Python set. The model takes the word list and name list as sequences in some fixed order.
- `random.sample` has a second, set-based algorithm. CPython uses it only when k is small relative to n, never when k equals n as here, so it is not modelled.
- The generator's own `keyboard_patterns` list (generate_password.py:15-30) is never used. The extractor uses its own copy of the catalog.
- The web application, the classifier, and the dataset-balancing script (app.py, model.py, create_balanced.py) are not part of this model.
