/** The strong-password generator: rejection sampling. Each attempt draws
    five lowercase letters, three digits, three special characters and three
    uppercase letters, shuffles them, appends a folded dictionary word and a
    capitalised name, shuffles the whole, and keeps the result when its
    feature record passes thirteen checks. */
module Generator {
  import opened Ascii
  import opened Counting
  import opened FeatureExtractor
  import opened RandomModel

  /** How generate_strong_password ends: with an accepted password, with the
      IndexError random.choice raises on an empty word or name list, or (in
      this model only) with every allowed attempt rejected. */
  datatype Outcome = Password(value: string) | IndexError | GaveUp

  const AsciiLowercase: string := "abcdefghijklmnopqrstuvwxyz"
  const AsciiUppercase: string := "ABCDEFGHIJKLMNOPQRSTUVWXYZ"
  const Digits: string := "0123456789"

  /** The special characters the generator draws from. */
  const SpecialChars: string := "!@#$%^&*()-_=+[]{}|;:,.<>?/\\"

  predicate IsSpecial(c: char) { c in SpecialChars }

  /** Every special character is punctuation, hence neither letter nor digit. */
  lemma SpecialIsPunctuation(c: char)
    requires IsSpecial(c)
    ensures IsPunctuation(c) && !IsAlpha(c) && !IsDigit(c)
  {
    var k :| 0 <= k < |SpecialChars| && SpecialChars[k] == c;
    assert 0 <= k < 28;
  }

  /** The three alphabets drawn from hold lowercase letters, uppercase
      letters and digits. */
  lemma LowercaseAlphabet(c: char)
    requires c in AsciiLowercase
    ensures IsLower(c)
  {
    var k :| 0 <= k < 26 && AsciiLowercase[k] == c;
  }

  lemma UppercaseAlphabet(c: char)
    requires c in AsciiUppercase
    ensures IsUpper(c)
  {
    var k :| 0 <= k < 26 && AsciiUppercase[k] == c;
  }

  lemma DigitAlphabet(c: char)
    requires c in Digits
    ensures IsDigit(c)
  {
    var k :| 0 <= k < 10 && Digits[k] == c;
  }

  /** str.capitalize: the first character uppercased, the rest lowercased. */
  function Capitalize(w: string): (r: string)
    ensures |r| == |w|
  {
    if w == [] then [] else [ToUpper(w[0])] + Lower(w[1..])
  }

  /** Capitalising changes only case. */
  lemma {:induction false} CapitalizeKeepsLower(w: string)
    ensures Lower(Capitalize(w)) == Lower(w)
  {
    if w != [] {
      var c := Capitalize(w);
      forall i | 0 <= i < |w|
        ensures Lower(c)[i] == Lower(w)[i]
      {
        if i == 0 {
          assert c[0] == ToUpper(w[0]);
          assert ToLower(ToUpper(w[0])) == ToLower(w[0]);
        } else {
          assert c[i] == Lower(w[1..])[i - 1] == ToLower(w[i]);
        }
      }
    }
  }

  /** Capitalising twice is capitalising once. */
  lemma {:induction false} CapitalizeIdempotent(w: string)
    ensures Capitalize(Capitalize(w)) == Capitalize(w)
  {
    if w != [] {
      var c := Capitalize(w);
      LowerIdempotent(w[1..]);
      assert c[1..] == Lower(w[1..]);
      assert ToUpper(ToUpper(w[0])) == ToUpper(w[0]);
    }
  }

  /** A capitalised word starts with an uppercase letter when it starts
      with a letter, and has no uppercase letter after the first. */
  lemma {:induction false} CapitalizeCase(w: string)
    ensures w != [] && IsAlpha(w[0]) ==> IsUpper(Capitalize(w)[0])
    ensures forall i :: 1 <= i < |w| ==> !IsUpper(Capitalize(w)[i])
  {
    if w != [] {
      var c := Capitalize(w);
      assert c[0] == ToUpper(w[0]);
      forall i | 1 <= i < |w|
        ensures !IsUpper(c[i])
      {
        assert c[i] == Lower(w[1..])[i - 1] == ToLower(w[i]);
      }
    }
  }

  /** The 14 drawn characters: 5 lowercase letters, 3 digits, 3 special
      characters and 3 uppercase letters, in any order. */
  predicate IsBase(b: string)
  {
    |b| == 14 &&
    Count(b, IsLower) == 5 && Count(b, IsDigit) == 3 &&
    Count(b, IsSpecial) == 3 && Count(b, IsUpper) == 3
  }

  /** password rearranges the base followed by the folded word and the
      capitalised name. */
  predicate Rearranges(password: string, base: string, word: string, name: string)
  {
    multiset(password) == multiset(base + (Lower(word) + Capitalize(name)))
  }

  /** A candidate: a rearrangement of a base, a folded dictionary word and a
      capitalised name. */
  ghost predicate Constructed(password: string, wordList: seq<string>, nameList: seq<string>)
  {
    exists base, word, name ::
      IsBase(base) && word in wordList && name in nameList && Rearranges(password, base, word, name)
  }

  /** The four drawn groups, joined, form a base. */
  lemma {:induction false} JoinedIsBase(letters: string, digits: string, specials: string, uppers: string)
    requires |letters| == 5 && |digits| == 3 && |specials| == 3 && |uppers| == 3
    requires forall i :: 0 <= i < 5 ==> IsLower(letters[i])
    requires forall i :: 0 <= i < 3 ==> IsDigit(digits[i])
    requires forall i :: 0 <= i < 3 ==> IsSpecial(specials[i])
    requires forall i :: 0 <= i < 3 ==> IsUpper(uppers[i])
    ensures IsBase(letters + digits + specials + uppers)
  {
    forall i | 0 <= i < 3
      ensures !IsLower(specials[i]) && !IsUpper(specials[i]) && !IsDigit(specials[i])
    {
      SpecialIsPunctuation(specials[i]);
    }
    forall i | 0 <= i < 5
      ensures !IsSpecial(letters[i])
    {
      if IsSpecial(letters[i]) { SpecialIsPunctuation(letters[i]); }
    }
    forall i | 0 <= i < 3
      ensures !IsSpecial(digits[i]) && !IsSpecial(uppers[i])
    {
      if IsSpecial(digits[i]) { SpecialIsPunctuation(digits[i]); }
      if IsSpecial(uppers[i]) { SpecialIsPunctuation(uppers[i]); }
    }
    CountFull(letters, IsLower);
    CountZero(digits, IsLower);
    CountZero(specials, IsLower);
    CountZero(uppers, IsLower);
    CountOfFour(letters, digits, specials, uppers, IsLower);

    CountZero(letters, IsDigit);
    CountFull(digits, IsDigit);
    CountZero(specials, IsDigit);
    CountZero(uppers, IsDigit);
    CountOfFour(letters, digits, specials, uppers, IsDigit);

    CountZero(letters, IsSpecial);
    CountZero(digits, IsSpecial);
    CountFull(specials, IsSpecial);
    CountZero(uppers, IsSpecial);
    CountOfFour(letters, digits, specials, uppers, IsSpecial);

    CountZero(letters, IsUpper);
    CountZero(digits, IsUpper);
    CountZero(specials, IsUpper);
    CountFull(uppers, IsUpper);
    CountOfFour(letters, digits, specials, uppers, IsUpper);
  }

  lemma {:induction false} CountOfFour(a: string, b: string, c: string, d: string, p: char -> bool)
    ensures Count(a + b + c + d, p) == Count(a, p) + Count(b, p) + Count(c, p) + Count(d, p)
  {
    CountAppend(a + b + c, d, p);
    CountAppend(a + b, c, p);
    CountAppend(a, b, p);
  }

  /** A rearrangement of base + rest counts at least what base counts. */
  lemma {:induction false} CountInCandidate(password: string, base: string, rest: string, p: char -> bool)
    requires multiset(password) == multiset(base + rest)
    ensures Count(password, p) >= Count(base, p)
  {
    CountPermutation(password, base + rest, p);
    CountAppend(base, rest, p);
  }

  /** Rearranging a base gives a base. */
  lemma {:induction false} BasePermutation(b: string, c: string)
    requires IsBase(b) && multiset(b) == multiset(c)
    ensures IsBase(c)
  {
    assert |c| == |multiset(c)| == |multiset(b)| == |b|;
    CountPermutation(b, c, IsLower);
    CountPermutation(b, c, IsDigit);
    CountPermutation(b, c, IsSpecial);
    CountPermutation(b, c, IsUpper);
  }

  /** The first half of an attempt: draw the four groups, join them and
      shuffle the joined list in place. */
  method DrawBase(rng: RandomSource) returns (base: string)
    modifies rng
    ensures IsBase(base)
  {
    var letters := Choices(AsciiLowercase, 5, rng);
    var digits := Choices(Digits, 3, rng);
    var specials := Choices(SpecialChars, 3, rng);
    var uppers := Choices(AsciiUppercase, 3, rng);
    forall i | 0 <= i < 5 ensures IsLower(letters[i]) { LowercaseAlphabet(letters[i]); }
    forall i | 0 <= i < 3 ensures IsDigit(digits[i]) && IsUpper(uppers[i])
    {
      DigitAlphabet(digits[i]);
      UppercaseAlphabet(uppers[i]);
    }
    var joined := letters + digits + specials + uppers;
    JoinedIsBase(letters, digits, specials, uppers);

    var a := new char[14](i requires 0 <= i < 14 => joined[i]);
    assert a[..] == joined;
    Shuffle(a, rng);
    base := a[..];
    BasePermutation(joined, base);
  }

  /** One attempt's construction: a base, then a folded word and a
      capitalised name appended, and the whole shuffled. */
  method BuildCandidate(wordList: seq<string>, nameList: seq<string>, rng: RandomSource)
    returns (base: string, word: string, nerWord: string, password: string)
    requires |wordList| > 0 && |nameList| > 0
    modifies rng
    ensures IsBase(base)
    ensures exists k :: 0 <= k < |wordList| && word == Lower(wordList[k])
    ensures exists k :: 0 <= k < |nameList| && nerWord == Capitalize(nameList[k])
    ensures multiset(password) == multiset(base + word + nerWord)
    ensures |password| == 14 + |word| + |nerWord|
    ensures Constructed(password, wordList, nameList)
  {
    base := DrawBase(rng);
    var wordIndex := rng.RandBelow(|wordList|);
    word := Lower(wordList[wordIndex]);
    var nameIndex := rng.RandBelow(|nameList|);
    nerWord := Capitalize(nameList[nameIndex]);

    password := Sample(base + (word + nerWord), rng);
    assert base + (word + nerWord) == base + word + nerWord;
    RearrangedLength(password, base, wordList[wordIndex], nameList[nameIndex]);
    DrawnCandidate(password, base, wordList, nameList, wordIndex, nameIndex);
  }

  /** A rearrangement of a base, the folded word at wi and the capitalised
      name at ni is a candidate. */
  lemma {:induction false} DrawnCandidate(password: string, base: string, wordList: seq<string>,
                                          nameList: seq<string>, wi: nat, ni: nat)
    requires IsBase(base) && wi < |wordList| && ni < |nameList|
    requires Rearranges(password, base, wordList[wi], nameList[ni])
    ensures Constructed(password, wordList, nameList)
  {
    assert wordList[wi] in wordList && nameList[ni] in nameList;
  }

  /** A rearrangement is as long as the base, the word and the name together. */
  lemma {:induction false} RearrangedLength(password: string, base: string, word: string, name: string)
    requires Rearranges(password, base, word, name)
    ensures |password| == |base| + |word| + |name|
  {
    var joined := base + (Lower(word) + Capitalize(name));
    assert |password| == |multiset(password)| == |multiset(joined)| == |joined|;
  }

  /** The acceptance test: all thirteen checks on the feature record. */
  predicate Accepted(f: Features)
  {
    f.alphabetCount >= 8 &&
    f.digitCount >= 2 &&
    f.specialCount >= 2 &&
    f.uppercaseCount >= 2 &&
    f.entropy > 3.5 &&
    f.syllables >= 3 &&
    f.isEnglishWord == 0 &&
    f.isPalindrome == 0 &&
    f.repeatCharRatio < 0.3 &&
    f.nerCount > 0 &&
    f.hasKeyboardPattern == 0 &&
    f.containsNerSubstring == 1 &&
    f.containsEnglishWordSubstring == 1
  }

  /** generate_strong_password: draw candidates until one is accepted. The
      unbounded loop is bounded here by maxAttempts; running out yields
      GaveUp. The length argument is never read. The ghost rejected lists the
      candidates turned down, in order. */
  method GenerateStrongPassword(length: int, res: Resources, wordList: seq<string>, nameList: seq<string>,
                                rng: RandomSource, maxAttempts: nat)
    returns (r: Outcome, ghost rejected: seq<string>)
    requires ValidResources(res)
    modifies rng
    ensures r.IndexError? <==> maxAttempts > 0 && (|wordList| == 0 || |nameList| == 0)
    ensures r.Password? ==> Accepted(FeaturesOf(res, r.value))
    ensures r.Password? ==> Constructed(r.value, wordList, nameList)
    ensures r.GaveUp? ==> |rejected| == maxAttempts
    ensures forall c :: c in rejected ==> Constructed(c, wordList, nameList) && !Accepted(FeaturesOf(res, c))
  {
    rejected := [];
    for attempt := 0 to maxAttempts
      invariant attempt > 0 ==> |wordList| > 0 && |nameList| > 0
      invariant |rejected| == attempt
      invariant forall c :: c in rejected ==> Constructed(c, wordList, nameList) && !Accepted(FeaturesOf(res, c))
    {
      if |wordList| == 0 || |nameList| == 0 {
        // The base is drawn first, then the word when there are words;
        // random.choice raises on the first empty list.
        var base := DrawBase(rng);
        if |wordList| > 0 {
          var wordIndex := rng.RandBelow(|wordList|);
        }
        return IndexError, rejected;
      }
      var base, word, nerWord, password := BuildCandidate(wordList, nameList, rng);
      var features := ExtractPasswordFeatures(res, password);
      if Accepted(features) {
        return Password(password), rejected;
      }
      rejected := rejected + [password];
    }
    return GaveUp, rejected;
  }

  /** Every candidate passes the four class checks on its own: the base alone
      holds 8 letters, 3 digits, 3 punctuation characters and 3 uppercase
      letters, and the word and name only add to these counts. */
  lemma {:induction false} ConstructedClassCounts(res: Resources, password: string, wordList: seq<string>, nameList: seq<string>)
    requires ValidResources(res)
    requires Constructed(password, wordList, nameList)
    ensures var f := FeaturesOf(res, password);
      f.alphabetCount >= 8 && f.digitCount >= 3 && f.specialCount >= 3 && f.uppercaseCount >= 3
  {
    ConstructedCounts(password, wordList, nameList);
    var f := FeaturesOf(res, password);
    assert f.alphabetCount == Count(password, IsAlpha);
    assert f.digitCount == Count(password, IsDigit);
    assert f.specialCount == Count(password, IsPunctuation);
    assert f.uppercaseCount == Count(password, IsUpper);
  }

  lemma {:induction false} ConstructedCounts(password: string, wordList: seq<string>, nameList: seq<string>)
    requires Constructed(password, wordList, nameList)
    ensures Count(password, IsAlpha) >= 8 && Count(password, IsDigit) >= 3
    ensures Count(password, IsPunctuation) >= 3 && Count(password, IsUpper) >= 3
  {
    var base, word, name :| IsBase(base) && word in wordList && name in nameList &&
      Rearranges(password, base, word, name);
    CandidateCounts(password, base, Lower(word) + Capitalize(name));
  }

  /** A candidate is 14 characters longer than its word and name together,
      whatever length was asked for. */
  lemma {:induction false} ConstructedLength(password: string, wordList: seq<string>, nameList: seq<string>)
    requires Constructed(password, wordList, nameList)
    ensures exists word, name :: word in wordList && name in nameList && |password| == 14 + |word| + |name|
  {
    var base, word, name :| IsBase(base) && word in wordList && name in nameList &&
      Rearranges(password, base, word, name);
    RearrangedLength(password, base, word, name);
  }

  /** A rearrangement of a base followed by more text holds at least the
      base's letters, digits, punctuation and uppercase letters. */
  lemma {:induction false} CandidateCounts(password: string, base: string, rest: string)
    requires IsBase(base) && multiset(password) == multiset(base + rest)
    ensures Count(password, IsAlpha) >= 8 && Count(password, IsDigit) >= 3
    ensures Count(password, IsPunctuation) >= 3 && Count(password, IsUpper) >= 3
    ensures |password| == 14 + |rest|
  {
    assert |password| == |multiset(password)| == |base + rest|;
    assert Count(password, IsAlpha) >= 8 by {
      CountInCandidate(password, base, rest, IsAlpha);
      LettersAreLowerOrUpper(base);
    }
    assert Count(password, IsDigit) >= 3 by {
      CountInCandidate(password, base, rest, IsDigit);
    }
    assert Count(password, IsPunctuation) >= 3 by {
      CountInCandidate(password, base, rest, IsPunctuation);
      SpecialsArePunctuation(base);
    }
    CountInCandidate(password, base, rest, IsUpper);
  }

  lemma {:induction false} LettersAreLowerOrUpper(s: string)
    ensures Count(s, IsAlpha) == Count(s, IsLower) + Count(s, IsUpper)
  {
    CountDisjointUnion(s, IsLower, IsUpper, IsAlpha);
  }

  lemma {:induction false} SpecialsArePunctuation(s: string)
    ensures Count(s, IsSpecial) <= Count(s, IsPunctuation)
  {
    if s != [] {
      if IsSpecial(s[0]) {
        SpecialIsPunctuation(s[0]);
      }
      SpecialsArePunctuation(s[1..]);
    }
  }

  /** For a candidate, acceptance comes down to the nine checks that are not
      settled by construction, with the ratio check as the integer condition
      10 * count < 3 * length. */
  lemma {:induction false} AcceptanceOfCandidate(res: Resources, password: string, wordList: seq<string>, nameList: seq<string>)
    requires ValidResources(res)
    requires Constructed(password, wordList, nameList)
    ensures |password| > 0
    ensures var f := FeaturesOf(res, password);
      Accepted(f) <==>
        f.entropy > 3.5 && f.syllables >= 3 && f.isEnglishWord == 0 && f.isPalindrome == 0 &&
        10 * MostCommonCount(Lower(password)) < 3 * |password| &&
        f.nerCount > 0 && f.hasKeyboardPattern == 0 &&
        f.containsNerSubstring == 1 && f.containsEnglishWordSubstring == 1
  {
    ConstructedClassCounts(res, password, wordList, nameList);
    RepeatRatioThreshold(password);
  }
}
