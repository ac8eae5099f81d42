/**
  Properties of the popup's state changes and of the AI generator: the flag
  toggle flips one flag, the theme cycles with period three, saving never
  needs its own truncation, quick insert splices the selection, and the
  offline answers of the generator, as written and as intended.
*/
module PopupLemmas {
  import opened Js
  import opened Explainer
  import opened ExplainerLemmas
  import opened Popup

  // ---------------------------------------------------------------------------
  // Flag toggles

  lemma {:induction false} WithoutNoDup(flags: seq<string>, f: string)
    requires NoDup(flags)
    ensures NoDup(Without(flags, f))
  {
    if flags != [] {
      var t := flags[1..];
      NoDupTail(flags);
      WithoutNoDup(t, f);
      var rest := Without(t, f);
      if flags[0] != f {
        NoDupCons(flags[0], rest);
      } else {
        assert [] + rest == rest;
      }
    }
  }

  /** The active flags stay a set: no flag is ever listed twice. */
  lemma ToggleNoDup(flags: seq<string>, f: string)
    requires NoDup(flags)
    ensures NoDup(Toggle(flags, f))
  {
    if f in flags {
      WithoutNoDup(flags, f);
    } else {
      var r := flags + [f];
      forall i, j | 0 <= i < j < |r| ensures r[i] != r[j] {
        if j == |flags| {
          assert r[i] == flags[i];
        }
      }
    }
  }

  /** Two clicks on the same flag restore the set of active flags. */
  lemma ToggleTwice(flags: seq<string>, f: string)
    ensures forall x :: x in Toggle(Toggle(flags, f), f) <==> x in flags
  {
    var once := Toggle(flags, f);
    assert forall x :: x in once <==> if x == f then f !in flags else x in flags;
  }

  /** The set is restored but not its order: the flag string changes from
      "gi" to "ig". */
  lemma ToggleReorders()
    ensures Toggle(Toggle(["g", "i"], "g"), "g") == ["i", "g"]
    ensures FlagString(["g", "i"]) == "gi" && FlagString(["i", "g"]) == "ig"
  {
    var once := Toggle(["g", "i"], "g");
    assert once == ["i"] by {
      assert Without(["g", "i"], "g") == [] + Without(["i"], "g");
      assert Without(["i"], "g") == ["i"] + Without([], "g");
    }
    assert "g" !in once;
  }

  // ---------------------------------------------------------------------------
  // The theme

  /** Three clicks bring each of the three themes back, visiting the other
      two on the way; any other stored value goes to "system". */
  lemma ThemeCycle(t: string)
    ensures t in {"system", "dark", "light"} ==>
      NextTheme(NextTheme(NextTheme(t))) == t && NextTheme(t) != t && NextTheme(NextTheme(t)) != t
    ensures t !in {"system", "dark", "light"} ==> NextTheme(t) == "system"
  {
  }

  // ---------------------------------------------------------------------------
  // Saving to the history

  /** The source's truncation to ten entries never fires: a free user with
      ten entries is stopped before the new one is added, so a save only
      prepends. */
  lemma SaveOnlyPrepends(pattern: string, flags: seq<string>, testString: string, history: seq<Entry>,
                         isPro: bool, idClock: nat, stampClock: nat)
    ensures var r := SavePattern(pattern, flags, testString, history, isPro, idClock, stampClock);
      r.Saved? ==> r.history == [NewEntry(pattern, flags, testString, idClock, stampClock)] + history
  {
  }

  /** The entry's id reads back, in base 36, as the clock it was made from,
      and it keeps the first 200 characters of the test string. */
  lemma EntryFields(pattern: string, flags: seq<string>, testString: string, idClock: nat, stampClock: nat)
    ensures var e := NewEntry(pattern, flags, testString, idClock, stampClock);
      && FromRadix(e.id, 36) == idClock
      && e.testString == testString[..if |testString| < SavedTestLength then |testString| else SavedTestLength]
      && e.pattern == pattern && e.flags == FlagString(flags)
  {
    RadixRoundTrip(idClock, 36);
    SlicePrefix(testString, SavedTestLength);
  }

  // ---------------------------------------------------------------------------
  // Quick insert

  /** The selection is replaced by the inserted text, everything before and
      after it is kept, and the caret ends right after the insertion. */
  lemma QuickInsertSplice(f: Field, insert: string)
    requires ValidField(f)
    ensures var r := QuickInsert(f, insert);
      && ValidField(r)
      && r.value == f.value[..f.selectionStart] + insert + f.value[f.selectionEnd..]
      && r.value[..f.selectionStart] == f.value[..f.selectionStart]
      && r.value[f.selectionStart..r.selectionStart] == insert
      && r.value[r.selectionEnd..] == f.value[f.selectionEnd..]
      && |r.value| == |f.value| - (f.selectionEnd - f.selectionStart) + |insert|
  {
    var r := QuickInsert(f, insert);
    var before, after := f.value[..f.selectionStart], f.value[f.selectionEnd..];
    assert r.value == before + insert + after;
    assert r.value[..f.selectionStart] == before;
    assert r.value[f.selectionStart..r.selectionStart] == insert;
    assert r.value[r.selectionEnd..] == after;
  }

  /** With nothing selected, cutting the inserted text out again gives back
      the original text. */
  lemma QuickInsertUndo(f: Field, insert: string)
    requires ValidField(f) && f.selectionStart == f.selectionEnd
    ensures var r := QuickInsert(f, insert);
      r.value[..f.selectionStart] + r.value[r.selectionStart..] == f.value
  {
    QuickInsertSplice(f, insert);
    assert f.value == f.value[..f.selectionStart] + f.value[f.selectionEnd..];
  }

  // ---------------------------------------------------------------------------
  // The AI generator's offline answers

  lemma UnescapeRegexStep(c: char, rest: string)
    ensures UnescapeRegex((if c in RegexSpecials then ['\\', c] else [c]) + rest) == [c] + UnescapeRegex(rest)
  {
    var s := (if c in RegexSpecials then ['\\', c] else [c]) + rest;
    if c in RegexSpecials {
      assert s[0] == '\\' && s[1] == c && s[2..] == rest;
    } else {
      assert s[0] == c && s[1..] == rest;
    }
  }

  /** Reading the escaped word back gives the word: the escaping loses
      nothing. */
  lemma {:induction false} EscapeRegexRoundTrip(w: string)
    ensures UnescapeRegex(EscapeRegex(w)) == w
  {
    if w != [] {
      UnescapeRegexStep(w[0], EscapeRegex(w[1..]));
      EscapeRegexRoundTrip(w[1..]);
    }
  }

  /** The description picks the first key of the table it contains, as the
      as-written and the intended generator both do. */
  lemma KeywordChosen(description: string, k: nat)
    requires k < KeywordCount && Includes(LowerAscii(description), Keyword(k))
    requires forall j | 0 <= j < k :: !Includes(LowerAscii(description), Keyword(j))
    ensures SimulateAIGenerate(description) == Suggestion(KeywordPattern(k), KeywordFlags(k))
    ensures IntendedAIGenerate(description) == Suggestion(IntendedPattern(k), KeywordFlags(k))
  {
    var r := FirstKeyword(LowerAscii(description), 0);
    assert r.Some? && r.value <= k;
  }

  /** A description that contains no key gets the escaped first word. */
  lemma NoKeywordFallback(description: string)
    requires forall k | 0 <= k < KeywordCount :: !Includes(LowerAscii(description), Keyword(k))
    ensures SimulateAIGenerate(description) == Fallback(description, "\U{8}")
    ensures IntendedAIGenerate(description) == Fallback(description, "\\b")
  {
    var r := FirstKeyword(LowerAscii(description), 0);
    assert r.None?;
  }

  /** A string without upper-case ASCII letters is its own lower case. */
  lemma LowerOfLower(s: string)
    requires forall i | 0 <= i < |s| :: !IsAsciiUpper(s[i])
    ensures LowerAscii(s) == s
  {
  }

  /** A text cannot contain a word one of whose letters it lacks. */
  lemma MissingLetter(s: string, t: string, k: nat)
    requires k < |t| && t[k] !in s
    ensures !Includes(s, t)
  {
    forall i | 0 <= i <= |s| - |t| ensures !OccursAt(s, t, i) {
      assert s[i..i + |t|][k] == s[i + k];
      assert s[i + k] in s;
    }
  }

  /** Keys are matched as substrings: "zip code" is taken for an IP address
      because it contains "ip". */
  lemma ZipCodeMeansIp()
    ensures SimulateAIGenerate("zip code") == Suggestion(KeywordPattern(3), "g")
  {
    ZipPicksIp();
    assert KeywordFlags(3) == "g";
  }

  lemma ZipPicksIp()
    ensures SimulateAIGenerate("zip code") == Suggestion(KeywordPattern(3), KeywordFlags(3))
  {
    ZipNoEarlierKey();
    ZipHasIp();
    KeywordChosen("zip code", 3);
  }

  lemma ZipHasIp()
    ensures Includes(LowerAscii("zip code"), Keyword(3))
  {
    LowerZip();
    ZipContainsIp();
    assert Keyword(3) == "ip";
  }

  lemma ZipContainsIp()
    ensures Includes("zip code", "ip")
  {
    assert "zip code"[1..3] == "ip";
    assert OccursAt("zip code", "ip", 1);
  }

  lemma ZipNoEarlierKey()
    ensures forall j | 0 <= j < 3 :: !Includes(LowerAscii("zip code"), Keyword(j))
  {
    LowerZip();
    forall j | 0 <= j < 3 ensures !Includes("zip code", Keyword(j)) {
      ZipLacks(j);
    }
  }

  lemma LowerZip()
    ensures LowerAscii("zip code") == "zip code"
  {
    LowerOfLower("zip code");
  }

  /** "zip code" contains none of the first three keys. */
  lemma ZipLacks(j: nat)
    requires j < 3
    ensures !Includes("zip code", Keyword(j))
  {
    if j == 0 {
      MissingLetter("zip code", "email", 1);
    } else if j == 1 {
      MissingLetter("zip code", "url", 0);
    } else {
      MissingLetter("zip code", "phone", 1);
    }
  }

  /** "cat" names no key. */
  lemma CatNamesNoKey()
    ensures forall k | 0 <= k < KeywordCount :: !Includes(LowerAscii("cat"), Keyword(k))
  {
    LowerCat();
    forall k | 0 <= k < KeywordCount ensures !Includes("cat", Keyword(k)) {
      if k < 4 {
        FirstFourAbsent("cat", k);
      } else {
        CatLacksLast(k);
      }
    }
  }

  lemma LowerCat()
    ensures LowerAscii("cat") == "cat"
  {
    LowerOfLower("cat");
  }

  /** A text without the letters m, u, p and i contains none of the first
      four keys. */
  lemma FirstFourAbsent(s: string, k: nat)
    requires k < 4 && 'm' !in s && 'u' !in s && 'p' !in s && 'i' !in s
    ensures !Includes(s, Keyword(k))
  {
    if k == 0 {
      MissingLetter(s, "email", 1);
    } else if k == 1 {
      MissingLetter(s, "url", 0);
    } else if k == 2 {
      MissingLetter(s, "phone", 0);
    } else {
      MissingLetter(s, "ip", 0);
    }
  }

  lemma CatLacksLast(k: nat)
    requires 4 <= k < KeywordCount
    ensures !Includes("cat", Keyword(k))
  {
    if k == 4 {
      MissingLetter("cat", "date", 0);
    } else if k == 5 {
      MissingLetter("cat", "hex color", 0);
    } else if k == 6 {
      MissingLetter("cat", "number", 0);
    } else {
      MissingLetter("cat", "word", 0);
    }
  }

  /** As written, the fallback writes a backspace character where a word
      boundary was meant: the answer for "cat" begins with U+0008, which the
      explainer reads as a literal character. */
  lemma FallbackAsWritten()
    ensures SimulateAIGenerate("cat") == Suggestion("\U{8}cat\U{8}", "gi")
    ensures Next(SimulateAIGenerate("cat").pattern) == LiteralToken('\U{8}')
  {
    CatFallback();
    BackspaceIsLiteral();
  }

  lemma CatFallback()
    ensures SimulateAIGenerate("cat") == Suggestion("\U{8}cat\U{8}", "gi")
  {
    CatFallsBack();
    CatBetweenBackspaces();
  }

  lemma CatFallsBack()
    ensures SimulateAIGenerate("cat") == Fallback("cat", "\U{8}")
  {
    CatNamesNoKey();
    NoKeywordFallback("cat");
  }

  lemma CatBetweenBackspaces()
    ensures Fallback("cat", "\U{8}") == Suggestion("\U{8}cat\U{8}", "gi")
  {
    CatIsItsOwnWord();
    var w := EscapeRegex(FirstWord("cat"));
    assert ['\U{8}'] + w + ['\U{8}'] == "\U{8}cat\U{8}";
  }

  /** The fallback keeps "cat" as it is. */
  lemma CatIsItsOwnWord()
    ensures EscapeRegex(FirstWord("cat")) == "cat"
  {
    assert FirstWord("cat") == "cat" by {
      assert FirstWord("t") == "t" + FirstWord([]);
      assert FirstWord("at") == "a" + FirstWord("t");
    }
    assert EscapeRegex("t") == "t" + EscapeRegex([]);
    assert EscapeRegex("at") == "a" + EscapeRegex("t");
  }

  lemma BackspaceIsLiteral()
    ensures Next("\U{8}cat\U{8}") == LiteralToken('\U{8}')
  {
    PlainCharLiteral("\U{8}cat\U{8}");
  }

  /** As intended, every fallback answer begins with the word-boundary
      token. */
  lemma FallbackIntended(description: string)
    requires forall k | 0 <= k < KeywordCount :: !Includes(LowerAscii(description), Keyword(k))
    ensures var p := IntendedAIGenerate(description).pattern;
      p[..2] == "\\b" && Next(p) == Token(Text(WordBoundary), Description(WordBoundary))
  {
    var w := EscapeRegex(FirstWord(description));
    var p := "\\b" + w + "\\b";
    NoKeywordFallback(description);
    assert IntendedAIGenerate(description).pattern == p;
    assert p[0] == '\\' && p[1] == 'b';
    assert p[..2] == "\\b";
    WordBoundaryFirst(p);
  }

  /** A pattern that starts with the word-boundary escape reads it first. */
  lemma WordBoundaryFirst(p: string)
    requires |p| >= 2 && p[0] == '\\' && p[1] == 'b'
    ensures Next(p) == Token(Text(WordBoundary), Description(WordBoundary))
  {
    assert Excludes(RuleAt(0), p) && Excludes(RuleAt(1), p);
    assert p[..2] == "\\b";
    NextBy(p, 2);
  }

  /** "date" picks the date entry. */
  lemma DateIsDate()
    ensures var lower := LowerAscii("date");
      Includes(lower, Keyword(4)) && forall j | 0 <= j < 4 :: !Includes(lower, Keyword(j))
  {
    var s := "date";
    LowerDate();
    forall j | 0 <= j < 4 ensures !Includes(s, Keyword(j)) {
      FirstFourAbsent(s, j);
    }
    assert OccursAt(s, "date", 0);
  }

  lemma LowerDate()
    ensures LowerAscii("date") == "date"
  {
    LowerOfLower("date");
  }

  /** As written, the table's patterns lost their backslashes: the answer for
      "date" starts with the letter "d", a literal, where a digit class was
      meant. */
  lemma DateEntryAsWritten()
    ensures SimulateAIGenerate("date").pattern == "d{4}[-/]d{2}[-/]d{2}"
    ensures Next(SimulateAIGenerate("date").pattern) == LiteralToken('d')
  {
    DateIsDate();
    KeywordChosen("date", 4);
    LetterDIsLiteral();
  }

  lemma LetterDIsLiteral()
    ensures Next("d{4}[-/]d{2}[-/]d{2}") == LiteralToken('d')
  {
    PlainCharLiteral("d{4}[-/]d{2}[-/]d{2}");
  }

  /** As intended, the answer for "date" starts with the digit-class token. */
  lemma DateEntryIntended()
    ensures IntendedAIGenerate("date").pattern == "\\d{4}[-/]\\d{2}[-/]\\d{2}"
    ensures Next(IntendedAIGenerate("date").pattern) == Token(Text(DigitClass), Description(DigitClass))
  {
    DateIsDate();
    KeywordChosen("date", 4);
    DigitClassFirst();
  }

  lemma DigitClassFirst()
    ensures Next("\\d{4}[-/]\\d{2}[-/]\\d{2}") == Token(Text(DigitClass), Description(DigitClass))
  {
    var p := "\\d{4}[-/]\\d{2}[-/]\\d{2}";
    assert p[0] == '\\' && p[1] == 'd' && p[..2] == "\\d";
    assert forall j | 0 <= j < 4 :: Excludes(RuleAt(j), p);
    NextBy(p, 4);
  }
}
