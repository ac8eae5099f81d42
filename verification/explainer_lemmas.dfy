/**
  Properties of the explainer: the loop reads its tokens one after another and
  covers every pattern within the cap; the first matching rule of the table
  wins; and the precedence between the specific rules and the general ones
  that would also match.
*/
module ExplainerLemmas {
  import opened Js
  import opened Explainer

  // ---------------------------------------------------------------------------
  // The loop

  /** `r` is the sequence of tokens `next` reads off `remaining`, each one from
      the text the ones before it leave over. */
  ghost predicate ReadsFrom(next: string --> Token, remaining: string, r: seq<Token>)
    decreases |r|
  {
    r == [] ||
      (&& |remaining| > 0
       && next.requires(remaining)
       && r[0] == next(remaining)
       && |r[0].text| <= |remaining|
       && ReadsFrom(next, remaining[|r[0].text|..], r[1..]))
  }

  lemma SplitHead<T>(pre: seq<T>, t: T, post: seq<T>)
    requires pre != []
    ensures pre + [t] + post == [pre[0]] + (pre[1..] + [t] + post)
    ensures pre == [pre[0]] + pre[1..]
  {
  }

  lemma {:induction false} ScanReads(next: string --> Token, remaining: string, safety: nat)
    requires Advances(next) && safety <= Cap
    ensures ReadsFrom(next, remaining, Scan(next, remaining, safety))
    decreases Cap - safety
  {
    var r := Scan(next, remaining, safety);
    if r != [] {
      var t := next(remaining);
      var after := remaining[|t.text|..];
      ScanReads(next, after, safety + 1);
      assert r == [t] + Scan(next, after, safety + 1);
      assert r[1..] == Scan(next, after, safety + 1);
    }
  }

  /** In a read sequence, the token after any prefix is the step applied to the
      text that prefix leaves over. */
  lemma {:induction false} ReadsFromSplit(next: string --> Token, remaining: string, pre: seq<Token>, t: Token, post: seq<Token>)
    requires ReadsFrom(next, remaining, pre + [t] + post)
    ensures |Texts(pre)| < |remaining|
    ensures next.requires(remaining[|Texts(pre)|..]) && t == next(remaining[|Texts(pre)|..])
    decreases |pre|
  {
    var r := pre + [t] + post;
    if pre == [] {
      assert r[0] == t;
      assert Texts(pre) == "";
    } else {
      SplitHead(pre, t, post);
      var after := remaining[|pre[0].text|..];
      assert r[1..] == pre[1..] + [t] + post;
      ReadsFromSplit(next, after, pre[1..], t, post);
      TextsCons(pre[0], pre[1..]);
      var n := |Texts(pre[1..])|;
      assert remaining[|pre[0].text| + n..] == after[n..];
    }
  }

  lemma ScanCovers(next: string --> Token, remaining: string, safety: nat)
    requires Advances(next) && safety <= Cap
    requires |remaining| <= Cap - safety
    ensures Texts(Scan(next, remaining, safety)) == remaining
  {
    TextsLength(Scan(next, remaining, safety));
  }

  lemma ExplainIsScan(p: string)
    requires p != ""
    ensures Advances(Next) && Explain(Str(p)) == Scan(Next, p, 0)
  {
    NextAdvances();
  }

  /** Every token is non-empty and the tokens spell out a prefix of the
      pattern: the whole pattern, unless the loop stopped at the cap. */
  lemma ExplainPrefix(p: string)
    ensures var r := Explain(Str(p));
      && (forall i | 0 <= i < |r| :: r[i].text != "")
      && StartsWith(p, Texts(r))
      && (Texts(r) == p || |r| == Cap)
  {
    if p != "" {
      ExplainIsScan(p);
    }
  }

  /** A pattern of at most `Cap` characters is explained completely. */
  lemma ExplainCovers(p: string)
    requires |p| <= Cap
    ensures Texts(Explain(Str(p))) == p
  {
    if p != "" {
      ExplainIsScan(p);
      ScanCovers(Next, p, 0);
    }
  }

  /** The tokens are read one after another: the token after any prefix of the
      result is what one iteration makes of the text that prefix leaves. */
  lemma ExplainReads(p: string, pre: seq<Token>, t: Token, post: seq<Token>)
    requires Explain(Str(p)) == pre + [t] + post
    ensures |Texts(pre)| < |p|
    ensures t == Next(p[|Texts(pre)|..])
  {
    if p != "" {
      ExplainIsScan(p);
      ScanReads(Next, p, 0);
      ReadsFromSplit(Next, p, pre, t, post);
    }
  }

  // ---------------------------------------------------------------------------
  // First match wins

  /** A sufficient condition, read off the first characters of `s`, for a rule
      not to match the start of `s`. */
  predicate Excludes(r: Rule, s: string) {
    match r
    case Fixed(k) =>
      var lit := Text(k);
      || |s| < |lit|
      || (|lit| >= 1 && s[0] != lit[0])
      || (|lit| >= 2 && s[1] != lit[1])
      || (|lit| >= 3 && s[2] != lit[2])
      || (|lit| >= 4 && s[3] != lit[3])
    case Backreference => |s| < 2 || s[0] != '\\' || !IsDigit(s[1])
    case NamedGroup => |s| < 4 || s[0] != '(' || s[1] != '?' || s[2] != '<' || !IsWordChar(s[3])
    case BracketClass => s == [] || s[0] != '['
    case Between => s == [] || s[0] != '{' || MatchBetween(s).None?
    case AtLeast => s == [] || s[0] != '{' || MatchAtLeast(s).None?
    case Exactly => s == [] || s[0] != '{' || MatchExactly(s).None?
    case EscapedLiteral => |s| < 2 || s[0] != '\\' || s[1] !in EscapableChars
    case UnicodeProperty => |s| < 3 || s[0] != '\\' || (s[1] != 'p' && s[1] != 'P') || s[2] != '{'
    case AnyChar => s == [] || IsLineTerminator(s[0])
  }

  lemma ExcludesSound(r: Rule, s: string)
    requires Excludes(r, s)
    ensures Apply(r, s).None?
  {
    if r.NamedGroup? && 3 < |s| && s[..3] == "(?<" {
      assert s[..3][0] == s[0] && s[..3][1] == s[1] && s[..3][2] == s[2];
      assert WordRun(s, 3) == 3;
    }
  }

  /** Before the outcome `FirstSome` reports, and everywhere when it reports
      none, the outcomes are no match. */
  lemma {:induction false} FirstSomeSpec(outs: seq<Option<Token>>, i: nat)
    requires i <= |outs|
    ensures var m := FirstSome(outs, i);
      && (m.Some? ==> forall j | i <= j < m.value.0 :: outs[j].None?)
      && (m.None? ==> forall j | i <= j < |outs| :: outs[j].None?)
    decreases |outs| - i
  {
    if i < |outs| && outs[i].None? {
      FirstSomeSpec(outs, i + 1);
    }
  }

  /** What `FirstMatch` reports: the rule it names matches with the token it
      returns, every rule before it fails, and no report means no rule from `i`
      on matches. */
  lemma FirstMatchSpec(rules: seq<Rule>, s: string, i: nat)
    requires i <= |rules|
    ensures var m := FirstMatch(rules, s, i);
      && (m.Some? ==> Apply(rules[m.value.0], s) == Some(m.value.1))
      && (m.Some? ==> forall j | i <= j < m.value.0 :: Apply(rules[j], s).None?)
      && (m.None? ==> forall j | i <= j < |rules| :: Apply(rules[j], s).None?)
  {
    FirstSomeSpec(Outcomes(rules, s), i);
  }

  /** Rule `k` of `rules` is reported when it matches and every rule before it
      is excluded. */
  lemma FirstBy(rules: seq<Rule>, s: string, k: nat)
    requires k < |rules|
    requires forall j | 0 <= j < k :: Excludes(rules[j], s)
    requires Apply(rules[k], s).Some?
    ensures FirstMatch(rules, s, 0) == Some((k, Apply(rules[k], s).value))
  {
    FirstMatchSpec(rules, s, 0);
    forall j | 0 <= j < k ensures Apply(rules[j], s).None? {
      ExcludesSound(rules[j], s);
    }
  }

  /** Rule `k` of the table wins when it matches and every rule above it is
      excluded. */
  lemma NextBy(s: string, k: nat)
    requires |s| > 0 && k < RuleCount
    requires forall j | 0 <= j < k :: Excludes(RuleAt(j), s)
    requires Apply(RuleAt(k), s).Some?
    ensures Next(s) == Apply(RuleAt(k), s).value
  {
    assert forall j | 0 <= j < k :: Rules()[j] == RuleAt(j);
    FirstBy(Rules(), s, k);
  }

  /** First match wins: `Next` returns the token of the lowest-numbered rule
      that matches, or the one-character "Literal character" token when none
      does. */
  lemma NextIsFirstMatch(s: string)
    requires |s| > 0
    ensures (exists k | 0 <= k < RuleCount :: Apply(Rules()[k], s).Some?) ==>
      exists k | 0 <= k < RuleCount ::
        && Apply(Rules()[k], s) == Some(Next(s))
        && forall j | 0 <= j < k :: Apply(Rules()[j], s).None?
    ensures (forall k | 0 <= k < RuleCount :: Apply(Rules()[k], s).None?) ==>
      Next(s) == Token([s[0]], [s[0]] + " — Literal character")
  {
    FirstMatchSpec(Rules(), s, 0);
  }

  // ---------------------------------------------------------------------------
  // Which stretches of the table a leading character rules out

  lemma AnchorsAndEscapes(s: string)
    requires |s| > 0 && s[0] !in {'^', '$', '\\', '.'}
    ensures forall j | 0 <= j < 15 :: Excludes(RuleAt(j), s)
  {
  }

  lemma EscapeLetters(s: string)
    requires |s| > 1 && s[0] == '\\' && s[1] !in {'b', 'B', 'd', 'D', 'w', 'W', 's', 'S', 'n', 't', 'r'}
    ensures forall j | 0 <= j < 14 :: Excludes(RuleAt(j), s)
  {
  }

  lemma Groups(s: string)
    requires |s| > 0 && s[0] != '(' && s[0] != ')'
    ensures forall j | 15 <= j < 23 :: Excludes(RuleAt(j), s)
  {
  }

  lemma ClassesAndCounts(s: string)
    requires |s| > 0 && s[0] != '[' && s[0] != '{'
    ensures forall j | 23 <= j < 27 :: Excludes(RuleAt(j), s)
  {
  }

  lemma Quantifiers(s: string)
    requires |s| > 0 && s[0] !in {'*', '+', '?', '|'}
    ensures forall j | 27 <= j < 34 :: Excludes(RuleAt(j), s)
  {
  }

  // ---------------------------------------------------------------------------
  // Precedence

  lemma NoneBy(rules: seq<Rule>, s: string)
    requires forall j | 0 <= j < |rules| :: Excludes(rules[j], s)
    ensures FirstMatch(rules, s, 0).None?
  {
    FirstMatchSpec(rules, s, 0);
    if FirstMatch(rules, s, 0).Some? {
      var k := FirstMatch(rules, s, 0).value.0;
      ExcludesSound(rules[k], s);
      assert false;
    }
  }

  lemma LineTerminatorExcludesAll(s: string)
    requires |s| > 0 && IsLineTerminator(s[0])
    ensures forall j | 0 <= j < RuleCount :: Excludes(RuleAt(j), s)
  {
    AnchorsAndEscapes(s);
    Groups(s);
    ClassesAndCounts(s);
    Quantifiers(s);
    assert Excludes(RuleAt(34), s) && Excludes(RuleAt(35), s) && Excludes(RuleAt(36), s);
  }

  /** A remaining text that starts with a line terminator is matched by no
      rule, so the unrecognized-character branch emits the one character as a
      "Literal character" token. */
  lemma LineTerminatorUnmatched(s: string)
    requires |s| > 0 && IsLineTerminator(s[0])
    ensures forall k | 0 <= k < RuleCount :: Apply(RuleAt(k), s).None?
    ensures Next(s) == Token([s[0]], [s[0]] + " — Literal character")
  {
    LineTerminatorExcludesAll(s);
    forall k | 0 <= k < RuleCount ensures Apply(RuleAt(k), s).None? {
      ExcludesSound(RuleAt(k), s);
    }
    assert forall j | 0 <= j < RuleCount :: Rules()[j] == RuleAt(j);
    NoneBy(Rules(), s);
  }

  /** Any other first character is matched by some rule (at the latest by the
      any-character rule), so the unrecognized-character branch is reached
      exactly on line terminators. */
  lemma OtherCharMatched(s: string)
    requires |s| > 0 && !IsLineTerminator(s[0])
    ensures exists k | 0 <= k < RuleCount :: Apply(RuleAt(k), s).Some?
  {
    assert RuleAt(36) == AnyChar;
    assert Apply(RuleAt(36), s).Some?;
  }

  lemma {:induction false} WordRunIs(s: string, i: nat, j: nat)
    requires i <= j <= |s|
    requires forall k | i <= k < j :: IsWordChar(s[k])
    requires j == |s| || !IsWordChar(s[j])
    ensures WordRun(s, i) == j
    decreases j - i
  {
    if i < j {
      WordRunIs(s, i + 1, j);
    }
  }

  lemma {:induction false} DigitRunIs(s: string, i: nat, j: nat)
    requires i <= j <= |s|
    requires forall k | i <= k < j :: IsDigit(s[k])
    requires j == |s| || !IsDigit(s[j])
    ensures DigitRun(s, i) == j
    decreases j - i
  {
    if i < j {
      DigitRunIs(s, i + 1, j);
    }
  }

  lemma {:induction false} BraceSearchIs(s: string, i: nat, j: nat)
    requires i <= j < |s|
    requires forall k | i <= k < j :: s[k] != '}'
    requires s[j] == '}'
    ensures BraceSearch(s, i) == j
    decreases j - i
  {
    if i < j {
      BraceSearchIs(s, i + 1, j);
    }
  }

  predicate AllDigits(t: string) {
    forall k | 0 <= k < |t| :: IsDigit(t[k])
  }

  /** `(?<name>` is one named-group token, not a "(" followed by more. */
  lemma NamedGroupWins(name: string, rest: string)
    requires name != [] && forall k | 0 <= k < |name| :: IsWordChar(name[k])
    ensures Next("(?<" + name + ">" + rest) ==
      Token("(?<" + name + ">", "(?<" + name + "> — Start named capture group \"" + name + "\"")
  {
    var s := "(?<" + name + ">" + rest;
    WordRunIs(s, 3, 3 + |name|);
    assert s[3..3 + |name|] == name;
    assert s[..3 + |name| + 1] == "(?<" + name + ">";
    AnchorsAndEscapes(s);
    NextBy(s, 15);
  }

  /** After "(?<" and a character that cannot start a group name, the rules
      up to the lookaheads are all excluded. */
  lemma LookbehindPrefix(s: string)
    requires |s| >= 4 && s[..3] == "(?<" && (s[3] == '=' || s[3] == '!')
    ensures forall j | 0 <= j < 18 :: Excludes(RuleAt(j), s)
  {
    assert s[0] == '(' && s[1] == '?' && s[2] == '<';
    AnchorsAndEscapes(s);
    assert Excludes(RuleAt(15), s) && Excludes(RuleAt(16), s) && Excludes(RuleAt(17), s);
  }

  /** A fixed rule whose text starts `s` reads exactly that text. */
  lemma FixedToken(k: FixedKind, s: string)
    requires StartsWith(s, Text(k))
    ensures MatchFixed(k, s) == Some(Token(Text(k), Description(k)))
  {
  }

  /** `(?<=` is a lookbehind token, not a "(" and not a named group. */
  lemma PositiveLookbehindWins(rest: string)
    ensures Next("(?<=" + rest) == Token("(?<=", "(?<= — Positive lookbehind (preceded by...)")
  {
    var s := "(?<=" + rest;
    assert s[..3] == "(?<" && s[..4] == "(?<=" && s[3] == '=';
    LookbehindPrefix(s);
    FixedToken(PositiveLookbehind, s);
    NextBy(s, 18);
  }

  /** `(?<!` is a lookbehind token, not a "(" and not a named group. */
  lemma NegativeLookbehindWins(rest: string)
    ensures Next("(?<!" + rest) == Token("(?<!", "(?<! — Negative lookbehind (NOT preceded by...)")
  {
    var s := "(?<!" + rest;
    assert s[..3] == "(?<" && s[..4] == "(?<!" && s[3] == '!';
    LookbehindPrefix(s);
    assert Excludes(RuleAt(18), s);
    FixedToken(NegativeLookbehind, s);
    NextBy(s, 19);
  }

  // ---------------------------------------------------------------------------
  // Quantifiers

  lemma BeforeQuantifiers(s: string)
    requires |s| > 0 && s[0] in {'*', '+', '?', '|'}
    ensures forall j | 0 <= j < 27 :: Excludes(RuleAt(j), s)
  {
    AnchorsAndEscapes(s);
    Groups(s);
    ClassesAndCounts(s);
  }

  /** Without a "?" in second place none of the lazy forms matches. */
  lemma LazyFormsExcluded(s: string)
    requires |s| > 0 && (|s| == 1 || s[1] != '?')
    ensures forall j | 27 <= j < 30 :: Excludes(RuleAt(j), s)
  {
  }

  lemma StarLazy(s: string)
    requires |s| > 1 && s[0] == '*' && s[1] == '?'
    ensures Next(s) == Token("*?", "*? — 0 or more times (lazy/non-greedy)")
  {
    BeforeQuantifiers(s);
    assert s[..2] == "*?";
    NextBy(s, 27);
  }

  lemma StarGreedy(s: string)
    requires |s| > 0 && s[0] == '*' && (|s| == 1 || s[1] != '?')
    ensures Next(s) == Token("*", "* — 0 or more times (greedy)")
  {
    BeforeQuantifiers(s);
    LazyFormsExcluded(s);
    assert s[..1] == "*";
    NextBy(s, 30);
  }

  lemma PlusLazy(s: string)
    requires |s| > 1 && s[0] == '+' && s[1] == '?'
    ensures Next(s) == Token("+?", "+? — 1 or more times (lazy/non-greedy)")
  {
    BeforeQuantifiers(s);
    assert s[..2] == "+?";
    assert Excludes(RuleAt(27), s);
    NextBy(s, 28);
  }

  lemma PlusGreedy(s: string)
    requires |s| > 0 && s[0] == '+' && (|s| == 1 || s[1] != '?')
    ensures Next(s) == Token("+", "+ — 1 or more times (greedy)")
  {
    BeforeQuantifiers(s);
    LazyFormsExcluded(s);
    assert s[..1] == "+";
    assert Excludes(RuleAt(30), s);
    NextBy(s, 31);
  }

  lemma OptionalLazy(s: string)
    requires |s| > 1 && s[0] == '?' && s[1] == '?'
    ensures Next(s) == Token("??", "?? — 0 or 1 time (lazy/non-greedy)")
  {
    BeforeQuantifiers(s);
    assert s[..2] == "??";
    assert Excludes(RuleAt(27), s) && Excludes(RuleAt(28), s);
    NextBy(s, 29);
  }

  lemma OptionalGreedy(s: string)
    requires |s| > 0 && s[0] == '?' && (|s| == 1 || s[1] != '?')
    ensures Next(s) == Token("?", "? — 0 or 1 time (optional)")
  {
    BeforeQuantifiers(s);
    LazyFormsExcluded(s);
    assert s[..1] == "?";
    assert Excludes(RuleAt(30), s) && Excludes(RuleAt(31), s);
    NextBy(s, 32);
  }

  /** `*`, `+` and `?` are lazy exactly when a "?" follows: the lazy forms sit
      above the greedy ones in the table. */
  lemma StarToken(rest: string)
    ensures Next("*" + rest) ==
      if StartsWith(rest, "?") then Token("*?", "*? — 0 or more times (lazy/non-greedy)")
      else Token("*", "* — 0 or more times (greedy)")
  {
    var s := "*" + rest;
    if StartsWith(rest, "?") {
      assert s[1] == rest[..1][0];
      StarLazy(s);
    } else {
      assert |rest| > 0 ==> rest[..1] == [s[1]];
      StarGreedy(s);
    }
  }

  lemma PlusToken(rest: string)
    ensures Next("+" + rest) ==
      if StartsWith(rest, "?") then Token("+?", "+? — 1 or more times (lazy/non-greedy)")
      else Token("+", "+ — 1 or more times (greedy)")
  {
    var s := "+" + rest;
    if StartsWith(rest, "?") {
      assert s[1] == rest[..1][0];
      PlusLazy(s);
    } else {
      assert |rest| > 0 ==> rest[..1] == [s[1]];
      PlusGreedy(s);
    }
  }

  lemma OptionalToken(rest: string)
    ensures Next("?" + rest) ==
      if StartsWith(rest, "?") then Token("??", "?? — 0 or 1 time (lazy/non-greedy)")
      else Token("?", "? — 0 or 1 time (optional)")
  {
    var s := "?" + rest;
    if StartsWith(rest, "?") {
      assert s[1] == rest[..1][0];
      OptionalLazy(s);
    } else {
      assert |rest| > 0 ==> rest[..1] == [s[1]];
      OptionalGreedy(s);
    }
  }

  // ---------------------------------------------------------------------------
  // Counted quantifiers

  /** Where the parts of `{a,b}` followed by `rest` sit. */
  lemma BetweenShape(a: string, b: string, rest: string)
    requires a != "" && AllDigits(a) && b != "" && AllDigits(b)
    ensures var s := "{" + a + "," + b + "}" + rest;
      var j1, j2 := 1 + |a|, 2 + |a| + |b|;
      && |s| == j2 + 1 + |rest|
      && DigitRun(s, 1) == j1 && s[j1] == ','
      && DigitRun(s, j1 + 1) == j2 && s[j2] == '}'
      && s[1..j1] == a && s[j1 + 1..j2] == b
      && s[..j2 + 1] == "{" + a + "," + b + "}" && s[j2 + 1..] == rest
  {
    var base := "{" + a + "," + b + "}";
    var s := base + rest;
    var j1, j2 := 1 + |a|, 2 + |a| + |b|;
    assert s[..j2 + 1] == base;
    assert base[1..j1] == a && base[j1] == ',' && base[j1 + 1..j2] == b && base[j2] == '}';
    assert forall k | 1 <= k < j1 :: s[k] == a[k - 1];
    assert forall k | j1 + 1 <= k < j2 :: s[k] == b[k - j1 - 1];
    DigitRunIs(s, 1, j1);
    DigitRunIs(s, j1 + 1, j2);
  }

  lemma MatchBetweenOf(a: string, b: string, rest: string)
    requires a != "" && AllDigits(a) && b != "" && AllDigits(b)
    ensures var base := "{" + a + "," + b + "}";
      MatchBetween(base + rest) ==
        if StartsWith(rest, "?") then
          Some(Token(base + "?", base + "?" + " — Between " + a + " and " + b + " times" + " (lazy)"))
        else Some(Token(base, base + " — Between " + a + " and " + b + " times"))
  {
    if StartsWith(rest, "?") {
      BetweenLazy(a, b, rest);
    } else {
      BetweenGreedy(a, b, rest);
    }
  }

  lemma BetweenLazy(a: string, b: string, rest: string)
    requires a != "" && AllDigits(a) && b != "" && AllDigits(b) && StartsWith(rest, "?")
    ensures var base := "{" + a + "," + b + "}";
      MatchBetween(base + rest) ==
        Some(Token(base + "?", base + "?" + " — Between " + a + " and " + b + " times" + " (lazy)"))
  {
    var base := "{" + a + "," + b + "}";
    var s := base + rest;
    var j2 := 2 + |a| + |b|;
    BetweenShape(a, b, rest);
    assert s[j2 + 1] == rest[..1][0];
    assert s[..j2 + 2] == base + "?";
  }

  lemma BetweenGreedy(a: string, b: string, rest: string)
    requires a != "" && AllDigits(a) && b != "" && AllDigits(b) && !StartsWith(rest, "?")
    ensures var base := "{" + a + "," + b + "}";
      MatchBetween(base + rest) == Some(Token(base, base + " — Between " + a + " and " + b + " times"))
  {
    var base := "{" + a + "," + b + "}";
    var s := base + rest;
    var j2 := 2 + |a| + |b|;
    BetweenShape(a, b, rest);
    assert |rest| > 0 ==> rest[..1] == [s[j2 + 1]];
    assert base + "" == base;
    assert base + " — Between " + a + " and " + b + " times" + "" == base + " — Between " + a + " and " + b + " times";
  }

  /** `{n,m}` takes a following "?" into its token and says "(lazy)". */
  lemma BetweenToken(a: string, b: string, rest: string)
    requires a != "" && AllDigits(a) && b != "" && AllDigits(b)
    ensures var base := "{" + a + "," + b + "}";
      Next(base + rest) ==
        if StartsWith(rest, "?") then
          Token(base + "?", base + "?" + " — Between " + a + " and " + b + " times" + " (lazy)")
        else Token(base, base + " — Between " + a + " and " + b + " times")
  {
    var s := "{" + a + "," + b + "}" + rest;
    MatchBetweenOf(a, b, rest);
    AnchorsAndEscapes(s);
    Groups(s);
    assert Excludes(RuleAt(23), s);
    NextBy(s, 24);
  }

  lemma MatchAtLeastOf(a: string, rest: string)
    requires a != "" && AllDigits(a)
    ensures MatchBetween("{" + a + ",}" + rest).None?
    ensures var base := "{" + a + ",}";
      MatchAtLeast(base + rest) ==
        if StartsWith(rest, "?") then Some(Token(base + "?", base + "?" + " — " + a + " or more times" + " (lazy)"))
        else Some(Token(base, base + " — " + a + " or more times"))
  {
    var base := "{" + a + ",}";
    var s := base + rest;
    var j := 1 + |a|;
    assert |base| == j + 2;
    assert s[..j + 2] == base;
    assert base[1..j] == a && base[j] == ',' && base[j + 1] == '}';
    assert forall k | 1 <= k < j :: s[k] == a[k - 1];
    DigitRunIs(s, 1, j);
    DigitRunIs(s, j + 1, j + 1);
    assert s[1..j] == a;
    if StartsWith(rest, "?") {
      assert s[j + 2] == rest[..1][0];
      assert s[..j + 3] == base + "?";
    } else {
      assert |rest| > 0 ==> rest[..1] == [s[j + 2]];
      assert base + "" == base;
      assert base + " — " + a + " or more times" + "" == base + " — " + a + " or more times";
    }
  }

  /** `{n,}` takes a following "?" into its token and says "(lazy)". */
  lemma AtLeastToken(a: string, rest: string)
    requires a != "" && AllDigits(a)
    ensures var base := "{" + a + ",}";
      Next(base + rest) ==
        if StartsWith(rest, "?") then Token(base + "?", base + "?" + " — " + a + " or more times" + " (lazy)")
        else Token(base, base + " — " + a + " or more times")
  {
    var s := "{" + a + ",}" + rest;
    MatchAtLeastOf(a, rest);
    AnchorsAndEscapes(s);
    Groups(s);
    assert Excludes(RuleAt(23), s) && Excludes(RuleAt(24), s);
    NextBy(s, 25);
  }

  lemma MatchExactlyOf(a: string, rest: string)
    requires a != "" && AllDigits(a)
    ensures MatchBetween("{" + a + "}" + rest).None?
    ensures MatchAtLeast("{" + a + "}" + rest).None?
    ensures MatchExactly("{" + a + "}" + rest) == Some(Token("{" + a + "}", "{" + a + "} — Exactly " + a + " times"))
  {
    var s := "{" + a + "}" + rest;
    var j := 1 + |a|;
    assert s[1..j] == a && s[j] == '}';
    assert forall k | 1 <= k < j :: s[k] == a[k - 1];
    DigitRunIs(s, 1, j);
    assert s[..j + 1] == "{" + a + "}";
  }

  /** `{n}` never takes a following "?": that is left for the next token. */
  lemma ExactlyToken(a: string, rest: string)
    requires a != "" && AllDigits(a)
    ensures Next("{" + a + "}" + rest) == Token("{" + a + "}", "{" + a + "} — Exactly " + a + " times")
  {
    var s := "{" + a + "}" + rest;
    MatchExactlyOf(a, rest);
    AnchorsAndEscapes(s);
    Groups(s);
    assert Excludes(RuleAt(23), s) && Excludes(RuleAt(24), s) && Excludes(RuleAt(25), s);
    NextBy(s, 26);
  }

  // ---------------------------------------------------------------------------
  // Escapes

  /** The escape letters the table names explicitly. */
  const EscapeLetterSet: set<char> := {'b', 'B', 'd', 'D', 'w', 'W', 's', 'S', 'n', 't', 'r'}

  /** A backslash followed by a character that is neither a named escape letter
      nor a digit gets past every rule up to the escaped-literal one. */
  lemma PastEscapes(s: string)
    requires |s| > 1 && s[0] == '\\' && s[1] !in EscapeLetterSet && !IsDigit(s[1])
    ensures forall j | 0 <= j < 34 :: Excludes(RuleAt(j), s)
  {
    EscapeLetters(s);
    assert Excludes(RuleAt(14), s);
    Groups(s);
    ClassesAndCounts(s);
    Quantifiers(s);
  }

  lemma MatchBackreferenceOf(n: string, rest: string)
    requires n != "" && AllDigits(n) && (rest == "" || !IsDigit(rest[0]))
    ensures MatchBackreference("\\" + n + rest) == Some(Token("\\" + n, "\\" + n + " — Backreference to group " + n))
  {
    var s := "\\" + n + rest;
    var j := 1 + |n|;
    assert s[..j] == "\\" + n && s[1..j] == n;
    assert forall k | 1 <= k < j :: s[k] == n[k - 1];
    assert j < |s| ==> s[j] == rest[0];
    DigitRunIs(s, 1, j);
  }

  /** A backslash and a run of digits is one backreference token, however many
      digits there are. */
  lemma BackreferenceToken(n: string, rest: string)
    requires n != "" && AllDigits(n) && (rest == "" || !IsDigit(rest[0]))
    ensures Next("\\" + n + rest) == Token("\\" + n, "\\" + n + " — Backreference to group " + n)
  {
    var s := "\\" + n + rest;
    MatchBackreferenceOf(n, rest);
    assert s[1] == n[0];
    EscapeLetters(s);
    NextBy(s, 14);
  }

  /** An escaped special character is a literal token of two characters. */
  lemma EscapedLiteralToken(c: char, rest: string)
    requires c in EscapableChars
    ensures Next("\\" + [c] + rest) == Token("\\" + [c], "\\" + [c] + " — Literal \"" + [c] + "\" character")
  {
    var s := "\\" + [c] + rest;
    assert s[1] == c && s[..2] == "\\" + [c];
    PastEscapes(s);
    NextBy(s, 34);
  }

  lemma MatchUnicodePropertyOf(letter: char, name: string, rest: string)
    requires letter == 'p' || letter == 'P'
    requires name != "" && '}' !in name
    ensures var text := "\\" + [letter] + "{" + name + "}";
      MatchUnicodeProperty(text + rest) == Some(Token(text, "\\p{" + name + "} — Unicode property: " + name))
  {
    var text := "\\" + [letter] + "{" + name + "}";
    var s := text + rest;
    var j := 3 + |name|;
    assert s[..j + 1] == text && s[3..j] == name && s[j] == '}';
    assert forall k | 3 <= k < j :: s[k] == name[k - 3];
    BraceSearchIs(s, 3, j);
  }

  /** `\p{name}` and, since that rule ignores case, `\P{name}` are one Unicode
      property token; the description is written with "p" in both cases. */
  lemma UnicodePropertyToken(letter: char, name: string, rest: string)
    requires letter == 'p' || letter == 'P'
    requires name != "" && '}' !in name
    ensures var text := "\\" + [letter] + "{" + name + "}";
      Next(text + rest) == Token(text, "\\p{" + name + "} — Unicode property: " + name)
  {
    var text := "\\" + [letter] + "{" + name + "}";
    MatchUnicodePropertyOf(letter, name, rest);
    assert (text + rest)[..2] == ['\\', letter];
    PropertyNext(text + rest);
  }

  /** A `\p` or `\P` escape that the property rule takes is the token. */
  lemma PropertyNext(s: string)
    requires |s| > 1 && s[0] == '\\' && (s[1] == 'p' || s[1] == 'P')
    requires MatchUnicodeProperty(s).Some?
    ensures Next(s) == MatchUnicodeProperty(s).value
  {
    PastEscapes(s);
    assert Excludes(RuleAt(34), s);
    NextBy(s, 35);
  }

  /** A backslash that no escape rule takes is a literal token on its own, so
      the character after it starts the next token. */
  lemma LoneBackslash(s: string)
    requires |s| > 1 && s[0] == '\\' && s[1] !in EscapeLetterSet && !IsDigit(s[1])
    requires s[1] !in EscapableChars && s[1] != 'p' && s[1] != 'P'
    ensures Next(s) == Token(s[..1], [s[0]] + " — Literal \"" + [s[0]] + "\"")
  {
    PastEscapes(s);
    assert Excludes(RuleAt(34), s) && Excludes(RuleAt(35), s);
    NextBy(s, 36);
  }

  /** Splitting off one token: the explanation of a short pattern whose first
      token is `t` is `t` followed by the explanation of the rest. */
  lemma ExplainStep(p: string, t: Token)
    requires p != "" && |p| <= Cap && Next(p) == t
    ensures |t.text| <= |p|
    ensures Explain(Str(p)) == [t] + Explain(Str(p[|t.text|..]))
  {
    ExplainIsScan(p);
    var after := p[|t.text|..];
    if after != "" {
      ExplainIsScan(after);
      ScanIndependent(Next, after, 0, 1);
    }
  }

  /** Below the cap, how many iterations came before does not matter. */
  lemma {:induction false} ScanIndependent(next: string --> Token, r: string, a: nat, b: nat)
    requires Advances(next) && a <= Cap && b <= Cap
    requires |r| <= Cap - a && |r| <= Cap - b
    ensures Scan(next, r, a) == Scan(next, r, b)
    decreases |r|
  {
    if r != "" {
      var t := next(r);
      ScanIndependent(next, r[|t.text|..], a + 1, b + 1);
    }
  }

  /** The token the any-character rule makes of `c`. */
  function LiteralToken(c: char): Token {
    Token([c], [c] + " — Literal \"" + [c] + "\"")
  }

  /** The characters that start some rule above the any-character rule. */
  const RuleStarts: set<char> := {'^', '$', '\\', '.', '(', ')', '[', '{', '*', '+', '?', '|'}

  /** A character that starts no rule and is no line terminator is a literal
      token of its own. */
  lemma PlainCharLiteral(s: string)
    requires |s| > 0 && s[0] !in RuleStarts && !IsLineTerminator(s[0])
    ensures Next(s) == LiteralToken(s[0])
  {
    AnchorsAndEscapes(s);
    Groups(s);
    ClassesAndCounts(s);
    Quantifiers(s);
    assert Excludes(RuleAt(34), s) && Excludes(RuleAt(35), s);
    NextBy(s, 36);
    assert s[..1] == [s[0]];
  }

  /** A backslash before a character no escape rule covers (such as "-") is
      explained as a lone literal backslash, and the character after it as a
      token of its own. */
  lemma ExplainLoneBackslash(c: char)
    requires c !in EscapeLetterSet && !IsDigit(c) && c !in EscapableChars && c != 'p' && c != 'P'
    requires !IsLineTerminator(c)
    ensures Explain(Str(['\\', c])) == [LiteralToken('\\'), LiteralToken(c)]
  {
    var p := ['\\', c];
    LoneBackslash(p);
    assert p[..1] == ['\\'];
    ExplainStep(p, Next(p));
    var q := p[1..];
    assert q == [c];
    PlainCharLiteral(q);
    ExplainStep(q, Next(q));
    assert q[1..] == "";
  }

  // ---------------------------------------------------------------------------
  // Bracket classes

  /** A class body the rule `(?:[^\]\\]|\\.)*` reads whole: a run of items,
      each a character other than "]" and backslash, or a backslash and a
      character that is not a line terminator. */
  predicate ClassItems(c: string)
    decreases |c|
  {
    if c == [] then true
    else if c[0] != ']' && c[0] != '\\' then ClassItems(c[1..])
    else c[0] == '\\' && 2 <= |c| && !IsLineTerminator(c[1]) && ClassItems(c[2..])
  }

  /** A body of items followed by "]" is scanned to that "]". */
  lemma {:induction false} ClassBodyEndIs(s: string, i: nat, c: string)
    requires i + |c| < |s| && s[i..i + |c|] == c && s[i + |c|] == ']'
    requires ClassItems(c)
    ensures ClassBodyEnd(s, i) == i + |c|
    decreases |c|
  {
    if c != [] {
      assert s[i] == c[0];
      if c[0] != ']' && c[0] != '\\' {
        assert s[i + 1..i + 1 + |c[1..]|] == c[1..];
        ClassBodyEndIs(s, i + 1, c[1..]);
      } else {
        assert s[i + 1] == c[1];
        assert s[i + 2..i + 2 + |c[2..]|] == c[2..];
        ClassBodyEndIs(s, i + 2, c[2..]);
      }
    }
  }

  /** Conversely, whatever the scan passes over is a run of items. */
  lemma {:induction false} ClassBodyEndItems(s: string, i: nat)
    requires i <= |s|
    ensures ClassItems(s[i..ClassBodyEnd(s, i)])
    decreases |s| - i
  {
    var j := ClassBodyEnd(s, i);
    if i < |s| && s[i] != ']' && s[i] != '\\' {
      ClassBodyEndItems(s, i + 1);
      assert s[i..j][1..] == s[i + 1..j];
    } else if i + 1 < |s| && s[i] == '\\' && !IsLineTerminator(s[i + 1]) {
      ClassBodyEndItems(s, i + 2);
      assert s[i..j][2..] == s[i + 2..j];
    } else {
      assert s[i..j] == [];
    }
  }

  /** The description the source gives a class `[c]`: "NOT in" exactly when
      the body starts with "^", and "set" for an empty content. */
  function ClassDescription(c: string): string {
    var neg := |c| > 0 && c[0] == '^';
    var content := if neg then c[1..] else c;
    "[" + c + "] — " + (if neg then "Any character NOT in" else "Any character in") + ": "
      + (if content == "" then "set" else content)
  }

  /** Every bracket class, escapes included, is read as one token. */
  lemma MatchBracketClassOf(c: string, rest: string)
    requires ClassItems(c)
    ensures MatchBracketClass("[" + c + "]" + rest) == Some(Token("[" + c + "]", ClassDescription(c)))
  {
    var s := "[" + c + "]" + rest;
    assert s[0] == '[' && s[1..1 + |c|] == c && s[1 + |c|] == ']';
    ClassScanOf(s, c);
    BracketClassAt(s, c);
    assert s[..2 + |c|] == "[" + c + "]";
  }

  /** The scan of a class `[c]…` stops at the "]" after `c`. */
  lemma ClassScanOf(s: string, c: string)
    requires 2 + |c| <= |s| && s[0] == '[' && s[1..1 + |c|] == c && s[1 + |c|] == ']'
    requires ClassItems(c)
    ensures ClassBodyEnd(s, if |c| > 0 && c[0] == '^' then 2 else 1) == 1 + |c|
  {
    if |c| > 0 && c[0] == '^' {
      assert s[2..2 + |c[1..]|] == c[1..];
      ClassBodyEndIs(s, 2, c[1..]);
    } else {
      ClassBodyEndIs(s, 1, c);
    }
  }

  /** The rule's token once the scan has found the "]" right after `c`. */
  lemma BracketClassAt(s: string, c: string)
    requires 2 + |c| <= |s| && s[0] == '[' && s[1..1 + |c|] == c && s[1 + |c|] == ']'
    requires ClassBodyEnd(s, if |c| > 0 && c[0] == '^' then 2 else 1) == 1 + |c|
    ensures MatchBracketClass(s) == Some(Token(s[..2 + |c|], ClassDescription(c)))
  {
    var neg := |c| > 0 && c[0] == '^';
    assert neg <==> 2 <= |s| && s[1] == '^' by {
      if |c| > 0 { assert s[1] == c[0]; }
    }
    var mark := if neg then "^" else "";
    var content := s[1 + |mark|..1 + |c|];
    assert content == (if neg then c[1..] else c);
    assert mark + content == c by {
      if neg { assert c == [c[0]] + c[1..]; }
    }
    assert "[" + mark + content == "[" + c;
    ClassTokenAt(s, mark, 1 + |c|);
  }

  /** The bracket-class rule, once its scan ends at a "]" at `j`. */
  lemma ClassTokenAt(s: string, mark: string, j: nat)
    requires 1 <= |s| && s[0] == '[' && mark == (if 2 <= |s| && s[1] == '^' then "^" else "")
    requires ClassBodyEnd(s, 1 + |mark|) == j && j < |s| && s[j] == ']'
    ensures var content := s[1 + |mark|..j];
      MatchBracketClass(s) == Some(Token(s[..j + 1], "[" + mark + content + "] — "
        + (if mark == "^" then "Any character NOT in" else "Any character in") + ": "
        + (if content == "" then "set" else content)))
  {
  }

  /** The rule takes nothing but such classes: its token is "[", a run of
      items, and "]". */
  lemma MatchBracketClassShape(s: string)
    requires MatchBracketClass(s).Some?
    ensures var t := MatchBracketClass(s).value.text;
      2 <= |t| && t[0] == '[' && t[|t| - 1] == ']' && ClassItems(t[1..|t| - 1])
  {
    var neg := 2 <= |s| && s[1] == '^';
    var start := if neg then 2 else 1;
    var j := ClassBodyEnd(s, start);
    assert j < |s| && s[j] == ']' && MatchBracketClass(s).value.text == s[..j + 1];
    ClassBodyEndItems(s, start);
    if neg {
      CaretItem(s[1..j], s[2..j]);
    }
    assert s[..j + 1][1..j] == s[1..j];
  }

  /** A leading "^" is one more item. */
  lemma CaretItem(c: string, tail: string)
    requires c != [] && c[0] == '^' && c[1..] == tail && ClassItems(tail)
    ensures ClassItems(c)
  {
  }

  /** A bracket class is one token, whose description says "NOT in" exactly
      when "^" follows the "[". */
  lemma BracketClassToken(c: string, rest: string)
    requires ClassItems(c)
    ensures Next("[" + c + "]" + rest) == Token("[" + c + "]", ClassDescription(c))
  {
    var s := "[" + c + "]" + rest;
    MatchBracketClassOf(c, rest);
    AnchorsAndEscapes(s);
    Groups(s);
    NextBy(s, 23);
  }
}
