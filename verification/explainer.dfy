/**
  The regex explainer: a first-match-wins lexer over an ordered table of
  start-anchored rules. Each rule of the source's table is a JavaScript
  regular expression anchored with `^`; here each one is an explicit
  prefix matcher over the remaining pattern text, and the greedy runs the
  expressions contain are computed directly (every greedy run in the table
  is followed by a character the run cannot contain, so backtracking never
  yields a different match).
*/
module Explainer {
  import opened Js

  /** One row of the explanation: the consumed text and what it means. */
  datatype Token = Token(text: string, description: string)

  /** The rules that consume a fixed text and carry a static description. */
  datatype FixedKind =
    | StartAnchor
    | EndAnchor
    | WordBoundary
    | NonWordBoundary
    | DigitClass
    | NonDigitClass
    | WordClass
    | NonWordClass
    | SpaceClass
    | NonSpaceClass
    | NewlineEscape
    | TabEscape
    | ReturnEscape
    | Dot
    | PositiveLookahead
    | NegativeLookahead
    | PositiveLookbehind
    | NegativeLookbehind
    | NonCapturingGroup
    | GroupOpen
    | GroupClose
    | LazyStar
    | LazyPlus
    | LazyOptional
    | Star
    | Plus
    | Optional
    | Alternation

  /** The text a fixed rule consumes. */
  function Text(k: FixedKind): string {
    match k
    case StartAnchor => "^"
    case EndAnchor => "$"
    case WordBoundary => "\\b"
    case NonWordBoundary => "\\B"
    case DigitClass => "\\d"
    case NonDigitClass => "\\D"
    case WordClass => "\\w"
    case NonWordClass => "\\W"
    case SpaceClass => "\\s"
    case NonSpaceClass => "\\S"
    case NewlineEscape => "\\n"
    case TabEscape => "\\t"
    case ReturnEscape => "\\r"
    case Dot => "."
    case PositiveLookahead => "(?="
    case NegativeLookahead => "(?!"
    case PositiveLookbehind => "(?<="
    case NegativeLookbehind => "(?<!"
    case NonCapturingGroup => "(?:"
    case GroupOpen => "("
    case GroupClose => ")"
    case LazyStar => "*?"
    case LazyPlus => "+?"
    case LazyOptional => "??"
    case Star => "*"
    case Plus => "+"
    case Optional => "?"
    case Alternation => "|"
  }

  /** The static description of a fixed rule. */
  function Description(k: FixedKind): string {
    match k
    case StartAnchor => "^ — Start of string (or line with m flag)"
    case EndAnchor => "$ — End of string (or line with m flag)"
    case WordBoundary => "\\b — Word boundary"
    case NonWordBoundary => "\\B — Non-word boundary"
    case DigitClass => "\\d — Any digit [0-9]"
    case NonDigitClass => "\\D — Any non-digit"
    case WordClass => "\\w — Any word character [A-Za-z0-9_]"
    case NonWordClass => "\\W — Any non-word character"
    case SpaceClass => "\\s — Any whitespace (space, tab, newline)"
    case NonSpaceClass => "\\S — Any non-whitespace"
    case NewlineEscape => "\\n — Newline character"
    case TabEscape => "\\t — Tab character"
    case ReturnEscape => "\\r — Carriage return"
    case Dot => ". — Any character (except newline)"
    case PositiveLookahead => "(?= — Positive lookahead (followed by...)"
    case NegativeLookahead => "(?! — Negative lookahead (NOT followed by...)"
    case PositiveLookbehind => "(?<= — Positive lookbehind (preceded by...)"
    case NegativeLookbehind => "(?<! — Negative lookbehind (NOT preceded by...)"
    case NonCapturingGroup => "(?: — Non-capturing group (group without capturing)"
    case GroupOpen => "( — Start capturing group"
    case GroupClose => ") — End group"
    case LazyStar => "*? — 0 or more times (lazy/non-greedy)"
    case LazyPlus => "+? — 1 or more times (lazy/non-greedy)"
    case LazyOptional => "?? — 0 or 1 time (lazy/non-greedy)"
    case Star => "* — 0 or more times (greedy)"
    case Plus => "+ — 1 or more times (greedy)"
    case Optional => "? — 0 or 1 time (optional)"
    case Alternation => "| — OR (alternation)"
  }

  /** The entries of the rule table. A `Fixed` rule consumes its text; the
      others consume a shape with captured parts. */
  datatype Rule =
    | Fixed(kind: FixedKind)
    | Backreference     // backslash and a run of decimal digits
    | NamedGroup        // "(?<", a run of word characters, ">"
    | BracketClass      // "[", optional "^", class body, "]"
    | Between           // "{n,m}" with an optional lazy "?"
    | AtLeast           // "{n,}" with an optional lazy "?"
    | Exactly           // "{n}"
    | EscapedLiteral    // backslash and one regex special character
    | UnicodeProperty   // backslash, "p" or "P", "{", a name, "}"
    | AnyChar           // any one character but a line terminator

  /** The number of rules in the table. */
  const RuleCount: nat := 37

  /** Rule `i` of the table, in the source's order: the first rule that matches wins. */
  function RuleAt(i: nat): Rule
    requires i < RuleCount
  {
    match i
    case 0 => Fixed(StartAnchor)
    case 1 => Fixed(EndAnchor)
    case 2 => Fixed(WordBoundary)
    case 3 => Fixed(NonWordBoundary)
    case 4 => Fixed(DigitClass)
    case 5 => Fixed(NonDigitClass)
    case 6 => Fixed(WordClass)
    case 7 => Fixed(NonWordClass)
    case 8 => Fixed(SpaceClass)
    case 9 => Fixed(NonSpaceClass)
    case 10 => Fixed(NewlineEscape)
    case 11 => Fixed(TabEscape)
    case 12 => Fixed(ReturnEscape)
    case 13 => Fixed(Dot)
    case 14 => Backreference
    case 15 => NamedGroup
    case 16 => Fixed(PositiveLookahead)
    case 17 => Fixed(NegativeLookahead)
    case 18 => Fixed(PositiveLookbehind)
    case 19 => Fixed(NegativeLookbehind)
    case 20 => Fixed(NonCapturingGroup)
    case 21 => Fixed(GroupOpen)
    case 22 => Fixed(GroupClose)
    case 23 => BracketClass
    case 24 => Between
    case 25 => AtLeast
    case 26 => Exactly
    case 27 => Fixed(LazyStar)
    case 28 => Fixed(LazyPlus)
    case 29 => Fixed(LazyOptional)
    case 30 => Fixed(Star)
    case 31 => Fixed(Plus)
    case 32 => Fixed(Optional)
    case 33 => Fixed(Alternation)
    case 34 => EscapedLiteral
    case 35 => UnicodeProperty
    case _ => AnyChar
  }

  /** The rule table. */
  function Rules(): (r: seq<Rule>)
    ensures |r| == RuleCount
  {
    seq(RuleCount, i requires 0 <= i < RuleCount => RuleAt(i))
  }

  /** The iteration cap of the explain loop. */
  const Cap: nat := 200

  /** What the JavaScript `.` refuses to match. */
  predicate IsLineTerminator(c: char) {
    c == '\n' || c == '\r' || c == '\U{2028}' || c == '\U{2029}'
  }

  /** `\w` without the `u` flag. */
  predicate IsWordChar(c: char) {
    IsAsciiUpper(c) || IsAsciiLower(c) || IsDigit(c) || c == '_'
  }

  /** The characters an escaped-literal token may escape. */
  const EscapableChars: set<char> :=
    {'.', '*', '+', '?', '^', '$', '{', '}', '(', ')', '|', '[', ']', '\\', '/'}

  /** End of the maximal run of digits that starts at `i`. */
  function DigitRun(s: string, i: nat): (j: nat)
    requires i <= |s|
    ensures i <= j <= |s|
    ensures forall k | i <= k < j :: IsDigit(s[k])
    ensures j == |s| || !IsDigit(s[j])
    decreases |s| - i
  {
    if i < |s| && IsDigit(s[i]) then DigitRun(s, i + 1) else i
  }

  /** End of the maximal run of word characters that starts at `i`. */
  function WordRun(s: string, i: nat): (j: nat)
    requires i <= |s|
    ensures i <= j <= |s|
    ensures forall k | i <= k < j :: IsWordChar(s[k])
    ensures j == |s| || !IsWordChar(s[j])
    decreases |s| - i
  {
    if i < |s| && IsWordChar(s[i]) then WordRun(s, i + 1) else i
  }

  /** Index of the first "}" at or after `i`, or `|s|`. */
  function BraceSearch(s: string, i: nat): (j: nat)
    requires i <= |s|
    ensures i <= j <= |s|
    ensures forall k | i <= k < j :: s[k] != '}'
    ensures j == |s| || s[j] == '}'
    decreases |s| - i
  {
    if i < |s| && s[i] != '}' then BraceSearch(s, i + 1) else i
  }

  /** End of a bracket-class body starting at `i`: a run of items, each either a
      character other than "]" and backslash, or a backslash followed by a
      character that is not a line terminator. */
  function ClassBodyEnd(s: string, i: nat): (j: nat)
    requires i <= |s|
    ensures i <= j <= |s|
    ensures j == |s| || s[j] == ']' || s[j] == '\\'
    ensures j < |s| && s[j] == '\\' ==> j + 1 == |s| || IsLineTerminator(s[j + 1])
    decreases |s| - i
  {
    if i < |s| && s[i] != ']' && s[i] != '\\' then ClassBodyEnd(s, i + 1)
    else if i + 1 < |s| && s[i] == '\\' && !IsLineTerminator(s[i + 1]) then ClassBodyEnd(s, i + 2)
    else i
  }

  /** `" (lazy)"` when the lazy marker was consumed. */
  function LazyNote(lazy: bool): string {
    if lazy then " (lazy)" else ""
  }

  /** `m` is either no match or a non-empty token read off the start of `s`. */
  predicate Consumes(s: string, m: Option<Token>) {
    m.Some? ==> 0 < |m.value.text| <= |s| && m.value.text == s[..|m.value.text|]
  }

  function MatchFixed(k: FixedKind, s: string): (m: Option<Token>)
    ensures Consumes(s, m)
  {
    if StartsWith(s, Text(k)) then Some(Token(Text(k), Description(k))) else None
  }

  function MatchBackreference(s: string): (m: Option<Token>)
    ensures Consumes(s, m)
  {
    if 2 <= |s| && s[0] == '\\' && IsDigit(s[1]) then
      var j := DigitRun(s, 1);
      var n := s[1..j];
      Some(Token(s[..j], "\\" + n + " — Backreference to group " + n))
    else None
  }

  function MatchNamedGroup(s: string): (m: Option<Token>)
    ensures Consumes(s, m)
  {
    if StartsWith(s, "(?<") then
      var j := WordRun(s, 3);
      if 3 < j < |s| && s[j] == '>' then
        var name := s[3..j];
        Some(Token(s[..j + 1], "(?<" + name + "> — Start named capture group \"" + name + "\""))
      else None
    else None
  }

  function MatchBracketClass(s: string): (m: Option<Token>)
    ensures Consumes(s, m)
  {
    if 1 <= |s| && s[0] == '[' then
      var neg := if 2 <= |s| && s[1] == '^' then "^" else "";
      var j := ClassBodyEnd(s, 1 + |neg|);
      if j < |s| && s[j] == ']' then
        var content := s[1 + |neg|..j];
        var kind := if neg == "^" then "Any character NOT in" else "Any character in";
        Some(Token(s[..j + 1], "[" + neg + content + "] — " + kind + ": " + (if content == "" then "set" else content)))
      else None
    else None
  }

  function MatchBetween(s: string): (m: Option<Token>)
    ensures Consumes(s, m)
  {
    if 1 <= |s| && s[0] == '{' then
      var j1 := DigitRun(s, 1);
      if 1 < j1 < |s| && s[j1] == ',' then
        var j2 := DigitRun(s, j1 + 1);
        if j1 + 1 < j2 < |s| && s[j2] == '}' then
          var lazy := j2 + 1 < |s| && s[j2 + 1] == '?';
          var end := if lazy then j2 + 2 else j2 + 1;
          var a, b := s[1..j1], s[j1 + 1..j2];
          Some(Token(s[..end], "{" + a + "," + b + "}" + (if lazy then "?" else "")
                               + " — Between " + a + " and " + b + " times" + LazyNote(lazy)))
        else None
      else None
    else None
  }

  function MatchAtLeast(s: string): (m: Option<Token>)
    ensures Consumes(s, m)
  {
    if 1 <= |s| && s[0] == '{' then
      var j := DigitRun(s, 1);
      if 1 < j && j + 1 < |s| && s[j] == ',' && s[j + 1] == '}' then
        var lazy := j + 2 < |s| && s[j + 2] == '?';
        var end := if lazy then j + 3 else j + 2;
        var a := s[1..j];
        Some(Token(s[..end], "{" + a + ",}" + (if lazy then "?" else "")
                             + " — " + a + " or more times" + LazyNote(lazy)))
      else None
    else None
  }

  function MatchExactly(s: string): (m: Option<Token>)
    ensures Consumes(s, m)
  {
    if 1 <= |s| && s[0] == '{' then
      var j := DigitRun(s, 1);
      if 1 < j < |s| && s[j] == '}' then
        var a := s[1..j];
        Some(Token(s[..j + 1], "{" + a + "} — Exactly " + a + " times"))
      else None
    else None
  }

  function MatchEscapedLiteral(s: string): (m: Option<Token>)
    ensures Consumes(s, m)
  {
    if 2 <= |s| && s[0] == '\\' && s[1] in EscapableChars then
      Some(Token(s[..2], "\\" + [s[1]] + " — Literal \"" + [s[1]] + "\" character"))
    else None
  }

  /** The source's expression carries the `i` flag, so "P" is accepted as well as
      "p"; the description is written with "p" either way. */
  function MatchUnicodeProperty(s: string): (m: Option<Token>)
    ensures Consumes(s, m)
  {
    if 3 <= |s| && s[0] == '\\' && (s[1] == 'p' || s[1] == 'P') && s[2] == '{' then
      var j := BraceSearch(s, 3);
      if 3 < j < |s| then
        var name := s[3..j];
        Some(Token(s[..j + 1], "\\p{" + name + "} — Unicode property: " + name))
      else None
    else None
  }

  function MatchAnyChar(s: string): (m: Option<Token>)
    ensures Consumes(s, m)
  {
    if 1 <= |s| && !IsLineTerminator(s[0]) then
      Some(Token(s[..1], [s[0]] + " — Literal \"" + [s[0]] + "\""))
    else None
  }

  /** Tries one rule at the start of `s`. */
  function Apply(r: Rule, s: string): (m: Option<Token>)
    ensures Consumes(s, m)
  {
    match r
    case Fixed(k) => MatchFixed(k, s)
    case Backreference => MatchBackreference(s)
    case NamedGroup => MatchNamedGroup(s)
    case BracketClass => MatchBracketClass(s)
    case Between => MatchBetween(s)
    case AtLeast => MatchAtLeast(s)
    case Exactly => MatchExactly(s)
    case EscapedLiteral => MatchEscapedLiteral(s)
    case UnicodeProperty => MatchUnicodeProperty(s)
    case AnyChar => MatchAnyChar(s)
  }

  /** What each rule of `rules` makes of the start of `s`. */
  function Outcomes(rules: seq<Rule>, s: string): (r: seq<Option<Token>>)
    ensures |r| == |rules|
    ensures forall j | 0 <= j < |rules| :: r[j] == Apply(rules[j], s)
  {
    seq(|rules|, j requires 0 <= j < |rules| => Apply(rules[j], s))
  }

  /** The first outcome at or after `i` that is a match, with its position. */
  function FirstSome(outs: seq<Option<Token>>, i: nat): (m: Option<(nat, Token)>)
    requires i <= |outs|
    ensures m.Some? ==> i <= m.value.0 < |outs| && outs[m.value.0] == Some(m.value.1)
    decreases |outs| - i
  {
    if i == |outs| then None
    else match outs[i]
      case Some(t) => Some((i, t))
      case None => FirstSome(outs, i + 1)
  }

  /** The first rule of `rules` at or after `i` that matches the start of `s`,
      with its token; `Next` searches the rule table from the top. */
  function FirstMatch(rules: seq<Rule>, s: string, i: nat): (m: Option<(nat, Token)>)
    requires i <= |rules|
    ensures m.Some? ==> i <= m.value.0 < |rules| && Apply(rules[m.value.0], s) == Some(m.value.1)
  {
    FirstSome(Outcomes(rules, s), i)
  }

  /** One iteration of the explain loop on non-empty remaining text: the token
      of the first matching rule, or the "unrecognized character" token. */
  function Next(s: string): (t: Token)
    requires |s| > 0
    ensures Consumes(s, Some(t))
  {
    match FirstMatch(Rules(), s, 0)
    case Some((_, t)) => t
    case None => Token([s[0]], [s[0]] + " — Literal character")
  }

  /** The concatenated text of a token sequence. */
  function Texts(ts: seq<Token>): string
  {
    if ts == [] then "" else ts[0].text + Texts(ts[1..])
  }

  lemma TextsCons(t: Token, rest: seq<Token>)
    ensures Texts([t] + rest) == t.text + Texts(rest)
  {
    assert ([t] + rest)[1..] == rest;
  }

  /** A common first part keeps one text a prefix of the other. */
  lemma PrefixStep(a: string, s: string, p: string)
    requires StartsWith(s, p)
    ensures StartsWith(a + s, a + p)
  {
    assert (a + s)[..|a + p|] == a + s[..|p|];
  }

  lemma NonEmptyCons(t: Token, rest: seq<Token>)
    requires t.text != "" && forall i | 0 <= i < |rest| :: rest[i].text != ""
    ensures forall i | 0 <= i < |[t] + rest| :: ([t] + rest)[i].text != ""
  {
    forall i | 0 <= i < |[t] + rest| ensures ([t] + rest)[i].text != "" {
      if i > 0 {
        assert ([t] + rest)[i] == rest[i - 1];
      }
    }
  }

  lemma {:induction false} TextsLength(ts: seq<Token>)
    requires forall i | 0 <= i < |ts| :: ts[i].text != ""
    ensures |Texts(ts)| >= |ts|
  {
    if ts != [] {
      TextsLength(ts[1..]);
    }
  }

  /** A loop step that always reads a non-empty token off the start of its input,
      as every entry of the rule table and the unrecognized-character branch do. */
  ghost predicate Advances(next: string --> Token) {
    forall s | |s| > 0 :: next.requires(s) && Consumes(s, Some(next(s)))
  }

  /** The explain loop from `remaining` after `safety` iterations, with the loop
      body `next`; `explain` runs it with `Next` from zero. */
  function Scan(next: string --> Token, remaining: string, safety: nat): (r: seq<Token>)
    requires Advances(next)
    requires safety <= Cap
    ensures |r| <= Cap - safety
    ensures forall i | 0 <= i < |r| :: r[i].text != ""
    ensures StartsWith(remaining, Texts(r))
    ensures Texts(r) == remaining || |r| == Cap - safety
    decreases Cap - safety
  {
    if |remaining| > 0 && safety < Cap then
      var t := next(remaining);
      var after := remaining[|t.text|..];
      var rest := Scan(next, after, safety + 1);
      var r := [t] + rest;
      TextsCons(t, rest);
      assert remaining == t.text + after;
      PrefixStep(t.text, after, Texts(rest));
      NonEmptyCons(t, rest);
      r
    else []
  }

  lemma NextAdvances()
    ensures Advances(Next)
  {
  }

  /** `RegexExplainer.explain`: an empty or non-string pattern yields no tokens;
      otherwise the loop runs on the whole pattern. */
  function Explain(pattern: Value): (r: seq<Token>)
    ensures pattern.NotString? || pattern.s == "" ==> r == []
    ensures |r| <= Cap
  {
    match pattern
    case NotString => []
    case Str(s) =>
      if s == "" then []
      else
        NextAdvances();
        Scan(Next, s, 0)
  }
}
