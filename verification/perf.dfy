/**
  The ReDoS heuristic analyzer: seven structural hazard expressions, tested
  anywhere in the pattern, each carrying a fixed severity; a length issue
  after them; and an overall grade taken from the issues found.

  Each hazard expression is modelled as an existential predicate over index
  positions of the pattern: the expression matches somewhere exactly when
  positions exist that play the roles of its literal characters and the runs
  between them consist of the characters its classes admit.
*/
module PerfAnalyzer {
  import opened Js

  /** Issue severities and overall scores, in rising order of concern. */
  datatype Level = Safe | Info | Warning | Danger

  /** An issue; `text` is the source's `label` field (`label` is a Dafny keyword). */
  datatype Issue = Issue(severity: Level, text: string, tip: string)

  /** The analyzer's result; `text` is the source's `label` field. `icon` is
      absent from the early return for an empty or non-string pattern and
      present otherwise. */
  datatype Report = Report(score: Level, text: string, issues: seq<Issue>, color: string, icon: Option<string>)

  // ---------------------------------------------------------------------------
  // Building blocks of the hazard expressions

  predicate IsQuant(c: char) {
    c == '+' || c == '*'
  }

  /** What the JavaScript `.` refuses to match. */
  predicate IsLineTerminator(c: char) {
    c == '\n' || c == '\r' || c == '\U{2028}' || c == '\U{2029}'
  }

  /** No `c` in `s[lo..hi]`. */
  predicate NoneOf(s: string, lo: nat, hi: nat, c: char)
    requires lo <= hi <= |s|
  {
    forall m | lo <= m < hi :: s[m] != c
  }

  /** No line terminator in `s[lo..hi]`: the stretch a `.*` can cover. */
  predicate NoLineBreak(s: string, lo: nat, hi: nat)
    requires lo <= hi <= |s|
  {
    forall m | lo <= m < hi :: !IsLineTerminator(s[m])
  }

  /** "(" at `i`, ")" at `k`, and no ")" between them: `\([^)]*\)`. */
  predicate ClosedGroup(s: string, i: nat, k: nat)
    requires i < k < |s|
  {
    s[i] == '(' && s[k] == ')' && NoneOf(s, i + 1, k, ')')
  }

  /** A "+" or "*" right after position `k`. */
  predicate QuantifiedAfter(s: string, k: nat) {
    k + 1 < |s| && IsQuant(s[k + 1])
  }

  predicate HasQuantBetween(s: string, lo: nat, hi: nat)
    requires lo <= hi <= |s|
  {
    exists m | lo <= m < hi :: IsQuant(s[m])
  }

  // ---------------------------------------------------------------------------
  // The seven hazard expressions

  /** `\([^)]*[+*][^)]*\)[+*]` with its parentheses at `i` and `k`. */
  predicate NestedAt(s: string, i: nat, k: nat)
    requires i < k < |s|
  {
    ClosedGroup(s, i, k) && HasQuantBetween(s, i + 1, k) && QuantifiedAfter(s, k)
  }

  predicate NestedQuantifiers(s: string) {
    exists i, k | 0 <= i < k < |s| :: NestedAt(s, i, k)
  }

  /** `\([^)]*\|[^)]*\)[+*]` with its parentheses at `i` and `k`. */
  predicate AlternationAt(s: string, i: nat, k: nat)
    requires i < k < |s|
  {
    ClosedGroup(s, i, k) && !NoneOf(s, i + 1, k, '|') && QuantifiedAfter(s, k)
  }

  predicate QuantifiedAlternation(s: string) {
    exists i, k | 0 <= i < k < |s| :: AlternationAt(s, i, k)
  }

  /** ".*" at `i`. */
  predicate DotStarAt(s: string, i: nat) {
    i + 1 < |s| && s[i] == '.' && s[i + 1] == '*'
  }

  /** `\.\*.*\.\*` with its two ".*" at `i` and `j` and no line terminator
      between them. */
  predicate WildcardsAt(s: string, i: nat, j: nat)
    requires i + 2 <= j < |s|
  {
    DotStarAt(s, i) && DotStarAt(s, j) && NoLineBreak(s, i + 2, j)
  }

  predicate MultipleWildcards(s: string) {
    exists i, j | 0 <= i && i + 2 <= j < |s| :: WildcardsAt(s, i, j)
  }

  /** `\([^)]*\{[^}]+\}[^)]*\)[+*{]` with "(" at `i`, "{" at `a`, "}" at `b`
      and ")" at `k`. */
  predicate CountedGroupAt(s: string, i: nat, a: nat, b: nat, k: nat)
    requires i < a && a + 1 < b < k < |s|
  {
    && s[i] == '(' && s[a] == '{' && s[b] == '}' && s[k] == ')'
    && NoneOf(s, i + 1, a, ')') && NoneOf(s, a + 1, b, '}') && NoneOf(s, b + 1, k, ')')
    && k + 1 < |s| && (IsQuant(s[k + 1]) || s[k + 1] == '{')
  }

  predicate RepeatedCountedGroup(s: string) {
    exists i, a, b, k | 0 <= i < a && a + 1 < b < k < |s| :: CountedGroupAt(s, i, a, b, k)
  }

  /** The class letters of the fifth expression: `[wdsSbB]`. */
  const ShorthandLetters: set<char> := {'w', 'd', 's', 'S', 'b', 'B'}

  /** After the "(" at `i`, an optional backslash and a class letter, so that
      the quantifier of `\\?[wdsSbB][+*]` sits at `q`. */
  predicate ShorthandBefore(s: string, i: nat, q: nat)
    requires i < q < |s|
  {
    || (q == i + 2 && s[i + 1] in ShorthandLetters)
    || (q == i + 3 && s[i + 1] == '\\' && s[i + 2] in ShorthandLetters)
  }

  /** `\(\\?[wdsSbB][+*][^)]*\)[+*]` with "(" at `i`, the inner quantifier at
      `q` and ")" at `k`. */
  predicate ShorthandGroupAt(s: string, i: nat, q: nat, k: nat)
    requires i < q < k < |s|
  {
    && s[i] == '(' && ShorthandBefore(s, i, q) && IsQuant(s[q])
    && NoneOf(s, q + 1, k, ')') && s[k] == ')' && QuantifiedAfter(s, k)
  }

  predicate QuantifiedShorthandGroup(s: string) {
    exists i, q, k | 0 <= i < q < k < |s| :: ShorthandGroupAt(s, i, q, k)
  }

  /** `n` consecutive segments from `i`, each a "|" followed by at least one
      character that is neither "|" nor ")". */
  predicate AlternativesFrom(s: string, i: nat, n: nat)
    decreases n
  {
    n == 0 ||
      (i < |s| && s[i] == '|' &&
       var lo := i + 1;
       exists j | lo < j <= |s| ::
         NoneOf(s, lo, j, '|') && NoneOf(s, lo, j, ')') && AlternativesFrom(s, j, n - 1))
  }

  /** `(\|[^|)]+){10,}`: ten segments somewhere (more contain ten). */
  predicate LongAlternation(s: string) {
    exists i | 0 <= i < |s| :: AlternativesFrom(s, i, 10)
  }

  /** `\(\?[=!][^)]*[+*][^)]*\).*[+*]` with "(" at `i`, ")" at `k` and the final
      quantifier at `q`. */
  predicate LookaheadAt(s: string, i: nat, k: nat, q: nat)
    requires i + 3 <= k < q < |s|
  {
    && s[i] == '(' && s[i + 1] == '?' && (s[i + 2] == '=' || s[i + 2] == '!')
    && NoneOf(s, i + 3, k, ')') && HasQuantBetween(s, i + 3, k) && s[k] == ')'
    && NoLineBreak(s, k + 1, q) && IsQuant(s[q])
  }

  predicate QuantifiedLookahead(s: string) {
    exists i, k, q | 0 <= i && i + 3 <= k < q < |s| :: LookaheadAt(s, i, k, q)
  }

  // ---------------------------------------------------------------------------
  // The hazard table

  const HazardCount: nat := 7

  /** The entries of the hazard table, in declaration order. */
  datatype Hazard =
    | Nested | Alternation | Wildcards | CountedGroup | ShorthandGroup | LongChain | Lookahead

  /** Entry `k` of the hazard table. */
  function HazardAt(k: nat): Hazard
    requires k < HazardCount
  {
    match k
    case 0 => Nested
    case 1 => Alternation
    case 2 => Wildcards
    case 3 => CountedGroup
    case 4 => ShorthandGroup
    case 5 => LongChain
    case _ => Lookahead
  }

  function Severity(h: Hazard): Level {
    match h
    case Nested => Danger
    case Alternation => Warning
    case Wildcards => Warning
    case CountedGroup => Danger
    case ShorthandGroup => Danger
    case LongChain => Info
    case Lookahead => Warning
  }

  function Label(h: Hazard): string {
    match h
    case Nested => "Nested quantifiers detected"
    case Alternation => "Quantified alternation"
    case Wildcards => "Multiple greedy wildcards"
    case CountedGroup => "Repeated group with inner quantifier"
    case ShorthandGroup => "Character class with quantifier inside quantified group"
    case LongChain => "Long alternation chain"
    case Lookahead => "Lookahead with quantifier before repeated content"
  }

  function Tip(h: Hazard): string {
    match h
    case Nested =>
      "Patterns like (a+)+ cause exponential backtracking. Use atomic groups or possessive quantifiers."
    case Alternation =>
      "Alternation inside a quantified group can cause excessive backtracking if branches overlap."
    case Wildcards =>
      "Multiple .* segments force the engine to try many permutations. Consider making one lazy (.*?) or anchoring."
    case CountedGroup =>
      "A quantified group containing quantifiers creates exponential complexity."
    case ShorthandGroup =>
      "This pattern is a classic ReDoS vector. Refactor to avoid nesting quantifiers."
    case LongChain =>
      "Many alternatives slow matching. Consider combining into a character class if possible."
    case Lookahead =>
      "Lookaheads combined with quantifiers can multiply backtracking paths."
  }

  /** Whether the expression of hazard `h` matches somewhere in `s`. */
  predicate Matches(h: Hazard, s: string) {
    match h
    case Nested => NestedQuantifiers(s)
    case Alternation => QuantifiedAlternation(s)
    case Wildcards => MultipleWildcards(s)
    case CountedGroup => RepeatedCountedGroup(s)
    case ShorthandGroup => QuantifiedShorthandGroup(s)
    case LongChain => LongAlternation(s)
    case Lookahead => QuantifiedLookahead(s)
  }

  /** Whether the expression of entry `k` matches somewhere in `s`. */
  predicate Detects(k: nat, s: string)
    requires k < HazardCount
  {
    Matches(HazardAt(k), s)
  }

  predicate Increasing(r: seq<nat>) {
    forall a, b | 0 <= a < b < |r| :: r[a] < r[b]
  }

  /** Which entries of the table match `s`. */
  function Hits(s: string): (r: seq<bool>)
    ensures |r| == HazardCount
    ensures forall j | 0 <= j < HazardCount :: r[j] == Detects(j, s)
  {
    seq(HazardCount, j requires 0 <= j < HazardCount => Detects(j, s))
  }

  /** The positions from `k` on that hold `true`, in order. */
  function Found(hits: seq<bool>, k: nat): (r: seq<nat>)
    requires k <= |hits|
    ensures Increasing(r)
    ensures forall i | 0 <= i < |r| :: k <= r[i] < |hits|
    ensures forall j | k <= j < |hits| :: j in r <==> hits[j]
    ensures |r| <= |hits| - k
    decreases |hits| - k
  {
    if k == |hits| then []
    else
      var rest := Found(hits, k + 1);
      if hits[k] then [k] + rest else rest
  }

  function IssueOf(h: Hazard): Issue {
    Issue(Severity(h), Label(h), Tip(h))
  }

  const LongPatternLimit: nat := 200

  /** The length issue, labelled with the pattern's length in decimal. */
  function LengthIssue(n: nat): Issue {
    Issue(Info, "Very long pattern (" + DecimalString(n) + " chars)",
      "Long patterns may be harder to maintain. Consider breaking into named groups or using comments.")
  }

  /** The issue list of a non-empty pattern: one issue per matching hazard
      entry, in table order, then the length issue when the pattern is longer
      than the limit. */
  function Issues(s: string): (r: seq<Issue>)
    ensures var f := Found(Hits(s), 0);
      && |r| == |f| + (if |s| > LongPatternLimit then 1 else 0)
      && (forall i | 0 <= i < |f| :: r[i] == IssueOf(HazardAt(f[i])))
      && (|s| > LongPatternLimit ==> r[|r| - 1] == LengthIssue(|s|))
  {
    var f := Found(Hits(s), 0);
    var hazards := seq(|f|, i requires 0 <= i < |f| => IssueOf(HazardAt(f[i])));
    hazards + (if |s| > LongPatternLimit then [LengthIssue(|s|)] else [])
  }

  // ---------------------------------------------------------------------------
  // The grade

  predicate HasSeverity(issues: seq<Issue>, l: Level) {
    exists i | 0 <= i < |issues| :: issues[i].severity == l
  }

  /** The overall score: the first of danger, warning and info that applies. */
  function Grade(issues: seq<Issue>): (r: Level)
    ensures r == Safe <==> issues == []
    ensures HasSeverity(issues, Danger) ==> r == Danger
    ensures r != Danger ==> !HasSeverity(issues, Danger)
    ensures r == Info ==> !HasSeverity(issues, Warning)
  {
    if HasSeverity(issues, Danger) then Danger
    else if HasSeverity(issues, Warning) then Warning
    else if |issues| > 0 then Info
    else Safe
  }

  function LevelLabel(l: Level): string {
    match l
    case Danger => "Dangerous"
    case Warning => "Caution"
    case Info => "OK"
    case Safe => "Safe"
  }

  function LevelColor(l: Level): string {
    match l
    case Danger => "#ef4444"
    case Warning => "#f59e0b"
    case Info => "#06b6d4"
    case Safe => "#22c55e"
  }

  function LevelIcon(l: Level): string {
    match l
    case Danger => "\U{1F534}"
    case Warning => "\U{1F7E1}"
    case Info => "\U{1F535}"
    case Safe => "\U{1F7E2}"
  }

  /** `PerfAnalyzer.analyze`. */
  function Analyze(pattern: Value): (r: Report)
    ensures pattern.NotString? || pattern.s == "" ==> r == Report(Safe, "Safe", [], "#22c55e", None)
    ensures r.text == LevelLabel(r.score) && r.color == LevelColor(r.score)
    ensures r.score == Safe <==> r.issues == []
    ensures pattern.Str? && pattern.s != "" ==> r.icon == Some(LevelIcon(r.score))
  {
    match pattern
    case NotString => Report(Safe, "Safe", [], "#22c55e", None)
    case Str(s) =>
      if s == "" then Report(Safe, "Safe", [], "#22c55e", None)
      else
        var issues := Issues(s);
        var score := Grade(issues);
        Report(score, LevelLabel(score), if score == Safe then [] else issues, LevelColor(score), Some(LevelIcon(score)))
  }
}
