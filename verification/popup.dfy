/**
  The pure helpers of the popup: HTML escaping, the highlighted copy of the
  test string and the match list, the flag toggles, the theme cycle, saving a
  pattern to the history, the quick-insert splice and the offline table and
  fallback of the AI generator.
*/
module Popup {
  import opened Js

  // ---------------------------------------------------------------------------
  // HTML escaping

  /** The five global replacements of `escapeHtml`, ampersand first. */
  function HtmlChain(s: string): string {
    ReplaceAll(ReplaceAll(ReplaceAll(ReplaceAll(ReplaceAll(s,
      '&', "&amp;"), '<', "&lt;"), '>', "&gt;"), '"', "&quot;"), '\'', "&#39;")
  }

  /** `escapeHtml`: a value that is not a string escapes to the empty string. */
  function EscapeHtml(v: Value): (r: string)
    ensures v.NotString? ==> r == ""
    ensures v.Str? && v.s == "" ==> r == ""
  {
    match v
    case NotString => ""
    case Str(s) => HtmlChain(s)
  }

  /** What one character becomes in the escaped text. */
  function HtmlChar(c: char): string {
    if c == '&' then "&amp;"
    else if c == '<' then "&lt;"
    else if c == '>' then "&gt;"
    else if c == '"' then "&quot;"
    else if c == '\'' then "&#39;"
    else [c]
  }

  /** Each character escaped on its own. */
  function HtmlEach(s: string): (r: string)
    ensures |r| >= |s|
  {
    if s == [] then [] else HtmlChar(s[0]) + HtmlEach(s[1..])
  }

  /** Reads escaped text back, decoding the five entities `escapeHtml` writes. */
  function UnescapeHtml(s: string): string
    decreases |s|
  {
    if s == [] then []
    else if s[0] != '&' then [s[0]] + UnescapeHtml(s[1..])
    else if StartsWith(s, "&amp;") then "&" + UnescapeHtml(s[5..])
    else if StartsWith(s, "&lt;") then "<" + UnescapeHtml(s[4..])
    else if StartsWith(s, "&gt;") then ">" + UnescapeHtml(s[4..])
    else if StartsWith(s, "&quot;") then "\"" + UnescapeHtml(s[6..])
    else if StartsWith(s, "&#39;") then "'" + UnescapeHtml(s[5..])
    else [s[0]] + UnescapeHtml(s[1..])
  }

  // ---------------------------------------------------------------------------
  // The highlighted test string

  /** One match the engine found: where it starts and the text it matched. */
  datatype Match = Match(index: nat, value: string)

  /** The tags around a match. */
  const MarkOpen: string := "<mark>"
  const MarkClose: string := "</mark>"

  /** The escaped stretches of `text` around the matches, from offset
      `last` on: the text before each match, then the text after the last
      one. */
  function Gaps(text: string, ms: seq<Match>, last: int): (r: seq<string>)
    ensures |r| == |ms| + 1
    decreases |ms|
  {
    if ms == [] then [EscapeHtml(Str(SliceFrom(text, last)))]
    else [EscapeHtml(Str(Slice(text, last, ms[0].index)))] + Gaps(text, ms[1..], ms[0].index + |ms[0].value|)
  }

  /** The escaped text of each match. */
  function Marked(ms: seq<Match>): (r: seq<string>)
    ensures |r| == |ms|
  {
    if ms == [] then [] else [EscapeHtml(Str(ms[0].value))] + Marked(ms[1..])
  }

  /** The first gap, then each value inside a mark element followed by the
      next gap. */
  function Weave(gaps: seq<string>, vals: seq<string>): string
    requires |gaps| == |vals| + 1
    decreases |vals|
  {
    if vals == [] then gaps[0]
    else gaps[0] + MarkOpen + vals[0] + MarkClose + Weave(gaps[1..], vals[1..])
  }

  /** `buildHighlightedHTML`: the loop appends, for each match, the escaped
      text since the previous match and the escaped match inside a mark
      element, then the escaped rest of the text. */
  function BuildHighlighted(text: string, ms: seq<Match>): (r: string)
    ensures ms == [] ==> r == EscapeHtml(Str(text))
  {
    if |ms| == 0 then EscapeHtml(Str(text)) else Weave(Gaps(text, ms, 0), Marked(ms))
  }

  /** Removes the mark tags from highlighted text. */
  function StripMarks(s: string): string
    decreases |s|
  {
    if s == [] then []
    else if s[0] == '<' && StartsWith(s, MarkOpen) then StripMarks(s[|MarkOpen|..])
    else if s[0] == '<' && StartsWith(s, MarkClose) then StripMarks(s[|MarkClose|..])
    else [s[0]] + StripMarks(s[1..])
  }

  /** The matches lie in `text` from offset `from` on, in order, without
      overlapping, and each one's value is the text at its index. */
  predicate InPlace(text: string, ms: seq<Match>, from: nat)
    decreases |ms|
  {
    ms == [] ||
      var m := ms[0];
      && from <= m.index
      && m.index + |m.value| <= |text|
      && text[m.index..m.index + |m.value|] == m.value
      && InPlace(text, ms[1..], m.index + |m.value|)
  }

  // ---------------------------------------------------------------------------
  // The match list

  /** Entries the match list shows before it summarises the rest. */
  const ListLimit: nat := 50

  /** The entry for match `m`, numbered `i + 1`, with its start and end. */
  function MatchItem(m: Match, i: nat): string {
    "<div class=\"match-item\">\n          <span class=\"match-value\">" + DecimalString(i + 1) + ". \""
      + EscapeHtml(Str(m.value)) + "\"</span>\n          <span class=\"match-pos\">pos "
      + DecimalString(m.index) + "\U{2013}" + DecimalString(m.index + |m.value|) + "</span>\n        </div>"
  }

  /** The note that closes a list which does not show `n` matches. */
  function MoreNote(n: nat): string {
    "<div class=\"empty-state\">...and " + DecimalString(n) + " more</div>"
  }

  const NoMatches: string := "<div class=\"empty-state\">No matches</div>"

  /** The fragments the match list is written from, in order: the entries of
      the first matches and, when some are left over, the note. */
  function MatchListParts(ms: seq<Match>): (r: seq<string>)
    ensures ms == [] ==> r == [NoMatches]
    ensures |ms| <= ListLimit ==> |r| == if ms == [] then 1 else |ms|
    ensures |ms| > ListLimit ==> |r| == ListLimit + 1 && r[ListLimit] == MoreNote(|ms| - ListLimit)
    ensures ms != [] ==> forall i | 0 <= i < |r| && i < |ms| && i < ListLimit :: r[i] == MatchItem(ms[i], i)
  {
    if |ms| == 0 then [NoMatches]
    else
      var shown := Slice(ms, 0, ListLimit);
      var items := seq(|shown|, i requires 0 <= i < |shown| => MatchItem(shown[i], i));
      if |ms| > ListLimit then items + [MoreNote(|ms| - ListLimit)] else items
  }

  /** The match list's inner HTML. */
  function MatchList(ms: seq<Match>): string {
    Concat(MatchListParts(ms))
  }

  // ---------------------------------------------------------------------------
  // Flag toggles

  /** `activeFlags`: a set kept in insertion order, which is the order the
      flag string is joined in. */
  function Without(flags: seq<string>, f: string): (r: seq<string>)
    ensures |r| <= |flags|
    ensures forall x :: x in r <==> x in flags && x != f
  {
    if flags == [] then []
    else (if flags[0] == f then [] else [flags[0]]) + Without(flags[1..], f)
  }

  /** A click on the button of flag `f`: delete it when active, add it
      otherwise. The click flips whether `f` is active and leaves every
      other flag alone. */
  function Toggle(flags: seq<string>, f: string): (r: seq<string>)
    ensures forall x :: x in r <==> if x == f then f !in flags else x in flags
  {
    if f in flags then Without(flags, f) else flags + [f]
  }

  /** The flag string, `[...activeFlags].join('')`. */
  function FlagString(flags: seq<string>): string {
    Concat(flags)
  }

  // ---------------------------------------------------------------------------
  // The theme

  /** The theme after a click on the theme button. */
  function NextTheme(current: string): (r: string)
    ensures r in {"system", "dark", "light"}
  {
    if current == "system" then "dark" else if current == "dark" then "light" else "system"
  }

  // ---------------------------------------------------------------------------
  // Saving to the history

  /** Entries a free user may keep. */
  const FreeHistoryLimit: nat := 10

  /** Characters of the test string saved with an entry. */
  const SavedTestLength: nat := 200

  datatype Entry = Entry(id: string, pattern: string, flags: string, testString: string, timestamp: nat)

  /** What a click on the save button leads to. */
  datatype SaveOutcome =
    | Ignored                     // no pattern to save
    | Paywall                     // a free user's history is full
    | Saved(history: seq<Entry>)  // the history to store

  /** The new entry; `idClock` and `stampClock` are the two reads of the
      clock, in milliseconds. */
  function NewEntry(pattern: string, flags: seq<string>, testString: string, idClock: nat, stampClock: nat): Entry {
    Entry(ToRadix(idClock, 36), pattern, FlagString(flags), Slice(testString, 0, SavedTestLength), stampClock)
  }

  /** The save button's handler, up to the store. */
  function SavePattern(pattern: string, flags: seq<string>, testString: string, history: seq<Entry>,
                       isPro: bool, idClock: nat, stampClock: nat): (r: SaveOutcome)
    ensures r == Ignored <==> pattern == ""
    ensures r == Paywall <==> pattern != "" && !isPro && |history| >= FreeHistoryLimit
    ensures r.Saved? ==> |r.history| >= 1 && r.history[0] == NewEntry(pattern, flags, testString, idClock, stampClock)
    ensures r.Saved? && !isPro ==> |r.history| <= FreeHistoryLimit
  {
    if pattern == "" then Ignored
    else if !isPro && |history| >= FreeHistoryLimit then Paywall
    else
      var h := [NewEntry(pattern, flags, testString, idClock, stampClock)] + history;
      Saved(if !isPro && |h| > FreeHistoryLimit then Slice(h, 0, FreeHistoryLimit) else h)
  }

  // ---------------------------------------------------------------------------
  // Quick insert

  /** The pattern input: its text and its selection. */
  datatype Field = Field(value: string, selectionStart: nat, selectionEnd: nat)

  /** A text field's selection lies inside its text. */
  predicate ValidField(f: Field) {
    f.selectionStart <= f.selectionEnd <= |f.value|
  }

  /** A click on a palette item: the selection is replaced by `insert` and
      the caret placed after it. */
  function QuickInsert(f: Field, insert: string): (r: Field)
    ensures r.selectionStart == r.selectionEnd == f.selectionStart + |insert|
  {
    var before := Slice(f.value, 0, f.selectionStart);
    var after := SliceFrom(f.value, f.selectionEnd);
    Field(before + insert + after, f.selectionStart + |insert|, f.selectionStart + |insert|)
  }

  // ---------------------------------------------------------------------------
  // The AI generator's offline fallback

  datatype Suggestion = Suggestion(pattern: string, flags: string)

  /** Entries of the keyword table. */
  const KeywordCount: nat := 8

  /** The table's keys, in its order. */
  function Keyword(k: nat): string
    requires k < KeywordCount
  {
    match k
    case 0 => "email"
    case 1 => "url"
    case 2 => "phone"
    case 3 => "ip"
    case 4 => "date"
    case 5 => "hex color"
    case 6 => "number"
    case 7 => "word"
  }

  /** The table's patterns as the source's single-quoted literals denote
      them: a backslash before a letter or a punctuation mark is dropped, and
      `\b` is the backspace character U+0008. */
  function KeywordPattern(k: nat): string
    requires k < KeywordCount
  {
    match k
    case 0 => "[a-zA-Z0-9._%+-]+@[a-zA-Z0-9.-]+.[a-zA-Z]{2,}"
    case 1 => "https?://[w-._~:/?#[]@!$&'()*+,;=]+"
    case 2 => "+?d{1,3}[-.s]?(?d{1,4})?[-.s]?d{1,4}[-.s]?d{1,9}"
    case 3 => "\U{8}(?:d{1,3}.){3}d{1,3}\U{8}"
    case 4 => "d{4}[-/]d{2}[-/]d{2}"
    case 5 => "#(?:[0-9a-fA-F]{3}){1,2}\U{8}"
    case 6 => "-?d+(?:.d+)?"
    case 7 => "\U{8}w+\U{8}"
  }

  function KeywordFlags(k: nat): string
    requires k < KeywordCount
  {
    if k == 1 || k == 5 then "gi" else "g"
  }

  /** The patterns the table's comment says were meant, with each backslash
      reaching the regex engine. */
  function IntendedPattern(k: nat): string
    requires k < KeywordCount
  {
    match k
    case 0 => "[a-zA-Z0-9._%+-]+@[a-zA-Z0-9.-]+\\.[a-zA-Z]{2,}"
    case 1 => "https?:\\/\\/[\\w\\-._~:/?#\\[\\]@!$&'()*+,;=]+"
    case 2 => "\\+?\\d{1,3}[-.\\s]?\\(?\\d{1,4}\\)?[-.\\s]?\\d{1,4}[-.\\s]?\\d{1,9}"
    case 3 => "\\b(?:\\d{1,3}\\.){3}\\d{1,3}\\b"
    case 4 => "\\d{4}[-/]\\d{2}[-/]\\d{2}"
    case 5 => "#(?:[0-9a-fA-F]{3}){1,2}\\b"
    case 6 => "-?\\d+(?:\\.\\d+)?"
    case 7 => "\\b\\w+\\b"
  }

  /** The first key at or after `k` that `lower` contains. */
  function FirstKeyword(lower: string, k: nat): (r: Option<nat>)
    requires k <= KeywordCount
    ensures r.Some? ==> k <= r.value < KeywordCount && Includes(lower, Keyword(r.value))
    ensures r.Some? ==> forall j | k <= j < r.value :: !Includes(lower, Keyword(j))
    ensures r.None? ==> forall j | k <= j < KeywordCount :: !Includes(lower, Keyword(j))
    decreases KeywordCount - k
  {
    if k == KeywordCount then None
    else if Includes(lower, Keyword(k)) then Some(k)
    else FirstKeyword(lower, k + 1)
  }

  /** `description.split(' ')[0]`: the text before the first space. */
  function FirstWord(s: string): (r: string)
    ensures StartsWith(s, r) && ' ' !in r
    ensures |r| < |s| ==> s[|r|] == ' '
  {
    if s == [] || s[0] == ' ' then [] else [s[0]] + FirstWord(s[1..])
  }

  /** The characters the fallback puts a backslash before. */
  const RegexSpecials: set<char> := {'.', '*', '+', '?', '^', '$', '{', '}', '(', ')', '|', '[', ']', '\\'}

  function EscapeRegex(s: string): (r: string)
    ensures |r| >= |s|
  {
    if s == [] then []
    else (if s[0] in RegexSpecials then ['\\', s[0]] else [s[0]]) + EscapeRegex(s[1..])
  }

  /** Reads an escaped word back: a backslash takes the next character
      literally. */
  function UnescapeRegex(s: string): string
    decreases |s|
  {
    if s == [] then []
    else if s[0] == '\\' && |s| >= 2 then [s[1]] + UnescapeRegex(s[2..])
    else [s[0]] + UnescapeRegex(s[1..])
  }

  /** The suggestion for a description that names no key, with the word
      escaped and written between two copies of `bound`. */
  function Fallback(description: string, bound: string): Suggestion {
    Suggestion(bound + EscapeRegex(FirstWord(description)) + bound, "gi")
  }

  /** `simulateAIGenerate` as written: the first key the lower-cased
      description contains, else the escaped first word between two
      backspace characters. */
  function SimulateAIGenerate(description: string): (r: Suggestion)
    ensures r.flags in {"g", "gi"}
  {
    match FirstKeyword(LowerAscii(description), 0)
    case Some(k) => Suggestion(KeywordPattern(k), KeywordFlags(k))
    case None => Fallback(description, "\U{8}")
  }

  /** `simulateAIGenerate` as intended: the same choice, with the backslashes
      kept, so that the fallback word sits between two word boundaries. */
  function IntendedAIGenerate(description: string): (r: Suggestion)
    ensures r.flags in {"g", "gi"}
  {
    match FirstKeyword(LowerAscii(description), 0)
    case Some(k) => Suggestion(IntendedPattern(k), KeywordFlags(k))
    case None => Fallback(description, "\\b")
  }
}
