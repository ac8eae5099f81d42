# Regex Tester Pro — a Dafny model of its pure core

Regex Tester Pro is a browser extension for writing and testing regular
expressions. This project models the parts of it that are plain text and
record transforms, and proves properties of them:

- **The regex explainer** (`Explainer`, `ExplainerLemmas`). It splits a pattern
  into `(token, description)` pairs. It uses a table of 37 start-anchored
  rules, tried in order, where the first match wins. The loop stops after 200
  steps.
  - Each rule is an explicit prefix matcher over the remaining text.
  - The loop is a recursive function over the step counter.
- **The ReDoS heuristic analyzer** (`PerfAnalyzer`, `PerfLemmas`).
  - It has seven structural hazard expressions, each with a fixed severity.
    Each one is modelled as an existential predicate over positions of the
    pattern.
  - An issue for patterns longer than 200 characters comes after them.
  - The overall grade is the highest severity found.
- **The input validators** (`Security`): pattern and test-string length,
  regex flags, extension messages, licence keys and link targets.
- **Code export** (`CodeExport`): snippets in eight languages, the
  backslash/quote escaping of the Java snippet, and the per-language flag
  mapping.
- **The sample library** (`Samples`, `SamplesLemmas`): the forty-entry table,
  its categories in order of first appearance, and filtering by category.
- **The cross-promotion catalog** (`Catalog`, `CatalogLemmas`):
  recommendation slicing and the bundles.
- **Upgrade prompts** (`UpgradePrompts`, `UpgradePromptsLemmas`): variation
  rotation, the headline, milestones, the show/cooldown decision and the
  stored prompt state.
- **The feature matrix** (`FeatureConfig`, `FeatureConfigLemmas`): tier
  gating, limits and the per-tier lists.
- **The popup's pure helpers** (`Popup`, `PopupLemmas`, `HighlightLemmas`):
  - HTML escaping and the highlighted copy of the test string;
  - the match list;
  - flag toggling and the theme cycle;
  - saving to the history;
  - the quick-insert splice;
  - the offline keyword table and fallback of the AI generator.

`Js` holds the JavaScript vocabulary the model shares:
- a value that may or may not be a string;
- `Option`;
- `startsWith`, `includes` and `slice` with JavaScript's index clamping;
- global single-character `replace`, `join`, and `toString` in a radix;
- ASCII lower-casing.

A JavaScript string is a sequence of UTF-16 code units. Here a `string` is a
`seq<char>`, and each `char` stands for one code unit.

Clocks, storage reads and the host's regular-expression engine become
parameters:
- `now` and the two clock reads of a save;
- the stored prompt state and the session count;
- a `compile` function for `validatePattern`;
- the match list the engine produced, for the highlight.

## Model

| member | source | states |
|---|---|---|
| Explainer.Rules | src/shared/explainer.js:9-78 | The rule table has exactly 37 entries; `RuleAt` lists them in the source's order |
| Explainer.MatchFixed | src/shared/explainer.js:11-68 | A fixed-text rule either fails or returns a non-empty token that is a prefix of the input |
| Explainer.MatchBackreference | src/shared/explainer.js:29 | The backreference rule either fails or consumes a non-empty prefix |
| Explainer.MatchNamedGroup | src/shared/explainer.js:32 | The named-group rule either fails or consumes a non-empty prefix |
| Explainer.MatchBracketClass | src/shared/explainer.js:48-54 | The bracket-class rule either fails or consumes a non-empty prefix |
| Explainer.MatchBetween | src/shared/explainer.js:57 | The `{n,m}` rule either fails or consumes a non-empty prefix |
| Explainer.MatchAtLeast | src/shared/explainer.js:58 | The `{n,}` rule either fails or consumes a non-empty prefix |
| Explainer.MatchExactly | src/shared/explainer.js:59 | The `{n}` rule either fails or consumes a non-empty prefix |
| Explainer.MatchEscapedLiteral | src/shared/explainer.js:71 | The escaped-special rule either fails or consumes a non-empty prefix |
| Explainer.MatchUnicodeProperty | src/shared/explainer.js:74 | The Unicode-property rule either fails or consumes a non-empty prefix |
| Explainer.MatchAnyChar | src/shared/explainer.js:77 | The one-character literal rule either fails or consumes a non-empty prefix |
| Explainer.Apply | src/shared/explainer.js:92-99 | Every rule in the table consumes at least one character and only a prefix of the remaining text |
| Explainer.FirstMatch | src/shared/explainer.js:91-103 | A match reported by the rule scan is a match of the rule at the index it names |
| Explainer.Next | src/shared/explainer.js:89-112 | Each loop step emits a non-empty token that is a prefix of the remaining text, whether or not a rule matched |
| Explainer.Scan | src/shared/explainer.js:83-115 | The loop emits at most 200 tokens, none empty; their concatenation is a prefix of the input and is the whole input unless the cap was reached |
| Explainer.Explain | src/shared/explainer.js:80-116 | A non-string or empty pattern yields no tokens; no pattern yields more than 200 |
| Explainer.TextsLength | src/shared/explainer.js:87-113 | Tokens that are all non-empty cover at least as many characters as there are tokens |
| ExplainerLemmas.ScanReads | src/shared/explainer.js:87-113 | Each token of the loop is the step taken on what the earlier tokens left |
| ExplainerLemmas.ReadsFromSplit | src/shared/explainer.js:87-113 | Any token in the output is the step's result on the input minus the text of the tokens before it |
| ExplainerLemmas.ScanCovers | src/shared/explainer.js:87-113 | With enough steps left, the tokens concatenate to exactly the remaining text |
| ExplainerLemmas.ExplainIsScan | src/shared/explainer.js:80-87 | A non-empty pattern's explanation is the loop started with a step count of 0 |
| ExplainerLemmas.ExplainPrefix | src/shared/explainer.js:87-113 | Every token is non-empty, the tokens concatenate to a prefix of the pattern, and that prefix is the whole pattern or there are 200 tokens |
| ExplainerLemmas.ExplainCovers | src/shared/explainer.js:87-113 | A pattern of at most 200 characters is covered exactly by its tokens |
| ExplainerLemmas.ExplainReads | src/shared/explainer.js:87-113 | Each token of an explanation is the step taken at its position in the pattern |
| ExplainerLemmas.ExplainStep | src/shared/explainer.js:87-113 | A short pattern's explanation is its first token followed by the explanation of the rest |
| ExplainerLemmas.ScanIndependent | src/shared/explainer.js:85-88 | When the cap is not reached, the starting step count does not change the tokens |
| ExplainerLemmas.ExcludesSound | src/shared/explainer.js:92-93 | The syntactic exclusion test is sound: an excluded rule does not match |
| ExplainerLemmas.FirstSomeSpec | src/shared/explainer.js:91-103 | The scan returns the first matching outcome, and none before it matches; no result means none matches |
| ExplainerLemmas.FirstMatchSpec | src/shared/explainer.js:91-103 | The rule scan returns the lowest-numbered matching rule; when it returns nothing, no rule matches |
| ExplainerLemmas.FirstBy | src/shared/explainer.js:91-103 | If the rules before rule k are excluded and rule k matches, the scan picks rule k |
| ExplainerLemmas.NextBy | src/shared/explainer.js:91-103 | The same for the explainer's table: the step's token is rule k's token |
| ExplainerLemmas.NextIsFirstMatch | src/shared/explainer.js:91-112 | The step's token is the first matching rule's token; when no rule matches, it is the one-character "Literal character" token |
| ExplainerLemmas.LineTerminatorUnmatched | src/shared/explainer.js:77-112 | A line terminator matches no rule (`.` excludes it), so it becomes a one-character "Literal character" token |
| ExplainerLemmas.OtherCharMatched | src/shared/explainer.js:77 | Any other first character is matched by some rule, at worst the literal rule |
| ExplainerLemmas.WordRunIs | src/shared/explainer.js:32 | The word-character run found is the maximal one |
| ExplainerLemmas.DigitRunIs | src/shared/explainer.js:29-59 | The digit run found is the maximal one |
| ExplainerLemmas.BraceSearchIs | src/shared/explainer.js:74 | The search for `}` stops at the first one |
| ExplainerLemmas.ClassBodyEndIs | src/shared/explainer.js:49 | A class body made of items (a character other than `]` and backslash, or a backslash and a character that is not a line terminator) followed by `]` is scanned exactly to that `]` |
| ExplainerLemmas.ClassBodyEndItems | src/shared/explainer.js:49 | Whatever the class-body scan passes over is a run of such items |
| ExplainerLemmas.NamedGroupWins | src/shared/explainer.js:32-44 | `(?<name>` is one named-group token, not `(` |
| ExplainerLemmas.PositiveLookbehindWins | src/shared/explainer.js:32-44 | `(?<=` is the positive-lookbehind token, not a named group or `(` |
| ExplainerLemmas.NegativeLookbehindWins | src/shared/explainer.js:32-44 | `(?<!` is the negative-lookbehind token |
| ExplainerLemmas.StarLazy | src/shared/explainer.js:60-63 | `*?` is the lazy token, not `*` |
| ExplainerLemmas.StarGreedy | src/shared/explainer.js:63 | `*` not followed by `?` is the greedy token |
| ExplainerLemmas.PlusLazy | src/shared/explainer.js:61-64 | `+?` is the lazy token, not `+` |
| ExplainerLemmas.PlusGreedy | src/shared/explainer.js:64 | `+` not followed by `?` is the greedy token |
| ExplainerLemmas.OptionalLazy | src/shared/explainer.js:62-65 | `??` is the lazy token, not `?` |
| ExplainerLemmas.OptionalGreedy | src/shared/explainer.js:65 | `?` not followed by `?` is the optional token |
| ExplainerLemmas.StarToken | src/shared/explainer.js:60-63 | After `*`, a following `?` decides between the lazy and the greedy token |
| ExplainerLemmas.PlusToken | src/shared/explainer.js:61-64 | After `+`, a following `?` decides between the lazy and the greedy token |
| ExplainerLemmas.OptionalToken | src/shared/explainer.js:62-65 | After `?`, a following `?` decides between the lazy and the optional token |
| ExplainerLemmas.MatchBetweenOf | src/shared/explainer.js:57 | `{a,b}` followed by `?` consumes the `?` and says "(lazy)"; otherwise it stops at `}` |
| ExplainerLemmas.BetweenToken | src/shared/explainer.js:57 | The explainer's token for `{a,b}` or `{a,b}?`, with its description |
| ExplainerLemmas.MatchAtLeastOf | src/shared/explainer.js:57-58 | `{a,}` is not a between-quantifier; it consumes a following `?` and then says "(lazy)" |
| ExplainerLemmas.AtLeastToken | src/shared/explainer.js:58 | The explainer's token for `{a,}` or `{a,}?`, with its description |
| ExplainerLemmas.MatchExactlyOf | src/shared/explainer.js:57-59 | `{a}` is matched only by the exactly-rule, and its token ends at `}` |
| ExplainerLemmas.ExactlyToken | src/shared/explainer.js:59 | `{a}` is one token that never takes a following `?` |
| ExplainerLemmas.MatchBackreferenceOf | src/shared/explainer.js:29 | `\` followed by a digit run is one backreference token over the whole run |
| ExplainerLemmas.BackreferenceToken | src/shared/explainer.js:29 | `\12` is a single backreference token that names group 12 |
| ExplainerLemmas.EscapedLiteralToken | src/shared/explainer.js:71 | A backslash before one of the special characters is one literal token |
| ExplainerLemmas.MatchUnicodePropertyOf | src/shared/explainer.js:74 | `\p{name}` and `\P{name}` match the property rule, and the description prints `\p` |
| ExplainerLemmas.UnicodePropertyToken | src/shared/explainer.js:74 | `\P{name}` is one token too, because that rule ignores case |
| ExplainerLemmas.LoneBackslash | src/shared/explainer.js:71-77 | A backslash before a character no escape rule takes is a lone `\` literal token |
| ExplainerLemmas.ExplainLoneBackslash | src/shared/explainer.js:71-113 | `\-` is explained as two literal tokens, `\` then `-` |
| ExplainerLemmas.PlainCharLiteral | src/shared/explainer.js:77 | A character that starts no rule is a one-character literal token |
| ExplainerLemmas.MatchBracketClassOf | src/shared/explainer.js:48-54 | Every bracket class whose body is a run of items, escaped ones such as `[^\d]` or `[a\-z]` included, is one token; its description says "NOT in" exactly when a `^` follows the `[`, and "set" for an empty content |
| ExplainerLemmas.MatchBracketClassShape | src/shared/explainer.js:49 | Conversely, the rule takes nothing but `[`, a run of items and `]` |
| ExplainerLemmas.BracketClassToken | src/shared/explainer.js:48-54 | The explainer's next token for any such bracket class is the whole class, with that description |
| PerfAnalyzer.Hits | src/shared/perf-analyzer.js:10-70 | One test result per hazard, in the table's order |
| PerfAnalyzer.Found | src/shared/perf-analyzer.js:69-77 | The hazards found are listed in increasing order, each at most once, and exactly those that hit |
| PerfAnalyzer.Issues | src/shared/perf-analyzer.js:67-86 | The hazards' issues come in table order; a length issue is added last exactly when the pattern is longer than 200 |
| PerfAnalyzer.Analyze | src/shared/perf-analyzer.js:62-101 | A non-string or empty pattern is the safe report without an icon; the label and colour follow the score; the score is safe exactly when there are no issues; other reports carry the score's icon |
| PerfLemmas.ReportIssues | src/shared/perf-analyzer.js:67-100 | A non-empty pattern's report carries the issue list unchanged |
| PerfAnalyzer.Grade | src/shared/perf-analyzer.js:89-100 | The grade is safe exactly for an empty issue list; one danger issue makes it danger; info only without any warning |
| PerfLemmas.GradeSafe | src/shared/perf-analyzer.js:98-99 | The grade is safe only for an empty issue list |
| PerfLemmas.IssueOrder | src/shared/perf-analyzer.js:69-86 | The issues follow the table order, a hazard appears iff its expression matches, and there are at most 8 issues |
| PerfLemmas.HazardIssue | src/shared/perf-analyzer.js:10-60 | No hazard is safe; the only info hazard is the long alternation chain |
| PerfLemmas.LengthIssueIff | src/shared/perf-analyzer.js:80-86 | The length issue is present iff the pattern is longer than 200, and its label is "Very long pattern (N chars)" |
| PerfLemmas.MaxRankIs | src/shared/perf-analyzer.js:89-90 | The highest severity reaches a level iff some issue has at least that level |
| PerfLemmas.GradeIsHighest | src/shared/perf-analyzer.js:89-100 | The grade is the highest severity among the issues, and safe iff there are none |
| PerfLemmas.IssuesNotSafe | src/shared/perf-analyzer.js:14-85 | No issue carries the safe level |
| PerfLemmas.ScoreIsHighest | src/shared/perf-analyzer.js:89-100 | The score is danger iff some issue is danger, else warning iff some is warning, else info iff there are issues, else safe |
| PerfLemmas.DangerDominates | src/shared/perf-analyzer.js:92-93 | One danger issue anywhere makes the grade danger |
| PerfLemmas.LookaheadOnly | src/shared/perf-analyzer.js:55 | The lookaround hazard needs a lookahead `(?=` or `(?!`; a lookbehind never triggers it |
| PerfLemmas.AbsentChars | src/shared/perf-analyzer.js:20-55 | Without `\|`, `.`, `{` and `?` the five hazards that need them cannot fire |
| PerfLemmas.FoundSkips | src/shared/perf-analyzer.js:69-77 | Hazards that do not hit add nothing to the list |
| PerfLemmas.FoundOnly | src/shared/perf-analyzer.js:69-77 | When only one hazard can hit, the list is that hazard or empty |
| PerfLemmas.NestedQuantifierHits | src/shared/perf-analyzer.js:13-55 | `(a+)+` hits the nested-quantifier expression and no other |
| PerfLemmas.NestedQuantifierIssues | src/shared/perf-analyzer.js:13-86 | `(a+)+` yields the nested-quantifier issue alone |
| PerfLemmas.NestedQuantifierExample | src/shared/perf-analyzer.js:13-101 | `(a+)+` is graded "Dangerous" with that one issue |
| PerfLemmas.HelloIssues | src/shared/perf-analyzer.js:10-86 | `hello` yields no issues |
| PerfLemmas.HelloIsSafe | src/shared/perf-analyzer.js:98-99 | `hello` is graded "Safe", with the icon of the late return |
| Security.ValidatePattern | src/shared/security.js:17-26 | A non-string or an over-long pattern is refused with its message; otherwise the verdict is the engine's |
| Security.LongPatternNeverCompiled | src/shared/security.js:19-21 | A pattern over 10000 characters is refused whatever the engine would say |
| Security.ValidateTestString | src/shared/security.js:28-32 | Accepts iff a string of at most 100000 characters, with the source's two messages otherwise |
| Security.ValidateFlags | src/shared/security.js:34-43 | Accepts iff every character is one of `gimsuyd` and none repeats; the first invalid character is reported before any duplicate error |
| Security.DistinctIffNoRepeats | src/shared/security.js:41 | The set of the characters is as large as the string iff no character repeats |
| Security.ValidateMessage | src/shared/security.js:51-56 | Accepts iff an object whose action is a non-empty string of at most 100 characters |
| Security.TrimStart | src/shared/security.js:76 | What is trimmed is a suffix, and everything before it is white space |
| Security.TrimEnd | src/shared/security.js:76 | What is trimmed is a prefix, and everything after it is white space |
| Security.Trim | src/shared/security.js:76 | The trimmed key is a slice with white space on both sides and none at its ends |
| Security.TrimIdempotent | src/shared/security.js:76 | Trimming twice is trimming once |
| Security.ValidateLicenseKey | src/shared/security.js:73-77 | An accepted key is a string of at least 10 characters whose trimmed form is 10 to 50 characters from `[A-Za-z0-9-]`, so it has no white space |
| Security.LicenseKeyIff | src/shared/security.js:73-77 | A string is accepted exactly when it is 10 to 50 characters from `[A-Za-z0-9-]` with white space around them; so `ZOVO_12345678`, `ZOVO!!!!!!` and any 51-character key are refused |
| Security.TrimSplit | src/shared/security.js:76 | Every string is its trimmed form with white space around it |
| Security.LicenseKeyPadding | src/shared/security.js:73-77 | 10 to 50 key characters, with any white space around them, are accepted |
| Security.InnerSpaceRefused | src/shared/security.js:73-77 | White space inside the trimmed key is refused |
| Security.TrimPadded | src/shared/security.js:76 | Trimming removes exactly the padding |
| Security.IsAllowedURL | src/shared/security.js:80-86 | Allowed iff the URL starts with one of the two prefixes |
| Security.LongerHostAllowed | src/shared/security.js:80-86 | A longer host such as `https://zovo.one.x` passes too |
| CodeExport.Languages | src/shared/code-export.js:9-75 | `getLanguages` returns eight entries |
| CodeExport.LanguageIdsDistinct | src/shared/code-export.js:9-18 | The eight language ids are distinct |
| CodeExport.NamesMatch | src/shared/code-export.js:9-66 | Each snippet's header comment names its language as the table does |
| CodeExport.Esc | src/shared/code-export.js:21 | The escaped pattern puts a backslash before each backslash and quote, and unescaping it recovers the pattern exactly |
| CodeExport.EscIsEscapeEach | src/shared/code-export.js:21 | The three chained replacements equal escaping character by character, because the backslash is replaced first |
| CodeExport.UnescapeEach | src/shared/code-export.js:21 | The per-character escape is undone by unescaping |
| CodeExport.Selected | src/shared/code-export.js:28-32 | The chosen option names are taken from the language's list, and there are no more of them than letters |
| CodeExport.SelectedConcat | src/shared/code-export.js:28-31 | Selection over two stretches of letters is the selection over the first followed by that over the second, so the names keep the order of their `if … push` lines |
| CodeExport.SelectedThree | src/shared/code-export.js:28-31 | Three letters give the three `if … push` lines in turn |
| CodeExport.PythonOptions | src/shared/code-export.js:28-31 | Python's options are IGNORECASE, MULTILINE and DOTALL, each present exactly when `i`, `m` or `s` is, always in that order |
| CodeExport.JavaOptions | src/shared/code-export.js:36-39 | Java's options are CASE_INSENSITIVE, MULTILINE and DOTALL, in that order, each exactly when its letter occurs |
| CodeExport.CSharpOptions | src/shared/code-export.js:57-61 | C#'s options are IgnoreCase, Multiline and Singleline, in that order, each exactly when its letter occurs |
| CodeExport.SelectedDependsOnLetters | src/shared/code-export.js:28-32 | The chosen names depend only on which letters occur, not on order, duplicates or `g` |
| CodeExport.SelectedExactly | src/shared/code-export.js:28-32 | A name is chosen iff its letter occurs, and it appears at most once |
| CodeExport.RubyFlags | src/shared/code-export.js:51-54 | Ruby keeps `i` then `m`, each iff present |
| CodeExport.RemoveFirst | src/shared/code-export.js:44 | PHP's replace removes one character iff a `g` is present |
| CodeExport.PhpFlagsCount | src/shared/code-export.js:44 | Only one `g` is dropped; the other letters keep their counts |
| CodeExport.PhpFlagsOrder | src/shared/code-export.js:44 | The first `g` is the one removed, and the rest keep their order |
| CodeExport.Generate | src/shared/code-export.js:20-70 | Every snippet starts with its header comment, and a known language's snippet contains the pattern in that language's literal |
| CodeExport.KnownIds | src/shared/code-export.js:23-66 | A language has its own snippet exactly when its id is one of the eight |
| CodeExport.EmbeddedPattern | src/shared/code-export.js:25-66 | Java embeds the escaped pattern; the other languages embed the raw pattern |
| CodeExport.BodyEmbeds | src/shared/code-export.js:24-66 | Each language's body contains its embedded pattern |
| CodeExport.SnippetEmbeds | src/shared/code-export.js:20-66 | A known language's snippet contains its embedded pattern |
| CodeExport.FallbackSnippet | src/shared/code-export.js:68-69 | An unknown language yields the comment with the language, the pattern and the flags |
| Samples.GetCategories | src/shared/samples.js:363-373 | The loop with a seen-set returns the categories in order of first appearance |
| Samples.ByCategory | src/shared/samples.js:375-377 | The result holds exactly the samples of that category |
| SamplesLemmas.FirstAppearancesSpec | src/shared/samples.js:363-373 | Each category appears once, exactly the categories of the table appear, and in order of first appearance |
| SamplesLemmas.ByCategoryConcat | src/shared/samples.js:375-377 | Filtering keeps table order: filtering a concatenation concatenates the filtered parts |
| SamplesLemmas.UnknownCategory | src/shared/samples.js:375-377 | The result is empty iff no sample has that category; a non-string category yields [] |
| SamplesLemmas.CategoryNonEmpty | src/shared/samples.js:363-377 | Every listed category has at least one sample |
| SamplesLemmas.CountsAddUp | src/shared/samples.js:363-381 | The per-category counts add up to the number of samples |
| SamplesLemmas.TableCategories | src/shared/samples.js:8-373 | The shipped table has forty samples and lists its eight categories in order |
| Catalog.Resolve | src/shared/catalog.js:83-86 | The result never grows, and each entry is the catalog's entry for its id |
| Catalog.RecommendationsWith | src/shared/catalog.js:81-86 | At most `limit` results and at most the rule count, with `slice`'s negative limit counting from the end |
| Catalog.Recommendations | src/shared/catalog.js:81 | The default limit is 3 |
| CatalogLemmas.ResolveMembers | src/shared/catalog.js:83-86 | An id survives iff it is in the rule list and the catalog names it |
| CatalogLemmas.ResolveConcat | src/shared/catalog.js:83-86 | The result keeps the rule list's order |
| CatalogLemmas.ResolveAllListed | src/shared/catalog.js:83-86 | When every id is listed, nothing is dropped |
| CatalogLemmas.RecommendationIds | src/shared/catalog.js:81-86 | The ids are the first `limit` rule ids, each with its catalog entry |
| CatalogLemmas.UnknownExtension | src/shared/catalog.js:82 | An unknown extension id yields [] |
| CatalogLemmas.NoSelfRecommendation | src/shared/catalog.js:50-86 | No extension is recommended to itself |
| CatalogLemmas.RulesWellFormed | src/shared/catalog.js:50-57 | No rule list names its own extension, and every id in it is in the catalog |
| CatalogLemmas.SameKeys | src/shared/catalog.js:9-57 | The rules and the catalog have the same keys |
| CatalogLemmas.AllAccessListsEveryKey | src/shared/catalog.js:73-75 | The all-access bundle lists every catalog key, in order |
| CatalogLemmas.DeveloperBundle | src/shared/catalog.js:61-63 | The developer bundle is the developer-category extensions, in catalog order |
| CatalogLemmas.ProductivityBundle | src/shared/catalog.js:67-69 | The productivity bundle is the productivity-category extensions, in catalog order |
| CatalogLemmas.RegexTesterRecommendations | src/shared/catalog.js:51-86 | The recommendations from regex-tester-pro |
| CatalogLemmas.ClipboardRecommendations | src/shared/catalog.js:54-86 | The recommendations from clipboard-history-pro, which has two rules |
| UpgradePrompts.NextPrompt | src/shared/upgrade-prompts.js:74-82 | The prompt is variation `totalTests mod 5`, with a missing count read as 0; it keeps id, body, cta and type and computes the headline |
| UpgradePrompts.ShouldShowPrompt | src/shared/upgrade-prompts.js:58-72 | Shown iff nothing was shown this session, 60 minutes have passed since the last showing, and there were at least 3 sessions |
| UpgradePrompts.MarkShown | src/shared/upgrade-prompts.js:84-91 | Increments the session counter and the total shown, sets the time, leaves dismissals alone |
| UpgradePrompts.MarkDismissed | src/shared/upgrade-prompts.js:93-98 | Increments only the dismissal count |
| UpgradePromptsLemmas.VariationIdsDistinct | src/shared/upgrade-prompts.js:10-46 | The five variation ids are distinct |
| UpgradePromptsLemmas.RotationPeriod | src/shared/upgrade-prompts.js:76 | The rotation has period five |
| UpgradePromptsLemmas.RotationAdvances | src/shared/upgrade-prompts.js:76 | One more test moves to another variation |
| UpgradePromptsLemmas.MissingCount | src/shared/upgrade-prompts.js:13-76 | A missing count behaves as 0 |
| UpgradePromptsLemmas.FirstPromptId | src/shared/upgrade-prompts.js:12-76 | At count 0 the value-focus variation is shown |
| UpgradePromptsLemmas.FirstPromptHeadline | src/shared/upgrade-prompts.js:13-80 | At count 0 the headline reads "You've tested 0 patterns" |
| UpgradePromptsLemmas.HeadlineMentionsCount | src/shared/upgrade-prompts.js:13-80 | The value and milestone headlines print the count; the other three are fixed text |
| UpgradePromptsLemmas.OnePerSession | src/shared/upgrade-prompts.js:59-85 | After a prompt is shown, no other is shown in the same session |
| UpgradePromptsLemmas.CooldownAfterShown | src/shared/upgrade-prompts.js:65-88 | Within 60 minutes of a showing, no prompt is shown |
| UpgradePromptsLemmas.CooldownExpires | src/shared/upgrade-prompts.js:58-88 | After the cooldown, with enough sessions and none shown this session, a prompt is shown |
| UpgradePromptsLemmas.DismissalIgnored | src/shared/upgrade-prompts.js:58-96 | Dismissing does not change whether a prompt is shown |
| UpgradePromptsLemmas.MarksCommute | src/shared/upgrade-prompts.js:84-98 | Marking shown and marking dismissed touch different fields and commute |
| UpgradePrompts.IsMilestone | src/shared/upgrade-prompts.js:109-111 | A milestone is a multiple of five between 10 and 500 |
| UpgradePromptsLemmas.MilestoneValues | src/shared/upgrade-prompts.js:109-111 | A milestone is exactly one of 10, 25, 50, 100, 250 and 500 |
| UpgradePromptsLemmas.MilestonePrompt | src/shared/upgrade-prompts.js:76-111 | Every milestone count shows the value-focus variation |
| FeatureConfig.IndexOfKey | src/shared/feature-config.js:12-130 | A key found names the feature at that index |
| FeatureConfig.AllFeatures | src/shared/feature-config.js:163-165 | All fourteen features in declaration order, each with its key |
| FeatureConfig.IsFeatureAvailable | src/shared/feature-config.js:129-137 | Only a known feature can be available |
| FeatureConfig.GetFeatureLimit | src/shared/feature-config.js:139-143 | An unknown feature is unbounded |
| FeatureConfig.ByTier | src/shared/feature-config.js:145-161 | The filter keeps exactly the features of the tier |
| FeatureConfigLemmas.LookupByKey | src/shared/feature-config.js:12-130 | Each feature is found under its own key |
| FeatureConfigLemmas.KeysDistinct | src/shared/feature-config.js:12-112 | The fourteen keys are distinct |
| FeatureConfigLemmas.KnownKeys | src/shared/feature-config.js:130-131 | A key is known iff it is one of the fourteen |
| FeatureConfigLemmas.AvailableByTier | src/shared/feature-config.js:133-135 | Free and limited features are available to everyone; pro ones iff the user is pro |
| FeatureConfigLemmas.UnknownKey | src/shared/feature-config.js:131-141 | An unknown key is not available and has no limit |
| FeatureConfigLemmas.ProKeepsFeatures | src/shared/feature-config.js:129-137 | Going pro loses no feature, and a pro user has every known feature |
| FeatureConfigLemmas.LimitByTier | src/shared/feature-config.js:139-143 | Pro users are unbounded; free users are bounded exactly on the limited features |
| FeatureConfigLemmas.FreeLimits | src/shared/feature-config.js:74-143 | Free users keep 10 history entries and 3 AI generations; pro users are unbounded |
| FeatureConfigLemmas.ByTierConcat | src/shared/feature-config.js:145-161 | The filter keeps declaration order |
| FeatureConfigLemmas.TiersPartition | src/shared/feature-config.js:145-165 | The three tier lists partition the features |
| FeatureConfigLemmas.TierLists | src/shared/feature-config.js:12-165 | Free, limited and pro are three consecutive stretches of the full list |
| Popup.EscapeHtml | src/popup/popup.js:1090-1098 | A non-string escapes to '' |
| HighlightLemmas.EscapeHtmlEach | src/popup/popup.js:1092-1097 | The five chained replacements equal escaping character by character, because `&` is replaced first |
| HighlightLemmas.EscapedHasNoMarkup | src/popup/popup.js:1090-1098 | Escaped text holds no raw `<`, `>`, `"` or `'` |
| HighlightLemmas.EscapeHtmlRoundTrip | src/popup/popup.js:1090-1098 | Decoding the five entities recovers the input |
| HighlightLemmas.HtmlEachRoundTrip | src/popup/popup.js:1092-1097 | Per-character escaping is undone by decoding |
| HighlightLemmas.HtmlEachConcat | src/popup/popup.js:1092-1097 | Escaping distributes over concatenation |
| Popup.BuildHighlighted | src/popup/popup.js:239-240 | With no matches the result is the escaped text |
| HighlightLemmas.HighlightRoundTrip | src/popup/popup.js:239-256 | For in-order, non-overlapping matches that agree with the text, removing the marks gives the escaped text, and decoding gives the text |
| HighlightLemmas.HighlightMarks | src/popup/popup.js:239-256 | The result has exactly one `<mark>…</mark>` per match: two `<` and two `>` each |
| HighlightLemmas.WeaveStrip | src/popup/popup.js:245-254 | Removing the marks from the woven pieces leaves the pieces in order |
| HighlightLemmas.WeaveCount | src/popup/popup.js:245-254 | Each woven match adds one `<` and one `>` per tag |
| HighlightLemmas.FlatGaps | src/popup/popup.js:245-254 | The gaps and match values in order are the escaped text from `lastIndex` on |
| Popup.MatchListParts | src/popup/popup.js:187-202 | No matches gives the "No matches" line; otherwise at most 50 items, the first ones in order, plus "...and N more" when there are more than 50 |
| HighlightLemmas.OneMoreNote | src/popup/popup.js:197-199 | With 51 matches the note reads "...and 1 more" |
| Popup.Without | src/popup/popup.js:285 | Deleting a flag keeps exactly the other flags |
| Popup.Toggle | src/popup/popup.js:284-288 | A click flips whether that flag is active and leaves every other flag alone |
| PopupLemmas.ToggleNoDup | src/popup/popup.js:284-288 | The active flags stay a set |
| PopupLemmas.ToggleTwice | src/popup/popup.js:284-288 | Two clicks restore the set of flags |
| PopupLemmas.ToggleReorders | src/popup/popup.js:284-288 | Two clicks can change the order, so the saved flag string can change from "gi" to "ig" |
| Popup.NextTheme | src/popup/popup.js:486 | The next theme is always system, dark or light |
| PopupLemmas.ThemeCycle | src/popup/popup.js:486 | system→dark→light→system is a cycle of three; any other value goes to system |
| Popup.SavePattern | src/popup/popup.js:323-344 | An empty pattern does nothing; a free user with 10 entries hits the paywall; otherwise the new entry comes first and a free history stays at most 10 |
| PopupLemmas.SaveOnlyPrepends | src/popup/popup.js:328-344 | A save only prepends: the truncation at line 344 never removes anything |
| PopupLemmas.EntryFields | src/popup/popup.js:333-339 | The entry's id reads back as the clock in base 36; it keeps the first 200 characters of the test string, the pattern, and the joined flags |
| Js.RadixRoundTrip | src/popup/popup.js:334 | `toString(36)` reads back as the number |
| Popup.QuickInsert | src/popup/popup.js:888-893 | The caret lands after the insertion |
| PopupLemmas.QuickInsertSplice | src/popup/popup.js:888-893 | The value is before + insert + after, with the caret at start + the insert's length |
| PopupLemmas.QuickInsertUndo | src/popup/popup.js:888-893 | Removing the inserted text restores the value |
| Popup.FirstKeyword | src/popup/popup.js:557-560 | The first table key that the lower-cased description contains, and none before it |
| Popup.FirstWord | src/popup/popup.js:563 | The text before the first space |
| PopupLemmas.EscapeRegexRoundTrip | src/popup/popup.js:563 | Reading the escaped word back gives the word |
| Popup.SimulateAIGenerate | src/popup/popup.js:542-565 | `simulateAIGenerate` as written: the suggested flags are always `g` or `gi`; KeywordChosen and NoKeywordFallback state which entry is chosen |
| Popup.IntendedAIGenerate | src/popup/popup.js:542-565 | The same with the backslashes kept: flags `g` or `gi` |
| PopupLemmas.KeywordChosen | src/popup/popup.js:545-560 | The first contained key decides the suggestion |
| PopupLemmas.NoKeywordFallback | src/popup/popup.js:562-564 | With no key, the escaped first word goes between two U+0008 characters as written, or two `\b` as intended |
| PopupLemmas.ZipCodeMeansIp | src/popup/popup.js:549-559 | Example of KeywordChosen: "zip code" contains "ip", so it gets the IP-address suggestion |
| PopupLemmas.FallbackAsWritten | src/popup/popup.js:564 | "cat" yields U+0008 cat U+0008, whose first token is a literal backspace |
| PopupLemmas.FallbackIntended | src/popup/popup.js:564 | The corrected fallback starts with a word-boundary token |
| PopupLemmas.DateEntryAsWritten | src/popup/popup.js:550 | "date" yields `d{4}[-/]d{2}[-/]d{2}`, whose first token is a literal `d` |
| PopupLemmas.DateEntryIntended | src/popup/popup.js:550 | The corrected table entry starts with the digit-class token |

## Left out

- `benchmark` (src/shared/perf-analyzer.js:104-129): wall-clock timing, floating-point averages and the host's regex engine.
- Running user patterns: this is the host's regex engine. It covers the popup's match collection, replace and multi-test, and the compile step of `validatePattern`. The compile step is a parameter of `Security.ValidatePattern`; the highlight takes the match list as input.
- DOM and UI code in popup.js: rendering, event wiring, panels, toasts, the copy button, the capture-group display and `updateReplace`. Only the string each helper computes is modelled.
- `Security.sanitizeHTML`: it relies on the DOM's `textContent`.
- `validateStorageData`: it measures `JSON.stringify` output.
- `validateMessageOrigin`: it depends on `chrome.runtime.id`.
- All `chrome.*` storage, tab, alarm, context-menu and messaging code, and `fetch`: storage.js, analytics.js, payments.js, service-worker.js, error-handler.js. The stored values the upgrade-prompt functions read are parameters, and so are `Date.now()` and the session counter.
- performance.js: debounce, throttle, the TTL cache and observers are timer-driven.
- quick-insert.js: a static table with no logic.
- The `totalScore` computation (src/shared/feature-config.js:115-126): floating-point weights with rounding. The scores themselves are kept.
- `getAllBundles`: it returns the bundle table, which `Catalog.BundleOf` states directly.
- Bundle prices are kept in cents, as integers, rather than as floating-point dollars.
- Characters outside the Basic Multilingual Plane: a `char` stands for one UTF-16 code unit, so surrogate pairs are not modelled as pairs.
- `toLowerCase`: it is modelled on ASCII letters only. Key containment in the AI table only involves lower-case ASCII keys, but a non-ASCII upper-case letter that lower-cases into ASCII is not modelled.
- The explainer's token field is `text` and the analyzer's label field is `text`. The source calls them `token` and `label`.
- The explainer's table has 37 rules: the literal-character rule is the 37th. A count of 36 omits it.
- Flags in code export are a plain string, and `flags.includes` is modelled as membership of a character. Multi-character search strings do not occur.
- `UpgradePrompts.NextPrompt`: takes the test count as an optional natural number. A falsy count (missing, 0, NaN) reads as 0; a negative or fractional count is not modelled.
- `FeatureConfig.IsFeatureAvailable`: tiers are the three values in the table, so the source's final `return false` for an unknown tier cannot be reached and is not modelled. `isPro` is a boolean.
- `Catalog.RecommendationsWith`: an extension id inherited from `Object.prototype` (such as "constructor") is not modelled. The model treats it as unknown and returns []. The source would call `slice` on a function there and throw.
- `FeatureConfig.IndexOfKey`: inherited keys are likewise treated as unknown. The source reaches the same answers for them (not available, unbounded) because the inherited values have no `tier` or `limit`.
- `Security.IsAllowedURL`: the argument is a string. The source calls `url.startsWith` without a type check, so a non-string throws a TypeError there; that error path is not modelled.
- `Security.ValidateFlags`: the argument is a string, as the source calls `split` on it without a type check.
- `PopupLemmas.QuickInsertSplice`: stated for a selection inside the value (`start <= end <= length`), as a text input guarantees. `Popup.QuickInsert` itself takes any selection and clamps it as `slice` does.

## Findings

| source | as written | input that shows it | evidently intended | confidence | as-written member | corrected member |
|---|---|---|---|---|---|---|
| src/popup/popup.js:564 | `'\b' + escaped + '\b'` in a JavaScript string is the backspace character U+0008, so the fallback pattern asks for two backspaces around the word | "cat" gives the pattern U+0008 `cat` U+0008, whose first token is a literal backspace | a regex word boundary `\\b` on each side | not executed | PopupLemmas.FallbackAsWritten | PopupLemmas.FallbackIntended |
| src/popup/popup.js:546-553 | the table's single-quoted patterns lose their backslashes (`'\d'` is `d`, `'\.'` is `.`, `'\b'` is U+0008), though the comment above them says they are meant for `new RegExp` | "date" gives `d{4}[-/]d{2}[-/]d{2}`, which starts with a literal `d` | `\d{4}[-/]\d{2}[-/]\d{2}`, a digit class first | not executed | PopupLemmas.DateEntryAsWritten | PopupLemmas.DateEntryIntended |
