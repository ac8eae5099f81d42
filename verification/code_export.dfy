/**
  The code-export generator: a copy-ready snippet that uses the pattern in
  one of eight languages, and the table of those languages.
*/
module CodeExport {
  import opened Js

  datatype Language = Language(id: string, name: string, icon: string)

  /** `getLanguages` */
  function Languages(): (r: seq<Language>)
    ensures |r| == 8
  {
    [ Language("javascript", "JavaScript", "\U{1F7E8}"),
      Language("python", "Python", "\U{1F40D}"),
      Language("java", "Java", "\U{2615}"),
      Language("php", "PHP", "\U{1F418}"),
      Language("go", "Go", "\U{1F535}"),
      Language("ruby", "Ruby", "\U{1F48E}"),
      Language("csharp", "C#", "\U{1F7E3}"),
      Language("rust", "Rust", "\U{1F980}") ]
  }

  // ---------------------------------------------------------------------------
  // Escaping for a double-quoted string literal

  /** The three global replacements of `generate`, backslash first. */
  function Chain(p: string): string {
    ReplaceAll(ReplaceAll(ReplaceAll(p, '\\', "\\\\"), '\'', "\\'"), '"', "\\\"")
  }

  /** `esc`: every backslash and quote of the pattern gets a backslash of
      its own, so that reading the literal back gives the pattern. */
  function Esc(p: string): (r: string)
    ensures r == EscapeEach(p)
    ensures Unescape(r) == p
  {
    EscIsEscapeEach(p);
    UnescapeEach(p);
    Chain(p)
  }

  /** What one character of the pattern becomes in the escaped text. */
  function EscChar(c: char): string {
    if c == '\\' || c == '\'' || c == '"' then ['\\', c] else [c]
  }

  function EscapeEach(p: string): (r: string)
    ensures |r| >= |p|
  {
    if p == [] then [] else EscChar(p[0]) + EscapeEach(p[1..])
  }

  lemma EscOne(c: char)
    ensures Chain([c]) == EscChar(c)
  {
    ReplaceOne(c, '\\', "\\\\");
    if c == '\\' {
      ReplaceAbsent("\\\\", '\'', "\\'");
      ReplaceAbsent("\\\\", '"', "\\\"");
    } else {
      ReplaceOne(c, '\'', "\\'");
      if c == '\'' {
        ReplaceAbsent("\\'", '"', "\\\"");
      } else {
        ReplaceOne(c, '"', "\\\"");
      }
    }
  }

  /** Replacing the three characters one after the other escapes each
      character of the pattern on its own: a backslash that the first pass
      inserts is not touched again by the later passes. */
  lemma {:induction false} EscIsEscapeEach(p: string)
    ensures Chain(p) == EscapeEach(p)
  {
    if p != [] {
      var c, t := p[0], p[1..];
      assert p == [c] + t;
      ReplaceAllConcat([c], t, '\\', "\\\\");
      var a1, b1 := ReplaceAll([c], '\\', "\\\\"), ReplaceAll(t, '\\', "\\\\");
      ReplaceAllConcat(a1, b1, '\'', "\\'");
      var a2, b2 := ReplaceAll(a1, '\'', "\\'"), ReplaceAll(b1, '\'', "\\'");
      ReplaceAllConcat(a2, b2, '"', "\\\"");
      EscOne(c);
      EscIsEscapeEach(t);
    }
  }

  /** Reads an escaped literal back: a backslash takes the next character
      literally. */
  function Unescape(s: string): string
    decreases |s|
  {
    if s == [] then []
    else if s[0] == '\\' && |s| >= 2 then [s[1]] + Unescape(s[2..])
    else [s[0]] + Unescape(s[1..])
  }

  lemma {:induction false} UnescapeEach(p: string)
    ensures Unescape(EscapeEach(p)) == p
  {
    if p != [] {
      var e := EscapeEach(p);
      var rest := EscapeEach(p[1..]);
      assert e == EscChar(p[0]) + rest;
      UnescapeEach(p[1..]);
      if p[0] == '\\' || p[0] == '\'' || p[0] == '"' {
        assert e[2..] == rest;
      } else {
        assert e[1..] == rest;
      }
    }
  }

  // ---------------------------------------------------------------------------
  // Flags

  /** The option names for the flag letters present in `flags`, in the order
      the letters are listed (`flags.includes(letter)`, then `push`). */
  function Selected(flags: string, letters: string, names: seq<string>): (r: seq<string>)
    requires |letters| == |names|
    ensures |r| <= |names|
    ensures forall i | 0 <= i < |r| :: r[i] in names
  {
    if letters == [] then []
    else (if letters[0] in flags then [names[0]] else []) + Selected(flags, letters[1..], names[1..])
  }

  /** Only which of the listed letters occur matters: neither the order of
      the flags, nor repeats, nor other letters such as `g`. */
  lemma {:induction false} SelectedDependsOnLetters(f1: string, f2: string, letters: string, names: seq<string>)
    requires |letters| == |names|
    requires forall i | 0 <= i < |letters| :: letters[i] in f1 <==> letters[i] in f2
    ensures Selected(f1, letters, names) == Selected(f2, letters, names)
    decreases |letters|
  {
    if letters != [] {
      SelectedDependsOnLetters(f1, f2, letters[1..], names[1..]);
    }
  }

  /** With distinct letters and names, a name is selected exactly when its
      letter occurs, and then once. */
  lemma {:induction false} SelectedExactly(flags: string, letters: string, names: seq<string>, k: nat)
    requires |letters| == |names| && k < |names|
    requires forall i, j | 0 <= i < j < |names| :: names[i] != names[j]
    ensures names[k] in Selected(flags, letters, names) <==> letters[k] in flags
    ensures Occurrences(Selected(flags, letters, names), names[k]) <= 1
    decreases |letters|
  {
    var r := Selected(flags, letters, names);
    var head: seq<string> := if letters[0] in flags then [names[0]] else [];
    var tail := Selected(flags, letters[1..], names[1..]);
    assert r == head + tail;
    OccurrencesAppend(head, tail, names[k]);
    OccurrencesAppend(tail, [], names[k]);
    if k == 0 {
      assert names[0] !in tail;
    } else {
      SelectedExactly(flags, letters[1..], names[1..], k - 1);
      assert names[1..][k - 1] == names[k];
      assert names[k] !in head;
    }
  }

  /** The name of one flag letter when the letter occurs, else nothing:
      one `if (flags.includes(letter)) list.push(name)` line. */
  function Pick(flags: string, letter: char, name: string): seq<string> {
    if letter in flags then [name] else []
  }

  /** Selecting over two stretches of letters selects over the first and then
      over the second, so the names keep the order their letters are listed
      in. */
  lemma {:induction false} SelectedConcat(flags: string, l1: string, n1: seq<string>, l2: string, n2: seq<string>)
    requires |l1| == |n1| && |l2| == |n2|
    ensures Selected(flags, l1 + l2, n1 + n2) == Selected(flags, l1, n1) + Selected(flags, l2, n2)
    decreases |l1|
  {
    if l1 == [] {
      assert l1 + l2 == l2 && n1 + n2 == n2;
    } else {
      assert (l1 + l2)[1..] == l1[1..] + l2;
      assert (n1 + n2)[1..] == n1[1..] + n2;
      SelectedConcat(flags, l1[1..], n1[1..], l2, n2);
    }
  }

  /** Three letters give the three `if … push` lines in turn. */
  lemma SelectedThree(flags: string, letters: string, names: seq<string>)
    requires |letters| == 3 && |names| == 3
    ensures Selected(flags, letters, names)
      == Pick(flags, letters[0], names[0]) + Pick(flags, letters[1], names[1]) + Pick(flags, letters[2], names[2])
  {
    assert letters == letters[..1] + letters[1..];
    assert names == names[..1] + names[1..];
    SelectedConcat(flags, letters[..1], names[..1], letters[1..], names[1..]);
    assert letters[1..] == letters[1..2] + letters[2..];
    assert names[1..] == names[1..2] + names[2..];
    SelectedConcat(flags, letters[1..2], names[1..2], letters[2..], names[2..]);
  }

  /** Occurrences of `x` in a sequence of strings. */
  function Occurrences(s: seq<string>, x: string): nat {
    if s == [] then 0 else (if s[0] == x then 1 else 0) + Occurrences(s[1..], x)
  }

  lemma OccurrencesAppend(a: seq<string>, b: seq<string>, x: string)
    ensures Occurrences(a + b, x) == Occurrences(a, x) + Occurrences(b, x)
    ensures x !in a ==> Occurrences(a, x) == 0
  {
    if a != [] {
      assert (a + b)[1..] == a[1..] + b;
      OccurrencesAppend(a[1..], b, x);
    } else {
      assert a + b == b;
    }
  }

  /** `flags.length ? ', ' + flags.join(' | ') : ''` */
  function OptionSuffix(options: seq<string>): string {
    if |options| > 0 then ", " + Join(options, " | ") else ""
  }

  const OptionLetters: string := "ims"

  /** Python's options: IGNORECASE, MULTILINE, DOTALL, each present exactly
      when its letter is, in that order whatever the order of the flags. */
  function PythonOptions(flags: string): (r: seq<string>)
    ensures r == Pick(flags, 'i', "re.IGNORECASE") + Pick(flags, 'm', "re.MULTILINE") + Pick(flags, 's', "re.DOTALL")
  {
    SelectedThree(flags, OptionLetters, ["re.IGNORECASE", "re.MULTILINE", "re.DOTALL"]);
    Selected(flags, OptionLetters, ["re.IGNORECASE", "re.MULTILINE", "re.DOTALL"])
  }

  /** Java's options, in the same fixed order. */
  function JavaOptions(flags: string): (r: seq<string>)
    ensures r == Pick(flags, 'i', "Pattern.CASE_INSENSITIVE") + Pick(flags, 'm', "Pattern.MULTILINE")
      + Pick(flags, 's', "Pattern.DOTALL")
  {
    SelectedThree(flags, OptionLetters, ["Pattern.CASE_INSENSITIVE", "Pattern.MULTILINE", "Pattern.DOTALL"]);
    Selected(flags, OptionLetters, ["Pattern.CASE_INSENSITIVE", "Pattern.MULTILINE", "Pattern.DOTALL"])
  }

  /** C#'s options, in the same fixed order; `s` is called Singleline there. */
  function CSharpOptions(flags: string): (r: seq<string>)
    ensures r == Pick(flags, 'i', "RegexOptions.IgnoreCase") + Pick(flags, 'm', "RegexOptions.Multiline")
      + Pick(flags, 's', "RegexOptions.Singleline")
  {
    SelectedThree(flags, OptionLetters, ["RegexOptions.IgnoreCase", "RegexOptions.Multiline", "RegexOptions.Singleline"]);
    Selected(flags, OptionLetters, ["RegexOptions.IgnoreCase", "RegexOptions.Multiline", "RegexOptions.Singleline"])
  }

  /** Ruby keeps `i` then `m`, joined without separator. */
  function RubyFlags(flags: string): (r: string)
    ensures r in {"", "i", "m", "im"}
    ensures ('i' in r <==> 'i' in flags) && ('m' in r <==> 'm' in flags)
  {
    var i, m := 'i' in flags, 'm' in flags;
    if i && m then "im" else if i then "i" else if m then "m" else ""
  }

  /** `s.indexOf(c)`, with `|s|` standing for "not found". */
  function IndexOf(s: string, c: char): (k: nat)
    ensures k <= |s|
    ensures k < |s| ==> s[k] == c
    ensures forall j | 0 <= j < k :: s[j] != c
  {
    if s == [] then 0 else if s[0] == c then 0 else 1 + IndexOf(s[1..], c)
  }

  /** `flags.replace('g', '')`: with a string pattern only the first
      occurrence is replaced. */
  function RemoveFirst(s: string, c: char): (r: string)
    ensures c !in s ==> r == s
    ensures |r| == |s| - (if c in s then 1 else 0)
  {
    var k := IndexOf(s, c);
    if k == |s| then s else s[..k] + s[k + 1..]
  }

  /** PHP drops exactly one `g` when there is one and keeps every other flag. */
  lemma PhpFlagsCount(flags: string, c: char)
    ensures Js.Count(RemoveFirst(flags, 'g'), c) ==
      Js.Count(flags, c) - (if c == 'g' && 'g' in flags then 1 else 0)
  {
    var k := IndexOf(flags, 'g');
    if k < |flags| {
      var a, b := flags[..k], flags[k + 1..];
      assert flags == a + ([flags[k]] + b);
      Js.CountConcat(a, [flags[k]] + b, c);
      Js.CountConcat([flags[k]], b, c);
      Js.CountConcat(a, b, c);
    }
  }

  /** The flags PHP keeps stay in their order: removing the first `g` keeps
      every character before it and shifts the rest by one. */
  lemma PhpFlagsOrder(flags: string)
    ensures var k := IndexOf(flags, 'g'); var r := RemoveFirst(flags, 'g');
      && (forall j | 0 <= j < k && j < |r| :: r[j] == flags[j])
      && (forall j | k <= j < |r| :: r[j] == flags[j + 1])
  {
  }

  // ---------------------------------------------------------------------------
  // The snippets

  /** The comment line every snippet starts with. */
  function Header(comment: string, name: string): string {
    comment + " " + name + "\n"
  }

  /** The regular-expression literal or string each snippet builds its
      expression from. */
  function Embedded(p: string, flags: string, lang: string): string {
    if lang == "javascript" then "/" + p + "/" + flags
    else if lang == "python" || lang == "rust" then "r\"" + p + "\""
    else if lang == "java" then "\"" + Esc(p) + "\""
    else if lang == "php" then "'/" + p + "/" + RemoveFirst(flags, 'g') + "'"
    else if lang == "go" then "`" + p + "`"
    else if lang == "ruby" then "/" + p + "/" + RubyFlags(flags)
    else if lang == "csharp" then "@\"" + p + "\""
    else p
  }

  /** The comment marker of a language's snippet. */
  function CommentOf(lang: string): string {
    if lang == "python" || lang == "ruby" then "#" else "//"
  }

  /** The display name the comment line shows: the language's name, or the
      id itself for an id with no snippet of its own. */
  function NameOf(lang: string): string {
    if lang == "javascript" then "JavaScript"
    else if lang == "python" then "Python"
    else if lang == "java" then "Java"
    else if lang == "php" then "PHP"
    else if lang == "go" then "Go"
    else if lang == "ruby" then "Ruby"
    else if lang == "csharp" then "C#"
    else if lang == "rust" then "Rust"
    else lang
  }

  function JavaScriptBody(e: string): string {
    "const regex = " + e + ";\nconst matches = text.match(regex);\nconsole.log(matches);"
  }

  function PythonBody(e: string, options: string): string {
    "import re\n\npattern = " + e + "\nmatches = re.findall(pattern, text" + options + ")\nprint(matches)"
  }

  function JavaBody(e: string, options: string): string {
    "import java.util.regex.*;\n\nPattern pattern = Pattern.compile(" + e + options
      + ");\nMatcher matcher = pattern.matcher(text);\nwhile (matcher.find()) {\n    System.out.println(matcher.group());\n}"
  }

  function PhpBody(e: string): string {
    "$pattern = " + e + ";\npreg_match_all($pattern, $text, $matches);\nprint_r($matches[0]);"
  }

  function GoBody(e: string): string {
    "import \"regexp\"\n\nre := regexp.MustCompile(" + e + ")\nmatches := re.FindAllString(text, -1)\nfmt.Println(matches)"
  }

  function RubyBody(e: string): string {
    "pattern = " + e + "\nmatches = text.scan(pattern)\nputs matches"
  }

  function CSharpBody(e: string, options: string): string {
    "using System.Text.RegularExpressions;\n\nvar regex = new Regex(" + e + options
      + ");\nvar matches = regex.Matches(text);\nforeach (Match m in matches)\n    Console.WriteLine(m.Value);"
  }

  function RustBody(e: string): string {
    "use regex::Regex;\n\nlet re = Regex::new(" + e
      + ").unwrap();\nfor cap in re.find_iter(&text) {\n    println!(\"{}\", cap.as_str());\n}"
  }

  function FallbackBody(p: string, flags: string): string {
    "// Pattern: " + p + "\n// Flags: " + flags
  }

  /** The snippet after its comment line: the `switch` on the language id. */
  function Body(p: string, flags: string, lang: string): string {
    var e := Embedded(p, flags, lang);
    if lang == "javascript" then JavaScriptBody(e)
    else if lang == "python" then PythonBody(e, OptionSuffix(PythonOptions(flags)))
    else if lang == "java" then JavaBody(e, OptionSuffix(JavaOptions(flags)))
    else if lang == "php" then PhpBody(e)
    else if lang == "go" then GoBody(e)
    else if lang == "ruby" then RubyBody(e)
    else if lang == "csharp" then CSharpBody(e, OptionSuffix(CSharpOptions(flags)))
    else if lang == "rust" then RustBody(e)
    else FallbackBody(p, flags)
  }

  /** `generate`: the header comment, then a snippet that carries the
      pattern in the language's own literal. */
  function Generate(p: string, flags: string, lang: string): (r: string)
    ensures StartsWith(r, Header(CommentOf(lang), NameOf(lang)))
    ensures lang in Ids ==> Includes(r, Embedded(p, flags, lang))
  {
    var h := Header(CommentOf(lang), NameOf(lang));
    StartsWithConcat(h, Body(p, flags, lang));
    if lang in Ids then
      BodyEmbeds(p, flags, lang);
      IncludesPrepend(h, Body(p, flags, lang), Embedded(p, flags, lang));
      h + Body(p, flags, lang)
    else
      h + Body(p, flags, lang)
  }

  // ---------------------------------------------------------------------------
  // Properties of the snippets

  predicate IsKnown(lang: string) {
    exists i | 0 <= i < |Languages()| :: Languages()[i].id == lang
  }

  /** The eight language ids are distinct. */
  lemma LanguageIdsDistinct()
    ensures forall i, j | 0 <= i < j < |Languages()| :: Languages()[i].id != Languages()[j].id
  {
    var l := Languages();
    assert l[0].id[0] == 'j' && l[1].id[0] == 'p' && l[2].id[0] == 'j' && l[3].id[0] == 'p';
    assert l[4].id[0] == 'g' && l[5].id[0] == 'r' && l[6].id[0] == 'c' && l[7].id[0] == 'r';
    assert |l[0].id| == 10 && |l[2].id| == 4;
    assert l[1].id[1] == 'y' && l[3].id[1] == 'h';
    assert l[5].id[1] == 'u' && l[7].id[1] == 'u' && l[5].id[2] == 'b' && l[7].id[2] == 's';
  }

  /** Every listed language is shown under its own name. */
  lemma NamesMatch(k: nat)
    requires k < |Languages()|
    ensures NameOf(Languages()[k].id) == Languages()[k].name
  {
    LanguageIdsDistinct();
  }

  const Ids: set<string> := {"javascript", "python", "java", "php", "go", "ruby", "csharp", "rust"}

  lemma KnownIds(lang: string)
    ensures IsKnown(lang) <==> lang in Ids
  {
    var l := Languages();
    if lang == "javascript" { assert l[0].id == lang; }
    else if lang == "python" { assert l[1].id == lang; }
    else if lang == "java" { assert l[2].id == lang; }
    else if lang == "php" { assert l[3].id == lang; }
    else if lang == "go" { assert l[4].id == lang; }
    else if lang == "ruby" { assert l[5].id == lang; }
    else if lang == "csharp" { assert l[6].id == lang; }
    else if lang == "rust" { assert l[7].id == lang; }
  }

  /** Java's literal carries the escaped pattern; every other expression the
      pattern as it is. */
  lemma EmbeddedPattern(p: string, flags: string, lang: string)
    ensures lang == "java" ==> Embedded(p, flags, lang) == "\"" + Esc(p) + "\""
    ensures lang != "java" ==> Includes(Embedded(p, flags, lang), p)
  {
    if lang == "javascript" || lang == "ruby" {
      IncludesEnd("/", p);
      IncludesExtend("/" + p, p, "/");
      IncludesExtend("/" + p + "/", p, if lang == "ruby" then RubyFlags(flags) else flags);
    } else if lang == "python" || lang == "rust" {
      IncludesEnd("r\"", p);
      IncludesExtend("r\"" + p, p, "\"");
    } else if lang == "php" {
      IncludesEnd("'/", p);
      IncludesExtend("'/" + p, p, "/");
      IncludesExtend("'/" + p + "/", p, RemoveFirst(flags, 'g'));
      IncludesExtend("'/" + p + "/" + RemoveFirst(flags, 'g'), p, "'");
    } else if lang == "go" {
      IncludesEnd("`", p);
      IncludesExtend("`" + p, p, "`");
    } else if lang == "csharp" {
      IncludesEnd("@\"", p);
      IncludesExtend("@\"" + p, p, "\"");
    } else if lang != "java" {
      IncludesEnd("", p);
      assert "" + p == p;
    }
  }

  lemma HoldsMiddle(a: string, e: string, o: string, b: string)
    ensures Includes(a + e + o + b, e)
  {
    IncludesEnd(a, e);
    IncludesExtend(a + e, e, o);
    IncludesExtend(a + e + o, e, b);
  }

  lemma JavaScriptBodyHolds(e: string)
    ensures Includes(JavaScriptBody(e), e)
  {
    IncludesConcat("const regex = ", e, ";\nconst matches = text.match(regex);\nconsole.log(matches);");
  }

  lemma PythonBodyHolds(e: string, o: string)
    ensures Includes(PythonBody(e, o), e)
  {
    HoldsMiddle("import re\n\npattern = ", e, "\nmatches = re.findall(pattern, text", o);
    IncludesExtend("import re\n\npattern = " + e + "\nmatches = re.findall(pattern, text" + o, e, ")\nprint(matches)");
  }

  lemma JavaBodyHolds(e: string, o: string)
    ensures Includes(JavaBody(e, o), e)
  {
    HoldsMiddle("import java.util.regex.*;\n\nPattern pattern = Pattern.compile(", e, o,
      ");\nMatcher matcher = pattern.matcher(text);\nwhile (matcher.find()) {\n    System.out.println(matcher.group());\n}");
  }

  lemma PhpBodyHolds(e: string)
    ensures Includes(PhpBody(e), e)
  {
    IncludesConcat("$pattern = ", e, ";\npreg_match_all($pattern, $text, $matches);\nprint_r($matches[0]);");
  }

  lemma GoBodyHolds(e: string)
    ensures Includes(GoBody(e), e)
  {
    IncludesConcat("import \"regexp\"\n\nre := regexp.MustCompile(", e,
      ")\nmatches := re.FindAllString(text, -1)\nfmt.Println(matches)");
  }

  lemma RubyBodyHolds(e: string)
    ensures Includes(RubyBody(e), e)
  {
    IncludesConcat("pattern = ", e, "\nmatches = text.scan(pattern)\nputs matches");
  }

  lemma CSharpBodyHolds(e: string, o: string)
    ensures Includes(CSharpBody(e, o), e)
  {
    HoldsMiddle("using System.Text.RegularExpressions;\n\nvar regex = new Regex(", e, o,
      ");\nvar matches = regex.Matches(text);\nforeach (Match m in matches)\n    Console.WriteLine(m.Value);");
  }

  lemma RustBodyHolds(e: string)
    ensures Includes(RustBody(e), e)
  {
    IncludesConcat("use regex::Regex;\n\nlet re = Regex::new(", e,
      ").unwrap();\nfor cap in re.find_iter(&text) {\n    println!(\"{}\", cap.as_str());\n}");
  }

  /** Each body holds the expression it is given. */
  lemma BodyEmbeds(p: string, flags: string, lang: string)
    requires lang in Ids
    ensures Includes(Body(p, flags, lang), Embedded(p, flags, lang))
  {
    var e := Embedded(p, flags, lang);
    if lang == "javascript" {
      JavaScriptBodyHolds(e);
    } else if lang == "python" {
      PythonBodyHolds(e, OptionSuffix(PythonOptions(flags)));
    } else if lang == "java" {
      JavaBodyHolds(e, OptionSuffix(JavaOptions(flags)));
    } else if lang == "php" {
      PhpBodyHolds(e);
    } else if lang == "go" {
      GoBodyHolds(e);
    } else if lang == "ruby" {
      RubyBodyHolds(e);
    } else if lang == "csharp" {
      CSharpBodyHolds(e, OptionSuffix(CSharpOptions(flags)));
    } else {
      RustBodyHolds(e);
    }
  }

  /** The snippet of every listed language contains its expression. */
  lemma SnippetEmbeds(p: string, flags: string, lang: string)
    requires IsKnown(lang)
    ensures Includes(Generate(p, flags, lang), Embedded(p, flags, lang))
  {
    KnownIds(lang);
    BodyEmbeds(p, flags, lang);
    IncludesPrepend(Header(CommentOf(lang), NameOf(lang)), Body(p, flags, lang), Embedded(p, flags, lang));
  }

  /** An id with no snippet of its own gets the fallback comment, which
      names the id, the pattern and the flags. */
  lemma FallbackSnippet(p: string, flags: string, lang: string)
    requires !IsKnown(lang)
    ensures Generate(p, flags, lang) == Header("//", lang) + FallbackBody(p, flags)
    ensures Includes(Generate(p, flags, lang), lang) && Includes(Generate(p, flags, lang), p)
      && Includes(Generate(p, flags, lang), flags)
  {
    KnownIds(lang);
    var h, b := Header("//", lang), FallbackBody(p, flags);
    IncludesEnd("//" + " ", lang);
    IncludesExtend("//" + " " + lang, lang, "\n");
    IncludesExtend(h, lang, b);
    IncludesEnd("// Pattern: ", p);
    IncludesExtend("// Pattern: " + p, p, "\n// Flags: ");
    IncludesExtend("// Pattern: " + p + "\n// Flags: ", p, flags);
    IncludesPrepend(h, b, p);
    IncludesEnd("// Pattern: " + p + "\n// Flags: ", flags);
    IncludesPrepend(h, b, flags);
  }
}
