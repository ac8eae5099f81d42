/**
  Properties of the popup's HTML output: escaping is undone by decoding the
  five entities, the highlighted copy of the test string reads back as the
  text with one mark element per match, and the match list's note.
*/
module HighlightLemmas {
  import opened Js
  import opened Popup

  // ---------------------------------------------------------------------------
  // HTML escaping

  lemma HtmlChainConcat(a: string, b: string)
    ensures HtmlChain(a + b) == HtmlChain(a) + HtmlChain(b)
  {
    ReplaceAllConcat(a, b, '&', "&amp;");
    var a1, b1 := ReplaceAll(a, '&', "&amp;"), ReplaceAll(b, '&', "&amp;");
    ReplaceAllConcat(a1, b1, '<', "&lt;");
    var a2, b2 := ReplaceAll(a1, '<', "&lt;"), ReplaceAll(b1, '<', "&lt;");
    ReplaceAllConcat(a2, b2, '>', "&gt;");
    var a3, b3 := ReplaceAll(a2, '>', "&gt;"), ReplaceAll(b2, '>', "&gt;");
    ReplaceAllConcat(a3, b3, '"', "&quot;");
    var a4, b4 := ReplaceAll(a3, '"', "&quot;"), ReplaceAll(b3, '"', "&quot;");
    ReplaceAllConcat(a4, b4, '\'', "&#39;");
  }

  /** On one character the five passes give that character's entity: no
      entity a pass writes holds a character a later pass replaces. */
  lemma HtmlOne(c: char)
    ensures HtmlChain([c]) == HtmlChar(c)
  {
    ReplaceOne(c, '&', "&amp;");
    if c == '&' {
      LaterPassesKeep("&amp;", 1);
    } else {
      ReplaceOne(c, '<', "&lt;");
      if c == '<' {
        LaterPassesKeep("&lt;", 2);
      } else {
        ReplaceOne(c, '>', "&gt;");
        if c == '>' {
          LaterPassesKeep("&gt;", 3);
        } else {
          ReplaceOne(c, '"', "&quot;");
          if c == '"' {
            LaterPassesKeep("&quot;", 4);
          } else {
            ReplaceOne(c, '\'', "&#39;");
          }
        }
      }
    }
  }

  /** The passes after the `k`-th leave an entity alone. */
  lemma LaterPassesKeep(e: string, k: nat)
    requires 1 <= k <= 4
    requires forall i | 0 <= i < |e| :: e[i] !in {'<', '>', '"', '\''}
    ensures k <= 1 ==> ReplaceAll(e, '<', "&lt;") == e
    ensures k <= 2 ==> ReplaceAll(e, '>', "&gt;") == e
    ensures k <= 3 ==> ReplaceAll(e, '"', "&quot;") == e
    ensures ReplaceAll(e, '\'', "&#39;") == e
  {
    ReplaceAbsent(e, '<', "&lt;");
    ReplaceAbsent(e, '>', "&gt;");
    ReplaceAbsent(e, '"', "&quot;");
    ReplaceAbsent(e, '\'', "&#39;");
  }

  /** `escapeHtml` escapes each character on its own: the ampersands the
      later passes write are not escaped again, because the ampersand pass
      comes first. */
  lemma {:induction false} EscapeHtmlEach(s: string)
    ensures EscapeHtml(Str(s)) == HtmlEach(s)
  {
    if s != [] {
      assert s == [s[0]] + s[1..];
      HtmlChainConcat([s[0]], s[1..]);
      HtmlOne(s[0]);
      EscapeHtmlEach(s[1..]);
    }
  }

  /** The escaped text holds no raw markup character. */
  lemma EscapedHasNoMarkup(v: Value)
    ensures var r := EscapeHtml(v);
      '<' !in r && '>' !in r && '"' !in r && '\'' !in r
  {
    if v.Str? {
      EscapeHtmlEach(v.s);
      HtmlEachNoMarkup(v.s);
    }
  }

  lemma {:induction false} HtmlEachNoMarkup(s: string)
    ensures var r := HtmlEach(s);
      '<' !in r && '>' !in r && '"' !in r && '\'' !in r
  {
    if s != [] {
      HtmlEachNoMarkup(s[1..]);
      var h, t := HtmlChar(s[0]), HtmlEach(s[1..]);
      assert '<' !in h && '>' !in h && '"' !in h && '\'' !in h;
      forall x | x in h + t ensures x in h || x in t {
      }
    }
  }

  lemma UnescapeEntity(e: string, c: char, rest: string)
    requires (e, c) in {("&amp;", '&'), ("&lt;", '<'), ("&gt;", '>'), ("&quot;", '"'), ("&#39;", '\'')}
    ensures UnescapeHtml(e + rest) == [c] + UnescapeHtml(rest)
  {
    var s := e + rest;
    assert s[..|e|] == e && s[|e|..] == rest;
    assert s[0] == '&' && s[1] == e[1];
    if e == "&amp;" {
      assert StartsWith(s, "&amp;");
    } else if e == "&lt;" {
      assert !StartsWith(s, "&amp;") && StartsWith(s, "&lt;");
    } else if e == "&gt;" {
      assert !StartsWith(s, "&amp;") && !StartsWith(s, "&lt;") && StartsWith(s, "&gt;");
    } else if e == "&quot;" {
      assert !StartsWith(s, "&amp;") && !StartsWith(s, "&lt;") && !StartsWith(s, "&gt;");
      assert StartsWith(s, "&quot;");
    } else {
      assert !StartsWith(s, "&amp;") && !StartsWith(s, "&lt;") && !StartsWith(s, "&gt;");
      assert !StartsWith(s, "&quot;") && StartsWith(s, "&#39;");
    }
  }

  lemma UnescapePlain(c: char, rest: string)
    requires c != '&'
    ensures UnescapeHtml([c] + rest) == [c] + UnescapeHtml(rest)
  {
    var s := [c] + rest;
    assert s[0] == c && s[1..] == rest;
  }

  lemma UnescapeChar(c: char, rest: string)
    ensures UnescapeHtml(HtmlChar(c) + rest) == [c] + UnescapeHtml(rest)
  {
    if c == '&' {
      UnescapeEntity("&amp;", c, rest);
    } else if c == '<' {
      UnescapeEntity("&lt;", c, rest);
    } else if c == '>' {
      UnescapeEntity("&gt;", c, rest);
    } else if c == '"' {
      UnescapeEntity("&quot;", c, rest);
    } else if c == '\'' {
      UnescapeEntity("&#39;", c, rest);
    } else {
      UnescapePlain(c, rest);
    }
  }

  lemma {:induction false} HtmlEachRoundTrip(s: string)
    ensures UnescapeHtml(HtmlEach(s)) == s
  {
    if s != [] {
      UnescapeChar(s[0], HtmlEach(s[1..]));
      HtmlEachRoundTrip(s[1..]);
    }
  }

  /** Decoding the five entities recovers the escaped string. */
  lemma EscapeHtmlRoundTrip(s: string)
    ensures UnescapeHtml(EscapeHtml(Str(s))) == s
  {
    EscapeHtmlEach(s);
    HtmlEachRoundTrip(s);
  }

  // ---------------------------------------------------------------------------
  // The highlighted test string

  lemma {:induction false} HtmlEachConcat(a: string, b: string)
    ensures HtmlEach(a + b) == HtmlEach(a) + HtmlEach(b)
  {
    if a == [] {
      assert a + b == b;
    } else {
      assert (a + b)[1..] == a[1..] + b;
      HtmlEachConcat(a[1..], b);
    }
  }

  /** Text without a `<` passes through the stripping unchanged. */
  lemma {:induction false} StripPlain(a: string, rest: string)
    requires '<' !in a
    ensures StripMarks(a + rest) == a + StripMarks(rest)
  {
    if a == [] {
      assert a + rest == rest;
    } else {
      var s := a + rest;
      assert s[0] == a[0] && s[1..] == a[1..] + rest;
      StripPlain(a[1..], rest);
    }
  }

  lemma StripOpen(rest: string)
    ensures StripMarks(MarkOpen + rest) == StripMarks(rest)
  {
    var s := MarkOpen + rest;
    assert s[..|MarkOpen|] == MarkOpen && s[|MarkOpen|..] == rest;
  }

  lemma StripClose(rest: string)
    ensures StripMarks(MarkClose + rest) == StripMarks(rest)
  {
    var s := MarkClose + rest;
    assert s[1] == '/' && s[..|MarkClose|] == MarkClose && s[|MarkClose|..] == rest;
  }

  lemma Regroup(a: string, b: string, c: string, d: string, e: string)
    ensures a + b + c + d + e == a + (b + (c + (d + e)))
  {
  }

  /** Stripping one marked match keeps the text around it and the match. */
  lemma StripSegment(pre: string, mid: string, tail: string)
    requires '<' !in pre && '<' !in mid
    ensures StripMarks(pre + MarkOpen + mid + MarkClose + tail) == pre + mid + StripMarks(tail)
  {
    Regroup(pre, MarkOpen, mid, MarkClose, tail);
    StripPlain(pre, MarkOpen + (mid + (MarkClose + tail)));
    StripOpen(mid + (MarkClose + tail));
    StripPlain(mid, MarkClose + tail);
    StripClose(tail);
  }

  lemma HtmlEachSplit(text: string, a: nat, i: nat, j: nat)
    requires a <= i <= j <= |text|
    ensures HtmlEach(text[a..i]) + HtmlEach(text[i..j]) + HtmlEach(text[j..]) == HtmlEach(text[a..])
  {
    assert text[a..] == text[a..i] + text[i..j] + text[j..];
    HtmlEachConcat(text[a..i] + text[i..j], text[j..]);
    HtmlEachConcat(text[a..i], text[i..j]);
  }

  /** No piece holds an angle bracket. */
  predicate NoMarkup(parts: seq<string>)
  {
    forall i | 0 <= i < |parts| :: '<' !in parts[i] && '>' !in parts[i]
  }

  /** The pieces of a weave laid end to end, without the tags. */
  function Flat(gaps: seq<string>, vals: seq<string>): string
    requires |gaps| == |vals| + 1
    decreases |vals|
  {
    if vals == [] then gaps[0] else gaps[0] + vals[0] + Flat(gaps[1..], vals[1..])
  }

  /** Removing the tags from a weave of plain pieces leaves the pieces. */
  lemma {:induction false} WeaveStrip(gaps: seq<string>, vals: seq<string>)
    requires |gaps| == |vals| + 1 && NoMarkup(gaps) && NoMarkup(vals)
    ensures StripMarks(Weave(gaps, vals)) == Flat(gaps, vals)
    decreases |vals|
  {
    if vals == [] {
      StripPlain(gaps[0], []);
      assert gaps[0] + [] == gaps[0];
    } else {
      assert NoMarkup(gaps[1..]) by {
        forall i | 0 <= i < |gaps[1..]| ensures '<' !in gaps[1..][i] && '>' !in gaps[1..][i] {
          assert gaps[1..][i] == gaps[i + 1];
        }
      }
      assert NoMarkup(vals[1..]) by {
        forall i | 0 <= i < |vals[1..]| ensures '<' !in vals[1..][i] && '>' !in vals[1..][i] {
          assert vals[1..][i] == vals[i + 1];
        }
      }
      WeaveStrip(gaps[1..], vals[1..]);
      StripSegment(gaps[0], vals[0], Weave(gaps[1..], vals[1..]));
    }
  }

  lemma OpenCount(c: char)
    requires c == '<' || c == '>'
    ensures Count(MarkOpen, c) == 1
  {
    var s := MarkOpen;
    assert s[1..][1..][1..][1..][1..][1..] == [];
  }

  lemma CloseCount(c: char)
    requires c == '<' || c == '>'
    ensures Count(MarkClose, c) == 1
  {
    var s := MarkClose;
    assert s[1..][1..][1..][1..][1..][1..][1..] == [];
  }

  /** One marked piece counts two angle brackets of each kind. */
  lemma SegmentCount(pre: string, mid: string, tail: string, c: char)
    requires c == '<' || c == '>'
    requires c !in pre && c !in mid
    ensures Count(pre + MarkOpen + mid + MarkClose + tail, c) == 2 + Count(tail, c)
  {
    CountZero(pre, c);
    CountZero(mid, c);
    OpenCount(c);
    CloseCount(c);
    CountConcat(pre, MarkOpen, c);
    CountConcat(pre + MarkOpen, mid, c);
    CountConcat(pre + MarkOpen + mid, MarkClose, c);
    CountConcat(pre + MarkOpen + mid + MarkClose, tail, c);
  }

  /** A weave of plain pieces holds two angle brackets of each kind per
      value: those of its tags. */
  lemma {:induction false} WeaveCount(gaps: seq<string>, vals: seq<string>, c: char)
    requires |gaps| == |vals| + 1 && NoMarkup(gaps) && NoMarkup(vals)
    requires c == '<' || c == '>'
    ensures Count(Weave(gaps, vals), c) == 2 * |vals|
    decreases |vals|
  {
    if vals == [] {
      CountZero(gaps[0], c);
    } else {
      assert NoMarkup(gaps[1..]) by {
        forall i | 0 <= i < |gaps[1..]| ensures '<' !in gaps[1..][i] && '>' !in gaps[1..][i] {
          assert gaps[1..][i] == gaps[i + 1];
        }
      }
      assert NoMarkup(vals[1..]) by {
        forall i | 0 <= i < |vals[1..]| ensures '<' !in vals[1..][i] && '>' !in vals[1..][i] {
          assert vals[1..][i] == vals[i + 1];
        }
      }
      WeaveCount(gaps[1..], vals[1..], c);
      SegmentCount(gaps[0], vals[0], Weave(gaps[1..], vals[1..]), c);
    }
  }

  /** Every gap is escaped text, so none holds markup. */
  lemma {:induction false} GapsPlain(text: string, ms: seq<Match>, last: int)
    ensures NoMarkup(Gaps(text, ms, last))
    decreases |ms|
  {
    var g := Gaps(text, ms, last);
    if ms == [] {
      EscapedHasNoMarkup(Str(SliceFrom(text, last)));
    } else {
      var rest := Gaps(text, ms[1..], ms[0].index + |ms[0].value|);
      GapsPlain(text, ms[1..], ms[0].index + |ms[0].value|);
      EscapedHasNoMarkup(Str(Slice(text, last, ms[0].index)));
      forall i | 0 <= i < |g| ensures '<' !in g[i] && '>' !in g[i] {
        if i > 0 {
          assert g[i] == rest[i - 1];
        }
      }
    }
  }

  /** Every marked value is escaped text, so none holds markup. */
  lemma {:induction false} MarkedPlain(ms: seq<Match>)
    ensures NoMarkup(Marked(ms))
  {
    var v := Marked(ms);
    if ms != [] {
      MarkedPlain(ms[1..]);
      EscapedHasNoMarkup(Str(ms[0].value));
      forall i | 0 <= i < |v| ensures '<' !in v[i] && '>' !in v[i] {
        if i > 0 {
          assert v[i] == Marked(ms[1..])[i - 1];
        }
      }
    }
  }

  /** The first gap of matches in place is the escaped text up to the first
      match, and the marked values start with the first match. */
  lemma GapsHead(text: string, ms: seq<Match>, last: nat)
    requires ms != [] && last <= ms[0].index <= |text|
    ensures Gaps(text, ms, last)[0] == HtmlEach(text[last..ms[0].index])
    ensures Gaps(text, ms, last)[1..] == Gaps(text, ms[1..], ms[0].index + |ms[0].value|)
    ensures Marked(ms)[0] == HtmlEach(ms[0].value)
    ensures Marked(ms)[1..] == Marked(ms[1..])
  {
    EscapeHtmlEach(text[last..ms[0].index]);
    EscapeHtmlEach(ms[0].value);
  }

  lemma FlatStep(gaps: seq<string>, vals: seq<string>)
    requires |gaps| == |vals| + 1 && vals != []
    ensures Flat(gaps, vals) == gaps[0] + vals[0] + Flat(gaps[1..], vals[1..])
  {
  }

  /** Laid end to end, the gaps and the marked values of matches that lie in
      order in the text are the escaped text from `last` on. */
  lemma {:induction false} FlatGaps(text: string, ms: seq<Match>, last: nat)
    requires last <= |text| && InPlace(text, ms, last)
    ensures Flat(Gaps(text, ms, last), Marked(ms)) == HtmlEach(text[last..])
    decreases |ms|
  {
    if ms == [] {
      EscapeHtmlEach(text[last..]);
    } else {
      var i, j := ms[0].index, ms[0].index + |ms[0].value|;
      var g, v := Gaps(text, ms, last), Marked(ms);
      FlatGaps(text, ms[1..], j);
      GapsHead(text, ms, last);
      FlatStep(g, v);
      HtmlEachSplit(text, last, i, j);
    }
  }

  /** For matches that lie in order in the text, removing the mark tags
      leaves the escaped text, and decoding it gives the text back. */
  lemma HighlightRoundTrip(text: string, ms: seq<Match>)
    requires InPlace(text, ms, 0)
    ensures StripMarks(BuildHighlighted(text, ms)) == EscapeHtml(Str(text))
    ensures UnescapeHtml(StripMarks(BuildHighlighted(text, ms))) == text
  {
    EscapeHtmlEach(text);
    if ms == [] {
      HtmlEachNoMarkup(text);
      StripPlain(HtmlEach(text), []);
      assert HtmlEach(text) + [] == HtmlEach(text);
    } else {
      GapsPlain(text, ms, 0);
      MarkedPlain(ms);
      WeaveStrip(Gaps(text, ms, 0), Marked(ms));
      FlatGaps(text, ms, 0);
      assert text[0..] == text;
    }
    HtmlEachRoundTrip(text);
  }

  /** The highlighted text holds exactly one mark element per match, and
      nothing else in it is an angle bracket. */
  lemma HighlightMarks(text: string, ms: seq<Match>)
    ensures Count(BuildHighlighted(text, ms), '<') == 2 * |ms|
    ensures Count(BuildHighlighted(text, ms), '>') == 2 * |ms|
  {
    if ms == [] {
      EscapedHasNoMarkup(Str(text));
      CountZero(EscapeHtml(Str(text)), '<');
      CountZero(EscapeHtml(Str(text)), '>');
    } else {
      GapsPlain(text, ms, 0);
      MarkedPlain(ms);
      WeaveCount(Gaps(text, ms, 0), Marked(ms), '<');
      WeaveCount(Gaps(text, ms, 0), Marked(ms), '>');
    }
  }

  // ---------------------------------------------------------------------------
  // The match list

  lemma DecimalOne()
    ensures DecimalString(1) == "1"
  {
    assert ToRadix(1, 10) == [DigitChar(1)];
  }

  /** Fifty-one matches: fifty entries, then a note that one more was found. */
  lemma OneMoreNote(ms: seq<Match>)
    requires |ms| == ListLimit + 1
    ensures |MatchListParts(ms)| == ListLimit + 1
    ensures MatchListParts(ms)[ListLimit] == "<div class=\"empty-state\">...and 1 more</div>"
  {
    var r := MatchListParts(ms);
    assert r[ListLimit] == MoreNote(1);
    MoreNoteOne();
  }

  lemma MoreNoteOne()
    ensures MoreNote(1) == "<div class=\"empty-state\">...and 1 more</div>"
  {
    DecimalOne();
  }
}
