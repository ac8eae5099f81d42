/**
  Properties of the analyzer: the shape of the issue list, the grade as the
  highest severity found, and the behaviour on a few patterns.
*/
module PerfLemmas {
  import opened Js
  import opened PerfAnalyzer

  // ---------------------------------------------------------------------------
  // The issue list

  /** A non-empty pattern's report carries the issue list unchanged (the
      source's literal `issues: []` in the safe branch is the same list). */
  lemma ReportIssues(p: string)
    requires p != ""
    ensures Analyze(Str(p)).issues == Issues(p)
  {
    GradeSafe(Issues(p));
  }

  /** Only an empty issue list is graded safe. */
  lemma GradeSafe(issues: seq<Issue>)
    ensures Grade(issues) == Safe ==> issues == []
  {
  }

  /** The hazard issues follow the table's order, each entry at most once and
      exactly when its expression matches; the length issue, when present, is
      the last; so there are at most eight issues. */
  lemma IssueOrder(p: string)
    ensures var f := Found(Hits(p), 0);
      && Increasing(f)
      && (forall k | 0 <= k < HazardCount :: k in f <==> Detects(k, p))
      && (forall i | 0 <= i < |f| :: Issues(p)[i] == IssueOf(HazardAt(f[i])))
      && |Issues(p)| <= HazardCount + 1
  {
  }

  /** No hazard is graded safe, and the one hazard graded info has a label
      shorter than any length issue's. */
  lemma HazardIssue(h: Hazard)
    ensures Severity(h) != Safe
    ensures Severity(h) == Info ==> h == LongChain && |Label(h)| == 22
  {
  }

  /** The length issue is present exactly when the pattern is longer than the
      limit, and its label carries the length in decimal. */
  lemma LengthIssueIff(p: string)
    ensures (|p| > LongPatternLimit) <==> (exists i | 0 <= i < |Issues(p)| :: Issues(p)[i] == LengthIssue(|p|))
    ensures LengthIssue(|p|).text == "Very long pattern (" + DecimalString(|p|) + " chars)"
  {
    var r := Issues(p);
    var f := Found(Hits(p), 0);
    if |p| > LongPatternLimit {
      assert r[|r| - 1] == LengthIssue(|p|);
    } else {
      forall i | 0 <= i < |r| ensures r[i] != LengthIssue(|p|) {
        HazardIssue(HazardAt(f[i]));
        assert |LengthIssue(|p|).text| >= 27;
      }
    }
  }

  // ---------------------------------------------------------------------------
  // The grade

  function Rank(l: Level): nat {
    match l
    case Safe => 0
    case Info => 1
    case Warning => 2
    case Danger => 3
  }

  /** The highest rank among the issues' severities; 0 for none. */
  function MaxRank(issues: seq<Issue>): nat {
    if issues == [] then 0
    else
      var m := MaxRank(issues[1..]);
      var h := Rank(issues[0].severity);
      if h > m then h else m
  }

  predicate NoSafeIssue(issues: seq<Issue>) {
    forall i | 0 <= i < |issues| :: issues[i].severity != Safe
  }

  lemma {:induction false} MaxRankIs(issues: seq<Issue>, l: Level)
    requires l != Safe
    ensures MaxRank(issues) >= Rank(l) <==> exists i | 0 <= i < |issues| :: Rank(issues[i].severity) >= Rank(l)
    decreases |issues|
  {
    if issues != [] {
      var t := issues[1..];
      MaxRankIs(t, l);
      if MaxRank(issues) >= Rank(l) {
        if Rank(issues[0].severity) < Rank(l) {
          var i :| 0 <= i < |t| && Rank(t[i].severity) >= Rank(l);
          assert issues[i + 1] == t[i];
        }
      }
      forall i | 0 <= i < |issues| && Rank(issues[i].severity) >= Rank(l)
        ensures MaxRank(issues) >= Rank(l)
      {
        if i > 0 {
          assert t[i - 1] == issues[i];
        }
      }
    }
  }

  /** The grade is the highest severity found: danger if some issue is a
      danger, else warning if some is a warning, else info if there is any
      issue, else safe. */
  lemma GradeIsHighest(issues: seq<Issue>)
    requires NoSafeIssue(issues)
    ensures Rank(Grade(issues)) == MaxRank(issues)
    ensures Grade(issues) == Safe <==> issues == []
  {
    MaxRankIs(issues, Danger);
    MaxRankIs(issues, Warning);
    MaxRankIs(issues, Info);
    if HasSeverity(issues, Danger) {
      var i :| 0 <= i < |issues| && issues[i].severity == Danger;
    } else if HasSeverity(issues, Warning) {
      var i :| 0 <= i < |issues| && issues[i].severity == Warning;
      assert forall j | 0 <= j < |issues| :: Rank(issues[j].severity) < 3;
    } else if issues != [] {
      assert Rank(issues[0].severity) >= 1;
      assert forall j | 0 <= j < |issues| :: Rank(issues[j].severity) < 2;
    }
  }

  lemma IssuesNotSafe(p: string)
    ensures NoSafeIssue(Issues(p))
  {
    var r := Issues(p);
    var f := Found(Hits(p), 0);
    forall i | 0 <= i < |r| ensures r[i].severity != Safe {
      if i < |f| {
        HazardIssue(HazardAt(f[i]));
      }
    }
  }

  /** The score of a non-empty pattern is the highest severity among its
      issues, with its fixed label and colour. */
  lemma ScoreIsHighest(p: string)
    requires p != ""
    ensures var r := Analyze(Str(p));
      && Rank(r.score) == MaxRank(Issues(p))
      && (r.score == Danger <==> HasSeverity(Issues(p), Danger))
      && (r.score == Safe <==> Issues(p) == [])
  {
    IssuesNotSafe(p);
    GradeIsHighest(Issues(p));
  }

  /** One danger issue makes the whole list a danger, wherever it sits. */
  lemma DangerDominates(issues: seq<Issue>, d: Issue, more: seq<Issue>)
    requires d.severity == Danger
    ensures Grade(issues + [d] + more) == Danger
  {
    assert (issues + [d] + more)[|issues|] == d;
  }

  // ---------------------------------------------------------------------------
  // Individual hazards and patterns

  /** The lookaround hazard needs a lookahead "(?=" or "(?!": a lookbehind such
      as "(?<=" never triggers it on its own. */
  lemma LookaheadOnly(s: string)
    requires QuantifiedLookahead(s)
    ensures Includes(s, "(?=") || Includes(s, "(?!")
  {
    var i, k, q :| 0 <= i && i + 3 <= k < q < |s| && LookaheadAt(s, i, k, q);
    if s[i + 2] == '=' {
      assert OccursAt(s, "(?=", i);
    } else {
      assert OccursAt(s, "(?!", i);
    }
  }

  /** A hazard expression whose literal characters do not occur cannot match. */
  lemma AbsentChars(s: string)
    requires '|' !in s && '.' !in s && '{' !in s && '?' !in s
    ensures !QuantifiedAlternation(s) && !MultipleWildcards(s) && !RepeatedCountedGroup(s)
    ensures !LongAlternation(s) && !QuantifiedLookahead(s)
  {
  }

  /** A stretch of positions that do not hold adds nothing to what is found. */
  lemma {:induction false} FoundSkips(hits: seq<bool>, m: nat, n: nat)
    requires m <= n <= |hits| && forall j | m <= j < n :: !hits[j]
    ensures Found(hits, m) == Found(hits, n)
    decreases n - m
  {
    if m < n {
      FoundSkips(hits, m + 1, n);
    }
  }

  /** The positions found are exactly the ones that hold: none, or one. */
  lemma FoundOnly(hits: seq<bool>, k: nat)
    requires k < |hits| && forall j | 0 <= j < |hits| && j != k :: !hits[j]
    ensures Found(hits, 0) == if hits[k] then [k] else []
  {
    FoundSkips(hits, 0, k);
    FoundSkips(hits, k + 1, |hits|);
  }

  /** Of the seven hazard expressions only the nested-quantifier one matches
      `(a+)+`. */
  lemma NestedQuantifierHits()
    ensures Hits("(a+)+") == [true, false, false, false, false, false, false]
  {
    var s := "(a+)+";
    assert NestedAt(s, 0, 3) by {
      assert IsQuant(s[2]);
    }
    AbsentChars(s);
    assert !QuantifiedShorthandGroup(s);
    var h := Hits(s);
    assert h[0] && !h[1] && !h[2] && !h[3] && !h[4] && !h[5] && !h[6];
  }

  /** The only issue of `(a+)+` is the nested-quantifier one. */
  lemma NestedQuantifierIssues()
    ensures Issues("(a+)+") == [IssueOf(Nested)]
  {
    NestedQuantifierHits();
    FoundOnly(Hits("(a+)+"), 0);
  }

  /** `(a+)+` is graded danger with the nested-quantifier issue alone. */
  lemma NestedQuantifierExample()
    ensures Analyze(Str("(a+)+")) == Report(Danger, "Dangerous", [IssueOf(Nested)], "#ef4444", Some("\U{1F534}"))
  {
    var r := [IssueOf(Nested)];
    NestedQuantifierIssues();
    assert HasSeverity(r, Danger) by {
      assert r[0].severity == Danger;
    }
  }

  /** `hello` matches no hazard expression and is not long. */
  lemma HelloIssues()
    ensures Issues("hello") == []
  {
    var s := "hello";
    AbsentChars(s);
    assert !NestedQuantifiers(s);
    assert !QuantifiedShorthandGroup(s);
    var h := Hits(s);
    assert !h[0] && !h[1] && !h[2] && !h[3] && !h[4] && !h[5] && !h[6];
    FoundOnly(h, 0);
  }

  /** `hello` has no issue and is graded safe, with the safe icon. */
  lemma HelloIsSafe()
    ensures Analyze(Str("hello")) == Report(Safe, "Safe", [], "#22c55e", Some("\U{1F7E2}"))
  {
    HelloIssues();
  }
}
