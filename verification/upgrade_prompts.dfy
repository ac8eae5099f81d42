/**
  Upgrade prompts: five rotating prompt variations, the frequency rules
  that decide whether a prompt may be shown, the bookkeeping after a prompt
  is shown or dismissed, and the usage milestones.

  The stored prompt state, the session count and the current time are
  parameters here; the source reads them from extension storage and the
  clock.
*/
module UpgradePrompts {
  import opened Js

  // ---------------------------------------------------------------------------
  // Variations

  const VariationCount := 5

  /** A shown prompt: the variation's fields with its headline computed. */
  datatype Prompt = Prompt(id: string, headline: string, body: string, cta: string, kind: string)

  function VariationId(k: nat): string
    requires k < VariationCount
  {
    match k
    case 0 => "value_focus"
    case 1 => "social_focus"
    case 2 => "feature_focus_ai"
    case 3 => "feature_focus_flavor"
    case _ => "milestone"
  }

  function VariationBody(k: nat): string
    requires k < VariationCount
  {
    match k
    case 0 => "Pro members save 2+ hours/week with unlimited AI regex generation."
    case 1 => "Get Regex Tester Pro plus 8+ other dev tools for one price."
    case 2 => "Generate any regex from plain English, as many times as you need."
    case 3 => "Multi-flavor regex support for fullstack developers."
    case _ => "Unlock advanced features designed for developers like you."
  }

  function VariationCta(k: nat): string
    requires k < VariationCount
  {
    match k
    case 0 => "See what Pro unlocks"
    case 1 => "Explore Zovo Pro"
    case 2 => "Try Zovo Pro"
    case 3 => "Unlock All Engines"
    case _ => "Go Pro"
  }

  function VariationKind(k: nat): string
    requires k < VariationCount
  {
    match k
    case 0 => "value"
    case 1 => "social"
    case 2 | 3 => "feature"
    case _ => "milestone"
  }

  /** The headline of variation `k` for a test count; only the first and the
      last variation mention the count. */
  function Headline(k: nat, tests: nat): string
    requires k < VariationCount
  {
    match k
    case 0 => "You've tested " + DecimalString(tests) + " patterns"
    case 1 => "Join 3,300+ Zovo members"
    case 2 => "Unlock Unlimited AI Generation"
    case 3 => "Test in Python, Go, Java & More"
    case _ => DecimalString(tests) + "+ patterns tested \U{2014} you're a power user"
  }

  /** A missing (or zero) test count counts as zero. */
  function TestsOrZero(totalTests: Option<nat>): nat {
    match totalTests
    case None => 0
    case Some(n) => n
  }

  /** The variation for the test count, rotating through the five. */
  function NextPrompt(totalTests: Option<nat>): (r: Prompt)
    ensures var n := TestsOrZero(totalTests); var k := n % VariationCount;
      && r.id == VariationId(k) && r.body == VariationBody(k)
      && r.cta == VariationCta(k) && r.kind == VariationKind(k)
      && r.headline == Headline(k, n)
  {
    var n := TestsOrZero(totalTests);
    var k := n % VariationCount;
    Prompt(VariationId(k), Headline(k, n), VariationBody(k), VariationCta(k), VariationKind(k))
  }

  // ---------------------------------------------------------------------------
  // Frequency rules

  const MaxPromptsPerSession := 1
  const CooldownMinutes := 60
  const MinSessionsBeforeFirstPrompt := 3
  const MillisPerMinute := 60000

  /** The stored prompt state; times are in milliseconds. */
  datatype PromptState = PromptState(lastShown: int, totalShown: int, dismissed: int)

  /** The state used when none is stored. */
  function StateOrDefault(stored: Option<PromptState>): PromptState {
    match stored
    case None => PromptState(0, 0, 0)
    case Some(s) => s
  }

  /** Whether a prompt may be shown now: at most one per session, none within
      the cooldown after the last one, none before the third session. */
  function ShouldShowPrompt(shownThisSession: int, stored: Option<PromptState>, now: int, sessionCount: Option<int>): (r: bool)
    ensures r <==>
      && shownThisSession < MaxPromptsPerSession
      && now - StateOrDefault(stored).lastShown >= CooldownMinutes * MillisPerMinute
      && (match sessionCount case None => 0 case Some(c) => c) >= MinSessionsBeforeFirstPrompt
  {
    if shownThisSession >= MaxPromptsPerSession then false
    else
      var state := StateOrDefault(stored);
      if now - state.lastShown < CooldownMinutes * MillisPerMinute then false
      else
        var count := match sessionCount case None => 0 case Some(c) => c;
        if count < MinSessionsBeforeFirstPrompt then false
        else true
  }

  /** The session counter and the stored state after a prompt is shown. */
  datatype Shown = Shown(shownThisSession: int, state: PromptState)

  function MarkShown(shownThisSession: int, stored: Option<PromptState>, now: int): (r: Shown)
    ensures var s := StateOrDefault(stored);
      && r.shownThisSession == shownThisSession + 1
      && r.state == s.(lastShown := now, totalShown := s.totalShown + 1)
  {
    var s := StateOrDefault(stored);
    Shown(shownThisSession + 1, PromptState(now, s.totalShown + 1, s.dismissed))
  }

  function MarkDismissed(stored: Option<PromptState>): (r: PromptState)
    ensures r == StateOrDefault(stored).(dismissed := StateOrDefault(stored).dismissed + 1)
  {
    var s := StateOrDefault(stored);
    PromptState(s.lastShown, s.totalShown, s.dismissed + 1)
  }

  // ---------------------------------------------------------------------------
  // Milestones

  function Milestones(): seq<int> {
    [10, 25, 50, 100, 250, 500]
  }

  /** The prompt counts worth a milestone message: six of them, all
      multiples of five between 10 and 500. */
  predicate IsMilestone(count: int)
    ensures IsMilestone(count) ==> 10 <= count <= 500 && count % 5 == 0
  {
    count in Milestones()
  }
}
