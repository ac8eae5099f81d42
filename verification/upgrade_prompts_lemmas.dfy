/**
  Properties of the prompt rotation, of the frequency rules together with
  the show and dismiss bookkeeping, and of the milestones.
*/
module UpgradePromptsLemmas {
  import opened Js
  import opened UpgradePrompts

  // ---------------------------------------------------------------------------
  // Rotation

  /** The variations have distinct ids. */
  lemma VariationIdsDistinct(j: nat, k: nat)
    requires j < VariationCount && k < VariationCount && j != k
    ensures VariationId(j) != VariationId(k)
  {
  }

  lemma ModStep(n: nat)
    ensures (n + VariationCount) % VariationCount == n % VariationCount
  {
  }

  lemma ModNext(n: nat)
    ensures (n + 1) % VariationCount == if n % VariationCount == 4 then 0 else n % VariationCount + 1
  {
  }

  /** Five more tests bring back the same variation. */
  lemma RotationPeriod(n: nat)
    ensures var a, b := NextPrompt(Some(n)), NextPrompt(Some(n + VariationCount));
      a.id == b.id && a.body == b.body && a.cta == b.cta && a.kind == b.kind
  {
    ModStep(n);
  }

  /** Consecutive counts show different variations. */
  lemma RotationAdvances(n: nat)
    ensures NextPrompt(Some(n)).id != NextPrompt(Some(n + 1)).id
  {
    ModNext(n);
    VariationIdsDistinct(n % VariationCount, (n + 1) % VariationCount);
  }

  /** A missing test count behaves as zero. */
  lemma MissingCount()
    ensures NextPrompt(None) == NextPrompt(Some(0))
  {
  }

  /** With no tests the first variation is shown. */
  lemma FirstPromptId()
    ensures NextPrompt(Some(0)).id == "value_focus"
  {
    assert TestsOrZero(Some(0)) % VariationCount == 0;
    assert VariationId(0) == "value_focus";
  }

  /** With no tests the headline writes the count as 0. */
  lemma FirstPromptHeadline()
    ensures NextPrompt(Some(0)).headline == "You've tested 0 patterns"
  {
    assert TestsOrZero(Some(0)) % VariationCount == 0;
    ZeroHeadline();
  }

  lemma ZeroHeadline()
    ensures Headline(0, 0) == "You've tested 0 patterns"
  {
    DecimalStringZero();
  }

  lemma FirstHeadlineCount(n: nat)
    ensures Includes(Headline(0, n), DecimalString(n))
  {
    IncludesConcat("You've tested ", DecimalString(n), " patterns");
  }

  lemma LastHeadlineCount(n: nat)
    ensures Includes(Headline(4, n), DecimalString(n))
  {
    IncludesStart(DecimalString(n), "+ patterns tested \U{2014} you're a power user");
  }

  /** The first and last variations write the count into the headline; the
      other three do not depend on it. */
  lemma HeadlineMentionsCount(n: nat)
    ensures var k := n % VariationCount;
      (k == 0 || k == 4) ==> Includes(NextPrompt(Some(n)).headline, DecimalString(n))
    ensures var k := n % VariationCount;
      (k != 0 && k != 4) ==> NextPrompt(Some(n)).headline == Headline(k, 0)
  {
    FirstHeadlineCount(n);
    LastHeadlineCount(n);
  }

  // ---------------------------------------------------------------------------
  // Frequency rules and bookkeeping

  /** Once a prompt is shown, no other is shown in the same session. */
  lemma OnePerSession(session: nat, stored: Option<PromptState>, now: int, later: int, sessionCount: Option<int>)
    ensures var m := MarkShown(session, stored, now);
      !ShouldShowPrompt(m.shownThisSession, Some(m.state), later, sessionCount)
  {
  }

  /** Within the cooldown after a prompt, none is shown, even in a new
      session. */
  lemma CooldownAfterShown(session: int, stored: Option<PromptState>, now: int, later: int, next: int, sessionCount: Option<int>)
    requires later < now + CooldownMinutes * MillisPerMinute
    ensures !ShouldShowPrompt(next, Some(MarkShown(session, stored, now).state), later, sessionCount)
  {
  }

  /** After the cooldown, a new session from the third on shows a prompt
      again. */
  lemma CooldownExpires(session: int, stored: Option<PromptState>, now: int, later: int, count: int)
    requires later >= now + CooldownMinutes * MillisPerMinute
    requires count >= MinSessionsBeforeFirstPrompt
    ensures ShouldShowPrompt(0, Some(MarkShown(session, stored, now).state), later, Some(count))
  {
  }

  /** Dismissals are counted but never change the decision. */
  lemma DismissalIgnored(session: int, stored: Option<PromptState>, now: int, sessionCount: Option<int>)
    ensures ShouldShowPrompt(session, Some(MarkDismissed(stored)), now, sessionCount)
        == ShouldShowPrompt(session, stored, now, sessionCount)
  {
  }

  /** Showing and dismissing touch different fields, so their order does not
      matter. */
  lemma MarksCommute(session: int, stored: Option<PromptState>, now: int)
    ensures MarkDismissed(Some(MarkShown(session, stored, now).state))
         == MarkShown(session, Some(MarkDismissed(stored)), now).state
  {
  }

  // ---------------------------------------------------------------------------
  // Milestones

  /** The milestones are exactly the six listed counts. */
  lemma MilestoneValues(n: int)
    ensures IsMilestone(n) <==> n == 10 || n == 25 || n == 50 || n == 100 || n == 250 || n == 500
  {
  }

  /** Every milestone is a multiple of five, so at a milestone the rotation
      shows the first variation and never the one labelled "milestone". */
  lemma MilestonePrompt(n: nat)
    requires IsMilestone(n)
    ensures NextPrompt(Some(n)).id == "value_focus"
  {
    MilestoneValues(n);
    assert n % VariationCount == 0;
  }
}
