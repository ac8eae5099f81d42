/**
  The feature matrix: fourteen features, each assigned to the free, limited
  or pro tier, the two usage limits of the limited ones, and the queries that
  gate a feature by tier and list the features of a tier.
*/
module FeatureConfig {
  import opened Js

  datatype Tier = Free | Limited | Pro

  /** A usage bound; `Unbounded` stands for the source's `Infinity`. */
  datatype Bound = Bounded(n: nat) | Unbounded

  datatype LimitSpec = LimitSpec(free: Bound, pro: Bound, kind: string, resetPeriod: Option<string>)

  datatype Scores = Scores(acquisition: nat, habit: nat, upgrade: nat, differentiation: nat, cost: nat)

  datatype Feature = Feature(
    name: string,
    scores: Scores,
    tier: Tier,
    limit: Option<LimitSpec>,
    description: string)

  /** A listed feature: its key spread together with its fields. */
  datatype KeyedFeature = KeyedFeature(key: string, feature: Feature)

  // ---------------------------------------------------------------------------
  // The matrix

  const FeatureCount := 14

  /** Eight free features, then two limited, then four pro. */
  function TierAt(i: nat): Tier
    requires i < FeatureCount
  {
    if i < 8 then Free else if i < 10 then Limited else Pro
  }

  /** Only the two limited features carry a limit. */
  function LimitAt(i: nat): Option<LimitSpec>
    requires i < FeatureCount
  {
    if i == 8 then Some(LimitSpec(Bounded(10), Unbounded, "storage", None))
    else if i == 9 then Some(LimitSpec(Bounded(3), Unbounded, "daily", Some("daily")))
    else None
  }

  /** The key of feature `i`, in declaration order. */
  function Key(i: nat): string
    requires i < FeatureCount
  {
    match i
    case 0 => "realtime_testing"
    case 1 => "flag_toggles"
    case 2 => "match_counter"
    case 3 => "capture_groups"
    case 4 => "find_replace"
    case 5 => "cheatsheet"
    case 6 => "dark_mode"
    case 7 => "context_menu"
    case 8 => "pattern_history"
    case 9 => "ai_generation"
    case 10 => "multi_flavor"
    case 11 => "code_generation"
    case 12 => "redos_scanner"
    case _ => "export_patterns"
  }

  /** The display name of feature `i`. */
  function NameAt(i: nat): string
    requires i < FeatureCount
  {
    match i
    case 0 => "Real-time Regex Testing"
    case 1 => "Flag Toggles (g,i,m,s,u,y)"
    case 2 => "Match Counter + Positions"
    case 3 => "Capture Group Viewer"
    case 4 => "Find & Replace"
    case 5 => "Regex Cheatsheet"
    case 6 => "Dark Mode"
    case 7 => "Context Menu Testing"
    case 8 => "Pattern History"
    case 9 => "AI Regex Generation"
    case 10 => "Multi-Flavor Support"
    case 11 => "Code Generation"
    case 12 => "ReDoS Vulnerability Scanner"
    case _ => "Export Pattern Library"
  }

  /** The five dimension scores of feature `i`. */
  function ScoresAt(i: nat): Scores
    requires i < FeatureCount
  {
    match i
    case 0 => Scores(10, 10, 1, 3, 10)
    case 1 => Scores(7, 9, 1, 2, 10)
    case 2 => Scores(6, 8, 1, 3, 10)
    case 3 => Scores(7, 7, 2, 4, 10)
    case 4 => Scores(6, 6, 2, 3, 10)
    case 5 => Scores(5, 6, 1, 2, 10)
    case 6 => Scores(4, 8, 1, 1, 10)
    case 7 => Scores(6, 7, 2, 7, 10)
    case 8 => Scores(5, 9, 8, 5, 10)
    case 9 => Scores(9, 7, 10, 9, 2)
    case 10 => Scores(5, 5, 8, 8, 8)
    case 11 => Scores(4, 4, 7, 7, 5)
    case 12 => Scores(3, 3, 6, 10, 8)
    case _ => Scores(2, 3, 6, 5, 10)
  }

  /** The description of feature `i`. */
  function DescriptionAt(i: nat): string
    requires i < FeatureCount
  {
    match i
    case 0 => "Live match highlighting as you type"
    case 1 => "One-click regex flag switching"
    case 2 => "Total matches with positions"
    case 3 => "Named and numbered capture groups"
    case 4 => "Regex-based string replacement"
    case 5 => "Quick reference panel"
    case 6 => "System + manual theme toggle"
    case 7 => "Right-click to test regex on selection"
    case 8 => "Save and recall recent patterns"
    case 9 => "Natural language to regex"
    case 10 => "Python, Go, Java, PCRE, .NET engines"
    case 11 => "Export regex as language-specific code"
    case 12 => "Detect catastrophic backtracking"
    case _ => "JSON/CSV export of saved patterns"
  }

  /** The position of `key` among the features, if it is one. */
  function IndexOfKey(key: string): (r: Option<nat>)
    ensures r.Some? ==> r.value < FeatureCount && Key(r.value) == key
  {
    if key == "realtime_testing" then Some(0)
    else if key == "flag_toggles" then Some(1)
    else if key == "match_counter" then Some(2)
    else if key == "capture_groups" then Some(3)
    else if key == "find_replace" then Some(4)
    else if key == "cheatsheet" then Some(5)
    else if key == "dark_mode" then Some(6)
    else if key == "context_menu" then Some(7)
    else if key == "pattern_history" then Some(8)
    else if key == "ai_generation" then Some(9)
    else if key == "multi_flavor" then Some(10)
    else if key == "code_generation" then Some(11)
    else if key == "redos_scanner" then Some(12)
    else if key == "export_patterns" then Some(13)
    else None
  }

  function FeatureAt(i: nat): Feature
    requires i < FeatureCount
  {
    Feature(NameAt(i), ScoresAt(i), TierAt(i), LimitAt(i), DescriptionAt(i))
  }

  /** The feature under `key`, if any. */
  function Lookup(key: string): Option<Feature> {
    match IndexOfKey(key)
    case None => None
    case Some(i) => Some(FeatureAt(i))
  }

  /** Every feature with its key, in declaration order. */
  function AllFeatures(): (r: seq<KeyedFeature>)
    ensures |r| == FeatureCount
    ensures forall i | 0 <= i < FeatureCount :: r[i] == KeyedFeature(Key(i), FeatureAt(i))
  {
    seq(FeatureCount, (i: nat) requires i < FeatureCount => KeyedFeature(Key(i), FeatureAt(i)))
  }

  // ---------------------------------------------------------------------------
  // Queries

  /** Free and limited features are open to everyone, pro ones only to pro
      users; an unknown key is never available. */
  function IsFeatureAvailable(key: string, isPro: bool): (r: bool)
    ensures r ==> Lookup(key).Some?
  {
    match Lookup(key)
    case None => false
    case Some(f) =>
      match f.tier
      case Free => true
      case Pro => isPro
      case Limited => true
  }

  /** The limit for the user's tier; unbounded for an unknown key or a
      feature without a limit. */
  function GetFeatureLimit(key: string, isPro: bool): (r: Bound)
    ensures Lookup(key).None? ==> r == Unbounded
  {
    match Lookup(key)
    case None => Unbounded
    case Some(f) =>
      match f.limit
      case None => Unbounded
      case Some(l) => if isPro then l.pro else l.free
  }

  /** The features of one tier, in declaration order. */
  function ByTier(features: seq<KeyedFeature>, tier: Tier): (r: seq<KeyedFeature>)
    ensures |r| <= |features|
    ensures forall x :: x in r <==> x in features && x.feature.tier == tier
  {
    if features == [] then []
    else
      var rest := ByTier(features[1..], tier);
      if features[0].feature.tier == tier then [features[0]] + rest else rest
  }

  function ProFeatures(): seq<KeyedFeature> {
    ByTier(AllFeatures(), Pro)
  }

  function LimitedFeatures(): seq<KeyedFeature> {
    ByTier(AllFeatures(), Limited)
  }

  function FreeFeatures(): seq<KeyedFeature> {
    ByTier(AllFeatures(), Free)
  }
}
