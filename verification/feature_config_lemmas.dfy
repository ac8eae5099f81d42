/**
  Properties of the feature matrix: keys identify features, availability
  and limits by tier, and the three tier lists partitioning all features.
*/
module FeatureConfigLemmas {
  import opened Js
  import opened FeatureConfig

  // ---------------------------------------------------------------------------
  // Keys

  // The lookup of each key, one at a time.
  lemma KeyIndex0() ensures IndexOfKey("realtime_testing") == Some(0) { }
  lemma KeyIndex1() ensures IndexOfKey("flag_toggles") == Some(1) { }
  lemma KeyIndex2() ensures IndexOfKey("match_counter") == Some(2) { }
  lemma KeyIndex3() ensures IndexOfKey("capture_groups") == Some(3) { }
  lemma KeyIndex4() ensures IndexOfKey("find_replace") == Some(4) { }
  lemma KeyIndex5() ensures IndexOfKey("cheatsheet") == Some(5) { }
  lemma KeyIndex6() ensures IndexOfKey("dark_mode") == Some(6) { }
  lemma KeyIndex7() ensures IndexOfKey("context_menu") == Some(7) { }
  lemma KeyIndex8() ensures IndexOfKey("pattern_history") == Some(8) { }
  lemma KeyIndex9() ensures IndexOfKey("ai_generation") == Some(9) { }
  lemma KeyIndex10() ensures IndexOfKey("multi_flavor") == Some(10) { }
  lemma KeyIndex11() ensures IndexOfKey("code_generation") == Some(11) { }
  lemma KeyIndex12() ensures IndexOfKey("redos_scanner") == Some(12) { }
  lemma KeyIndex13() ensures IndexOfKey("export_patterns") == Some(13) { }

  /** Each feature is found under its own key. */
  lemma LookupByKey(i: nat)
    requires i < FeatureCount
    ensures IndexOfKey(Key(i)) == Some(i)
  {
    match i
    case 0 => KeyIndex0();
    case 1 => KeyIndex1();
    case 2 => KeyIndex2();
    case 3 => KeyIndex3();
    case 4 => KeyIndex4();
    case 5 => KeyIndex5();
    case 6 => KeyIndex6();
    case 7 => KeyIndex7();
    case 8 => KeyIndex8();
    case 9 => KeyIndex9();
    case 10 => KeyIndex10();
    case 11 => KeyIndex11();
    case 12 => KeyIndex12();
    case _ => KeyIndex13();
  }

  /** The keys are distinct. */
  lemma KeysDistinct(i: nat, j: nat)
    requires i < FeatureCount && j < FeatureCount && i != j
    ensures Key(i) != Key(j)
  {
    LookupByKey(i);
    LookupByKey(j);
  }

  /** A key names a feature exactly when it is one of the fourteen keys. */
  lemma KnownKeys(key: string)
    ensures Lookup(key).Some? <==> exists i | 0 <= i < FeatureCount :: Key(i) == key
  {
    if Lookup(key).Some? {
      var i := IndexOfKey(key).value;
      assert Key(i) == key;
    }
    if exists i | 0 <= i < FeatureCount :: Key(i) == key {
      var i :| 0 <= i < FeatureCount && Key(i) == key;
      LookupByKey(i);
    }
  }

  // ---------------------------------------------------------------------------
  // Availability and limits

  /** A feature is available to a free user unless it is a pro feature, and
      every feature is available to a pro user. */
  lemma AvailableByTier(i: nat, isPro: bool)
    requires i < FeatureCount
    ensures IsFeatureAvailable(Key(i), isPro) <==> TierAt(i) != Pro || isPro
  {
    LookupByKey(i);
  }

  /** An unknown key is unavailable and unbounded, whatever the tier. */
  lemma UnknownKey(key: string, isPro: bool)
    requires forall i | 0 <= i < FeatureCount :: Key(i) != key
    ensures !IsFeatureAvailable(key, isPro)
    ensures GetFeatureLimit(key, isPro) == Unbounded
  {
    KnownKeys(key);
  }

  /** Upgrading never takes a feature away. */
  lemma ProKeepsFeatures(key: string)
    ensures IsFeatureAvailable(key, false) ==> IsFeatureAvailable(key, true)
    ensures IsFeatureAvailable(key, true) <==> Lookup(key).Some?
  {
  }

  /** Pro users are never limited; free users are limited exactly on the
      limited-tier features. */
  lemma LimitByTier(i: nat)
    requires i < FeatureCount
    ensures GetFeatureLimit(Key(i), true) == Unbounded
    ensures GetFeatureLimit(Key(i), false).Bounded? <==> TierAt(i) == Limited
  {
    LookupByKey(i);
  }

  /** A free user keeps ten history entries and gets three generations. */
  lemma FreeLimits()
    ensures GetFeatureLimit("pattern_history", false) == Bounded(10)
    ensures GetFeatureLimit("ai_generation", false) == Bounded(3)
    ensures GetFeatureLimit("pattern_history", true) == Unbounded
  {
    KeyIndex8();
    KeyIndex9();
  }

  // ---------------------------------------------------------------------------
  // The tier lists

  lemma {:induction false} ByTierConcat(a: seq<KeyedFeature>, b: seq<KeyedFeature>, t: Tier)
    ensures ByTier(a + b, t) == ByTier(a, t) + ByTier(b, t)
  {
    if a == [] {
      assert a + b == b;
    } else {
      assert (a + b)[0] == a[0] && (a + b)[1..] == a[1..] + b;
      ByTierConcat(a[1..], b, t);
      var x, y := ByTier(a[1..], t), ByTier(b, t);
      assert [a[0]] + (x + y) == [a[0]] + x + y;
    }
  }

  /** A stretch of one tier is kept whole by that tier's filter and dropped
      by the others. */
  lemma {:induction false} ByTierUniform(a: seq<KeyedFeature>, u: Tier, t: Tier)
    requires forall k | 0 <= k < |a| :: a[k].feature.tier == u
    ensures ByTier(a, t) == if u == t then a else []
  {
    if a != [] {
      ByTierUniform(a[1..], u, t);
      assert a == [a[0]] + a[1..];
    }
  }

  /** Every feature is in exactly one tier list, so the sizes add up. */
  lemma {:induction false} TiersPartition(fs: seq<KeyedFeature>)
    ensures |ByTier(fs, Free)| + |ByTier(fs, Limited)| + |ByTier(fs, Pro)| == |fs|
  {
    if fs != [] {
      TiersPartition(fs[1..]);
    }
  }

  /** A list laid out like the matrix: eight free entries, two limited and
      four pro. */
  predicate MatrixLayout(all: seq<KeyedFeature>) {
    && |all| == FeatureCount
    && (forall k | 0 <= k < FeatureCount :: all[k].feature.tier == TierAt(k))
  }

  lemma Stretches(all: seq<KeyedFeature>)
    requires MatrixLayout(all)
    ensures all == all[..8] + all[8..10] + all[10..]
    ensures forall k | 0 <= k < |all[..8]| :: all[..8][k].feature.tier == Free
    ensures forall k | 0 <= k < |all[8..10]| :: all[8..10][k].feature.tier == Limited
    ensures forall k | 0 <= k < |all[10..]| :: all[10..][k].feature.tier == Pro
  {
    assert forall k | 0 <= k < |all[8..10]| :: all[8..10][k] == all[k + 8];
    assert forall k | 0 <= k < |all[10..]| :: all[10..][k] == all[k + 10];
  }

  // The tier filter of such a list keeps one stretch.

  lemma FreeBlock(all: seq<KeyedFeature>)
    requires MatrixLayout(all)
    ensures ByTier(all, Free) == all[..8]
  {
    var a, b, c := all[..8], all[8..10], all[10..];
    Stretches(all);
    ByTierUniform(a, Free, Free);
    ByTierUniform(b, Limited, Free);
    ByTierUniform(c, Pro, Free);
    calc {
      ByTier(all, Free);
      { ByTierConcat(a + b, c, Free); }
      ByTier(a + b, Free) + ByTier(c, Free);
      { ByTierConcat(a, b, Free); }
      ByTier(a, Free) + ByTier(b, Free) + ByTier(c, Free);
      a + [] + [];
    }
  }

  lemma LimitedBlock(all: seq<KeyedFeature>)
    requires MatrixLayout(all)
    ensures ByTier(all, Limited) == all[8..10]
  {
    var a, b, c := all[..8], all[8..10], all[10..];
    Stretches(all);
    ByTierUniform(a, Free, Limited);
    ByTierUniform(b, Limited, Limited);
    ByTierUniform(c, Pro, Limited);
    calc {
      ByTier(all, Limited);
      { ByTierConcat(a + b, c, Limited); }
      ByTier(a + b, Limited) + ByTier(c, Limited);
      { ByTierConcat(a, b, Limited); }
      ByTier(a, Limited) + ByTier(b, Limited) + ByTier(c, Limited);
      [] + b + [];
    }
  }

  lemma ProBlock(all: seq<KeyedFeature>)
    requires MatrixLayout(all)
    ensures ByTier(all, Pro) == all[10..]
  {
    var a, b, c := all[..8], all[8..10], all[10..];
    Stretches(all);
    ByTierUniform(a, Free, Pro);
    ByTierUniform(b, Limited, Pro);
    ByTierUniform(c, Pro, Pro);
    calc {
      ByTier(all, Pro);
      { ByTierConcat(a + b, c, Pro); }
      ByTier(a + b, Pro) + ByTier(c, Pro);
      { ByTierConcat(a, b, Pro); }
      ByTier(a, Pro) + ByTier(b, Pro) + ByTier(c, Pro);
      [] + [] + c;
    }
  }

  /** The shipped lists: the first eight features are free, the next two
      limited, the last four pro. */
  lemma TierLists()
    ensures FreeFeatures() == AllFeatures()[..8]
    ensures LimitedFeatures() == AllFeatures()[8..10]
    ensures ProFeatures() == AllFeatures()[10..]
  {
    var all := AllFeatures();
    FreeBlock(all);
    LimitedBlock(all);
    ProBlock(all);
  }
}
