/**
  Properties of the catalog and of the recommendation query.
*/
module CatalogLemmas {
  import opened Js
  import opened Catalog

  // ---------------------------------------------------------------------------
  // Resolving ids

  /** Exactly the listed ids survive. */
  lemma {:induction false} ResolveMembers(ids: seq<string>, catalog: map<string, Extension>)
    ensures forall id :: id in IdsOf(Resolve(ids, catalog)) <==> id in ids && Listed(id, catalog)
  {
    if ids != [] {
      ResolveMembers(ids[1..], catalog);
      assert ids == [ids[0]] + ids[1..];
      if Listed(ids[0], catalog) {
        assert IdsOf(Resolve(ids, catalog)) == [ids[0]] + IdsOf(Resolve(ids[1..], catalog));
      }
    }
  }

  /** Resolving distributes over concatenation, so the order of the rules is
      kept. */
  lemma {:induction false} ResolveConcat(a: seq<string>, b: seq<string>, catalog: map<string, Extension>)
    ensures Resolve(a + b, catalog) == Resolve(a, catalog) + Resolve(b, catalog)
  {
    if a == [] {
      assert a + b == b;
    } else {
      assert (a + b)[0] == a[0] && (a + b)[1..] == a[1..] + b;
      ResolveConcat(a[1..], b, catalog);
      var x, y := Resolve(a[1..], catalog), Resolve(b, catalog);
      if Listed(a[0], catalog) {
        var head := Recommendation(a[0], catalog[a[0]]);
        assert [head] + (x + y) == [head] + x + y;
      }
    }
  }

  /** When every id is listed, resolving keeps all of them, in order. */
  lemma {:induction false} ResolveAllListed(ids: seq<string>, catalog: map<string, Extension>)
    requires forall k | 0 <= k < |ids| :: Listed(ids[k], catalog)
    ensures IdsOf(Resolve(ids, catalog)) == ids
  {
    if ids != [] {
      ResolveAllListed(ids[1..], catalog);
    }
  }

  // ---------------------------------------------------------------------------
  // The tables

  /** The rules and the catalog have the same keys, the ones listed in
      declaration order. */
  lemma SameKeys()
    ensures PromoRules().Keys == Extensions().Keys
    ensures forall id :: id in Extensions() <==> id in Keys()
  {
  }

  /** Every catalog entry has a name, so an id is listed exactly when the
      catalog has it. */
  lemma EveryEntryNamed(id: string)
    ensures Listed(id, Extensions()) <==> id in Extensions()
  {
  }

  /** Every rule names a catalog key other than its own. */
  lemma RulesWellFormed(current: string)
    ensures current !in RulesFor(current)
    ensures forall k | 0 <= k < |RulesFor(current)| :: RulesFor(current)[k] in Extensions()
  {
  }

  /** The all-access bundle lists every key, in declaration order. */
  lemma AllAccessListsEveryKey()
    ensures BundleOf(AllAccess).extensions == Keys()
  {
  }

  function KeysIn(category: string, ids: seq<string>): seq<string>
    requires forall k | 0 <= k < |ids| :: ids[k] in Extensions()
  {
    if ids == [] then []
    else
      var rest := KeysIn(category, ids[1..]);
      if Extensions()[ids[0]].category == category then [ids[0]] + rest else rest
  }

  /** The category of each key, in declaration order. */
  lemma KeyCategories()
    ensures forall i | 0 <= i < |Keys()| :: Keys()[i] in Extensions()
    ensures Extensions()[Keys()[0]].category == "developer"
    ensures Extensions()[Keys()[1]].category == "developer"
    ensures Extensions()[Keys()[2]].category == "developer"
    ensures Extensions()[Keys()[3]].category == "productivity"
    ensures Extensions()[Keys()[4]].category == "productivity"
    ensures Extensions()[Keys()[5]].category == "developer"
  {
  }

  lemma KeysInStep(category: string, ids: seq<string>)
    requires ids != [] && forall k | 0 <= k < |ids| :: ids[k] in Extensions()
    ensures KeysIn(category, ids) ==
      (if Extensions()[ids[0]].category == category then [ids[0]] else []) + KeysIn(category, ids[1..])
  {
  }

  /** The developer bundle is the developer-category keys, in declaration
      order. */
  lemma DeveloperBundle()
    ensures BundleOf(Developer).extensions == KeysIn("developer", Keys())
  {
    var ks := Keys();
    KeyCategories();
    KeysInStep("developer", ks[5..]);
    assert ks[5..][1..] == [];
    KeysInStep("developer", ks[4..]);
    assert ks[4..][1..] == ks[5..];
    KeysInStep("developer", ks[3..]);
    assert ks[3..][1..] == ks[4..];
    KeysInStep("developer", ks[2..]);
    assert ks[2..][1..] == ks[3..];
    KeysInStep("developer", ks[1..]);
    assert ks[1..][1..] == ks[2..];
    KeysInStep("developer", ks);
  }

  /** The productivity bundle is the productivity-category keys, in
      declaration order. */
  lemma ProductivityBundle()
    ensures BundleOf(Productivity).extensions == KeysIn("productivity", Keys())
  {
    var ks := Keys();
    KeyCategories();
    KeysInStep("productivity", ks[5..]);
    assert ks[5..][1..] == [];
    KeysInStep("productivity", ks[4..]);
    assert ks[4..][1..] == ks[5..];
    KeysInStep("productivity", ks[3..]);
    assert ks[3..][1..] == ks[4..];
    KeysInStep("productivity", ks[2..]);
    assert ks[2..][1..] == ks[3..];
    KeysInStep("productivity", ks[1..]);
    assert ks[1..][1..] == ks[2..];
    KeysInStep("productivity", ks);
  }

  // ---------------------------------------------------------------------------
  // Recommendations

  /** The result is exactly the first `limit` rules (in the sense of
      `slice`), each with its catalog entry. */
  lemma RecommendationIds(current: string, limit: int)
    ensures IdsOf(RecommendationsWith(current, limit)) == Slice(RulesFor(current), 0, limit)
    ensures forall k | 0 <= k < |RecommendationsWith(current, limit)| ::
      RecommendationsWith(current, limit)[k].entry == Extensions()[RecommendationsWith(current, limit)[k].id]
  {
    RulesWellFormed(current);
    SlicePrefix(RulesFor(current), limit);
    forall k | 0 <= k < |Slice(RulesFor(current), 0, limit)| ensures Listed(Slice(RulesFor(current), 0, limit)[k], Extensions()) {
      EveryEntryNamed(Slice(RulesFor(current), 0, limit)[k]);
    }
    ResolveAllListed(Slice(RulesFor(current), 0, limit), Extensions());
  }

  /** An extension with no rule gets no recommendation, whatever the limit. */
  lemma UnknownExtension(current: string, limit: int)
    requires current !in PromoRules()
    ensures RecommendationsWith(current, limit) == []
  {
  }

  /** No extension is recommended from itself. */
  lemma NoSelfRecommendation(current: string, limit: int)
    ensures current !in IdsOf(RecommendationsWith(current, limit))
  {
    RulesWellFormed(current);
    SlicePrefix(RulesFor(current), limit);
    ResolveMembers(Slice(RulesFor(current), 0, limit), Extensions());
  }

  /** From the regex tester the default query recommends its three rules in
      order. */
  lemma RegexTesterRecommendations()
    ensures IdsOf(Recommendations("regex-tester-pro")) == ["json-formatter-pro", "cookie-manager", "api-testing-lite"]
  {
    RecommendationIds("regex-tester-pro", DefaultLimit);
  }

  /** The clipboard manager has only two rules, so the default query returns
      two. */
  lemma ClipboardRecommendations()
    ensures IdsOf(Recommendations("clipboard-history-pro")) == ["form-filler-pro", "json-formatter-pro"]
  {
    RecommendationIds("clipboard-history-pro", DefaultLimit);
  }
}
