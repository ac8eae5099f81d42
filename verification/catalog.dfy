/**
  The cross-promotion catalog: six extensions, the recommendation rules
  between them, the three bundles, and the recommendation query that slices
  an extension's rule list and drops ids the catalog does not know.
*/
module Catalog {
  import opened Js

  datatype Extension = Extension(
    name: string,
    tagline: string,
    category: string,
    storeUrl: string,
    icon: Option<string>)

  /** A recommendation: the id spread together with the catalog entry. */
  datatype Recommendation = Recommendation(id: string, entry: Extension)

  // ---------------------------------------------------------------------------
  // The catalog

  /** The catalog's keys, in declaration order. */
  function Keys(): seq<string> {
    ["regex-tester-pro", "json-formatter-pro", "cookie-manager",
     "clipboard-history-pro", "form-filler-pro", "api-testing-lite"]
  }

  function StoreUrl(id: string): string {
    "https://zovo.one/extensions/" + id
  }

  /** The catalog, keyed by extension id. */
  function Extensions(): map<string, Extension> {
    map[
      "regex-tester-pro" := Extension("Regex Tester Pro", "Test, debug and master regex in your browser",
        "developer", StoreUrl("regex-tester-pro"), Some("assets/icons/icon-48.png")),
      "json-formatter-pro" := Extension("JSON Formatter Pro", "Format, validate and beautify JSON instantly",
        "developer", StoreUrl("json-formatter-pro"), None),
      "cookie-manager" := Extension("Cookie Manager", "View, edit and export browser cookies",
        "developer", StoreUrl("cookie-manager"), None),
      "clipboard-history-pro" := Extension("Clipboard History Pro", "Never lose copied text again",
        "productivity", StoreUrl("clipboard-history-pro"), None),
      "form-filler-pro" := Extension("Form Filler Pro", "Auto-fill forms with saved profiles",
        "productivity", StoreUrl("form-filler-pro"), None),
      "api-testing-lite" := Extension("API Testing Lite", "Test REST APIs right from your browser",
        "developer", StoreUrl("api-testing-lite"), None)]
  }

  /** The ids recommended from each extension, in order. */
  function PromoRules(): map<string, seq<string>> {
    map[
      "regex-tester-pro" := ["json-formatter-pro", "cookie-manager", "api-testing-lite"],
      "json-formatter-pro" := ["regex-tester-pro", "api-testing-lite", "cookie-manager"],
      "cookie-manager" := ["json-formatter-pro", "regex-tester-pro", "api-testing-lite"],
      "clipboard-history-pro" := ["form-filler-pro", "json-formatter-pro"],
      "form-filler-pro" := ["clipboard-history-pro", "cookie-manager"],
      "api-testing-lite" := ["json-formatter-pro", "regex-tester-pro", "cookie-manager"]]
  }

  datatype BundleKey = Developer | Productivity | AllAccess

  /** Prices are kept in cents. */
  datatype Bundle = Bundle(
    name: string,
    extensions: seq<string>,
    monthlyCents: nat,
    annualCents: nat,
    targetUser: string)

  function BundleOf(k: BundleKey): Bundle {
    match k
    case Developer =>
      Bundle("Developer Bundle", ["regex-tester-pro", "json-formatter-pro", "cookie-manager", "api-testing-lite"],
        499, 3999, "Web developers")
    case Productivity =>
      Bundle("Productivity Bundle", ["clipboard-history-pro", "form-filler-pro"], 499, 3999, "VAs, power users")
    case AllAccess =>
      Bundle("Zovo All Access", Keys(), 900, 7200, "Power users who want everything")
  }

  // ---------------------------------------------------------------------------
  // Recommendations

  const DefaultLimit := 3

  /** An id survives the final filter when the catalog has an entry for it
      with a non-empty name. */
  predicate Listed(id: string, catalog: map<string, Extension>) {
    id in catalog && catalog[id].name != ""
  }

  /** Maps ids to recommendations and keeps the listed ones, in order. */
  function Resolve(ids: seq<string>, catalog: map<string, Extension>): (r: seq<Recommendation>)
    ensures |r| <= |ids|
    ensures forall k | 0 <= k < |r| :: Listed(r[k].id, catalog) && r[k].entry == catalog[r[k].id]
  {
    if ids == [] then []
    else
      var rest := Resolve(ids[1..], catalog);
      if Listed(ids[0], catalog) then
        var head := Recommendation(ids[0], catalog[ids[0]]);
        assert forall k | 0 <= k < |rest| :: ([head] + rest)[k + 1] == rest[k];
        [head] + rest
      else rest
  }

  function IdsOf(r: seq<Recommendation>): (ids: seq<string>)
    ensures |ids| == |r| && forall k | 0 <= k < |r| :: ids[k] == r[k].id
  {
    seq(|r|, (k: nat) requires k < |r| => r[k].id)
  }

  /** The extension's rule list, or none for an id without a rule. */
  function RulesFor(current: string): seq<string> {
    if current in PromoRules() then PromoRules()[current] else []
  }

  /** Up to `limit` of the extension's rules (with the slice semantics of a
      negative limit), resolved against the catalog. */
  function RecommendationsWith(current: string, limit: int): (r: seq<Recommendation>)
    ensures |r| <= |RulesFor(current)|
    ensures limit >= 0 ==> |r| <= limit
    ensures limit < 0 ==> |r| <= if |RulesFor(current)| + limit < 0 then 0 else |RulesFor(current)| + limit
  {
    SlicePrefix(RulesFor(current), limit);
    Resolve(Slice(RulesFor(current), 0, limit), Extensions())
  }

  /** The query with its default limit. */
  function Recommendations(current: string): (r: seq<Recommendation>)
    ensures |r| <= DefaultLimit
  {
    RecommendationsWith(current, DefaultLimit)
  }
}
