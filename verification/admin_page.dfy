/**
 * The admin screens: the two registered settings with their sanitisers
 * and defaults, and the dashboard section derived from the page slug.
 * `sanitize_text_field` is a parameter.
 */
module AdminPage {

  import opened Wrappers
  import opened Text
  import opened WpOptions
  import StatsApi
  import StatsQuery

  const AllowedRanges: seq<string> := ["30", "90", "365", "all"]
  const DefaultRange := "365"
  const RangeOption := "vgp_edd_stats_default_range"

  /** `sanitize_default_range`: a whitelisted preset passes, anything else becomes `365`. */
  function SanitizeDefaultRange(value: string, sanitizeText: string -> string): (r: string)
    ensures r in AllowedRanges
    ensures sanitizeText(value) in AllowedRanges ==> r == sanitizeText(value)
    ensures sanitizeText(value) !in AllowedRanges ==> r == DefaultRange
  {
    var v := sanitizeText(value);
    if v in AllowedRanges then v else DefaultRange
  }

  /** Sanitising a sanitised value changes nothing, given a text sanitiser that keeps the four presets. */
  lemma SanitizeDefaultRangeIdempotent(value: string, sanitizeText: string -> string)
    requires forall a | a in AllowedRanges :: sanitizeText(a) == a
    ensures var once := SanitizeDefaultRange(value, sanitizeText);
            SanitizeDefaultRange(once, sanitizeText) == once
  {
  }

  /** The cache duration setting: `absint` of the submitted number. */
  function SanitizeCacheDuration(value: int): (n: nat)
    ensures n as int == (if value < 0 then -value else value)
  {
    StatsApi.Absint(value)
  }

  /**
   * A duration saved through the settings screen is the one the engine
   * uses; it is never negative, and saving 0 turns the cache off.
   */
  lemma SavedDurationIsUsed(t: Table, value: int)
    ensures var d := StatsQuery.CacheDuration(t[StatsQuery.DurationOption := Int(SanitizeCacheDuration(value))]);
            d >= 0 && d == SanitizeCacheDuration(value) && (d > 0 <==> value != 0)
  {
  }

  /** Before anything is saved, the engine falls back to the setting's registered default of 3600. */
  lemma UnsavedDurationIsDefault(t: Table)
    requires StatsQuery.DurationOption !in t
    ensures StatsQuery.CacheDuration(t) == 3600
  {
  }

  const PluginSlug := "vgp-edd-stats"
  const SlugPrefix := "vgp-edd-stats-"
  const SubpageSlugs: seq<string> := ["customers-revenue", "mrr-growth", "renewals", "refunds", "licensing", "sites", "support"]
  const SettingsSlug := "vgp-edd-stats-settings"

  /** `render_dashboard`'s section: the page slug without `vgp-edd-stats-`, the bare plugin page as the executive overview. */
  function SectionOf(page: Option<string>, sanitizeText: string -> string): (section: string)
    ensures page.None? ==> section == "executive-overview"
  {
    var p := if page.Some? then sanitizeText(page.value) else PluginSlug;
    var s := ReplaceAll(p, SlugPrefix, "");
    if s == PluginSlug then "executive-overview" else s
  }

  /** A needle with a character the subject lacks cannot occur in it. */
  lemma MissingCharNotContained(s: string, sub: string, i: nat)
    requires i < |sub| && sub[i] !in s
    ensures !Contains(s, sub)
  {
    if Contains(s, sub) {
      var k := ContainsWitness(s, sub);
      assert false;
    }
  }

  /** Each dashboard subpage opens its own section, named by its slug. */
  lemma SubpageSection(slug: string, sanitizeText: string -> string)
    requires slug in SubpageSlugs
    requires sanitizeText(SlugPrefix + slug) == SlugPrefix + slug
    ensures SectionOf(Some(SlugPrefix + slug), sanitizeText) == slug
  {
    if slug == "support" {
      MissingCharNotContained(slug, SlugPrefix, 0);
    } else {
      MissingCharNotContained(slug, SlugPrefix, 2);
    }
    StripLeading(SlugPrefix, slug);
  }

  /** The top-level page, requested by name, opens the executive overview. */
  lemma TopLevelSection(sanitizeText: string -> string)
    requires sanitizeText(PluginSlug) == PluginSlug
    ensures SectionOf(Some(PluginSlug), sanitizeText) == "executive-overview"
  {
  }
}
