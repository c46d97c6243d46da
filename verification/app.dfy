/**
 * The dashboard shell: the range it starts on (the configured preset if
 * it is one of the four the settings allow), the title of each section,
 * and the page each section renders.
 */
module App {

  import opened Wrappers
  import opened ApiClient
  import AdminPage
  import DateRangeFilter

  /** The preset the dashboard opens on: the configured one if the settings allow it, else `365`. */
  function InitialPreset(configured: Option<string>): (p: string)
    ensures p in AdminPage.AllowedRanges
    ensures configured.Some? && configured.value in AdminPage.AllowedRanges ==> p == configured.value
    ensures !(configured.Some? && configured.value in AdminPage.AllowedRanges) ==> p == "365"
  {
    if configured.Some? && configured.value in AdminPage.AllowedRanges then configured.value else "365"
  }

  /** `getInitialDateRange`, `configured` being `defaultRange` when it is a string. */
  function InitialDateRange(configured: Option<string>, clock: DateRangeFilter.Clock): (r: DateRange)
    ensures r.preset == InitialPreset(configured)
    ensures r.preset == "all" ==> r.startDate.None? && r.endDate.None?
    ensures r.preset != "all" ==> r.startDate.Some? && r.endDate == Some(clock.now)
  {
    var preset := InitialPreset(configured);
    if preset == "all" then DateRange(None, None, "all")
    else if preset == "30" then DateRange(Some(clock.subDays(clock.now, 30)), Some(clock.now), "30")
    else if preset == "90" then DateRange(Some(clock.subDays(clock.now, 90)), Some(clock.now), "90")
    else DateRange(Some(clock.subMonths(clock.now, 12)), Some(clock.now), "365")
  }

  /** The opening range is the one the picker's button of the same preset would choose. */
  lemma InitialRangeIsPresetRange(configured: Option<string>, clock: DateRangeFilter.Clock)
    ensures var r := InitialDateRange(configured, clock);
            r.preset in DateRangeFilter.PresetValues
            && DateRangeFilter.PresetDates(r.preset, clock) == Some(DateRangeFilter.Dates(r.startDate, r.endDate))
  {
  }

  /** A default range saved through the settings screen is the one the dashboard opens on. */
  lemma SavedRangeIsUsed(value: string, sanitizeText: string -> string)
    ensures var saved := AdminPage.SanitizeDefaultRange(value, sanitizeText);
            InitialPreset(Some(saved)) == saved
  {
  }

  /** The titles of the known sections. */
  const Titles: map<string, string> := map[
    "executive-overview" := "Executive Overview",
    "customer-analytics" := "Customer Analytics",
    "revenue-intelligence" := "Revenue Intelligence",
    "product-performance" := "Product Performance",
    "subscription-analytics" := "Subscription Analytics",
    "customers-revenue" := "Customers & Revenue",
    "mrr-growth" := "MRR & Growth",
    "renewals" := "Renewals & Cancellations",
    "refunds" := "Refunds",
    "licensing" := "Software Licensing",
    "sites" := "Sites Stats",
    "support" := "Support"
  ]

  /** `getSectionTitle`: a known section's title, `Dashboard` for any other. */
  function SectionTitle(section: string): (t: string)
    ensures section in Titles ==> t == Titles[section]
    ensures section !in Titles ==> t == "Dashboard"
  {
    if section in Titles then Titles[section] else "Dashboard"
  }

  /** The page components. */
  datatype Page =
    | ExecutiveOverview | CustomerAnalytics | RevenueIntelligence | ProductPerformance
    | SubscriptionAnalytics | CustomersRevenue | MrrGrowth | Renewals | Refunds
    | Licensing | Sites | Support

  /** The section each page is rendered for. */
  function SectionOfPage(p: Page): string {
    match p
    case ExecutiveOverview => "executive-overview"
    case CustomerAnalytics => "customer-analytics"
    case RevenueIntelligence => "revenue-intelligence"
    case ProductPerformance => "product-performance"
    case SubscriptionAnalytics => "subscription-analytics"
    case CustomersRevenue => "customers-revenue"
    case MrrGrowth => "mrr-growth"
    case Renewals => "renewals"
    case Refunds => "refunds"
    case Licensing => "licensing"
    case Sites => "sites"
    case Support => "support"
  }

  /** `renderPage`: the page of a known section, the executive overview for any other. */
  function RenderPage(section: string): (p: Page)
    ensures section in Titles ==> SectionOfPage(p) == section
    ensures section !in Titles ==> p == ExecutiveOverview
  {
    match section
    case "executive-overview" => ExecutiveOverview
    case "customer-analytics" => CustomerAnalytics
    case "revenue-intelligence" => RevenueIntelligence
    case "product-performance" => ProductPerformance
    case "subscription-analytics" => SubscriptionAnalytics
    case "customers-revenue" => CustomersRevenue
    case "mrr-growth" => MrrGrowth
    case "renewals" => Renewals
    case "refunds" => Refunds
    case "licensing" => Licensing
    case "sites" => Sites
    case "support" => Support
    case _ => ExecutiveOverview
  }

  /** Every page is the one rendered for its own section, under that section's title. */
  lemma PagesAndTitlesAgree(p: Page)
    ensures SectionOfPage(p) in Titles
    ensures RenderPage(SectionOfPage(p)) == p
    ensures SectionTitle(SectionOfPage(p)) != "Dashboard"
  {
  }

  /**
   * Every admin screen the plugin registers opens a section the shell
   * knows: the top-level screen and each subpage get their own page and title.
   */
  lemma AdminScreensAreKnown(slug: string, sanitizeText: string -> string)
    requires slug in AdminPage.SubpageSlugs
    requires sanitizeText(AdminPage.SlugPrefix + slug) == AdminPage.SlugPrefix + slug
    requires sanitizeText(AdminPage.PluginSlug) == AdminPage.PluginSlug
    ensures var s := AdminPage.SectionOf(Some(AdminPage.SlugPrefix + slug), sanitizeText);
            s in Titles && SectionOfPage(RenderPage(s)) == s
    ensures var top := AdminPage.SectionOf(Some(AdminPage.PluginSlug), sanitizeText);
            top in Titles && RenderPage(top) == ExecutiveOverview
  {
    AdminPage.SubpageSection(slug, sanitizeText);
    AdminPage.TopLevelSection(sanitizeText);
  }
}
