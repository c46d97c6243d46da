# VGP EDD Stats — a verified model of the report cache and its helpers

VGP EDD Stats is a WordPress plugin that puts an analytics dashboard over
Easy Digital Downloads. Its server half runs SQL report queries through a
cache-aside engine. The engine looks for a WordPress transient and, on a
miss, runs the query and stores the answer for a configurable duration. In
development mode it redirects every query to a mirror database and keeps
that mode's cache entries apart. A REST layer validates request arguments
and wraps results in a `{success, data}` envelope. The admin screens
sanitise two settings and derive the dashboard section from the page slug.
The plugin's main class clears the cache and decides when the dashboard
bundle is loaded. Its client half is a React application: an API client,
a date-range picker, stat cards and four analytics pages whose helpers
classify, filter, sort and bucket report rows.

This project models that core in Dafny and proves what it promises:

- `WpOptions` is the host's options table: transients as a value row and a
  timeout row, with expiry on read. It is a class whose methods update the
  table in place.
- `StatsQuery` models the engine. It covers `is_dev_mode`, `get_db` and its
  memoised mirror connection, `get_cache_duration`, `get_cached`,
  `get_table_prefix`, key derivation and the post-query shaping. The
  request-scoped static state is the class `ReportQuery`, and every method
  is proved against a pure specification (`GetDbSpec`, `GetCachedSpec`,
  `ReportSpec`).
- `StatsApi` covers date validation, count arguments, the response envelope
  and the health check.
- `AdminPage` covers the settings sanitisers and section derivation.
- `Plugin` covers `clear_cache`, `deactivate` and the guards of
  `enqueue_admin_assets`.
- `ApiClient` covers configuration, parameter filtering, envelope
  unwrapping, date formatting and currency display.
- `App` covers the initial date range, section titles and page choice.
- `DateRangeFilter` is the picker's state machine, modelled as a class.
- `StatCard` covers value display and the change row's sign, colour and
  icon.
- `ProductPerformance`, `CustomerAnalytics`, `ExecutiveOverview` and
  `RevenueIntelligence` cover the page helpers.
- `Wrappers`, `Text` and `Js` are shared definitions: `Option`/`Result`,
  string helpers, and JavaScript's comparisons on `undefined` and `null`.

Several things outside the code become parameters:

- the database (`exec`), `md5`, `date_parse`, `sanitize_text_field`,
  `sanitize_key`, `fetch`, `Intl.NumberFormat`;
- the clock (`now`, and the date arithmetic of date-fns as a `Clock`);
- the configuration file on disk;
- the outcome of opening the mirror connection.

## Model

| member | source | states |
|---|---|---|
| WpOptions.Options.constructor | includes/class-stats-query.php:92 | the options table starts as given |
| WpOptions.ValueRowInjective | includes/class-stats-query.php:115 | distinct transients have distinct value rows |
| WpOptions.TimeoutRowInjective | includes/class-stats-query.php:136 | distinct transients have distinct timeout rows |
| WpOptions.ValueRowIsNotTimeoutRow | includes/class-stats-query.php:113-119 | a transient whose name does not start with `timeout_` never shares its value row with any timeout row |
| WpOptions.Options.GetOption | includes/class-stats-query.php:92 | `get_option` answers the stored row, else the caller's default |
| WpOptions.Options.GetTransient | includes/class-stats-query.php:115 | a read answers the value row unless the timeout lies strictly before now; an expired entry is deleted and reads as `false` |
| WpOptions.Options.SetTransient | includes/class-stats-query.php:136 | a write stores the value row and a timeout of now + ttl |
| WpOptions.ReadWithinTtl | includes/class-stats-query.php:113-119 | a stored value reads back unchanged up to and including stored + ttl |
| WpOptions.ReadAfterTtl | includes/class-stats-query.php:113-119 | after stored + ttl the read misses and both rows are gone |
| WpOptions.WriteIsolated | includes/class-stats-query.php:134-137 | writing one transient does not change what another reads |
| StatsQuery.DevModeSettled | includes/class-stats-query.php:37-44 | once the dev-mode constant is defined, later look-ups of the config file never change the decision |
| StatsQuery.LoadedOnce | includes/class-stats-query.php:39-41 | `require_once`: a loaded config file is never read again |
| StatsQuery.ReportQuery.constructor | includes/class-stats-query.php:30 | a request starts with no mirror connection and no config file loaded |
| StatsQuery.ReportQuery.IsDevMode | includes/class-stats-query.php:37-44 | loads the config file if present and not yet loaded; the answer is "constant defined and true" |
| StatsQuery.ReportQuery.GetDb | includes/class-stats-query.php:51-83 | returns and records exactly what `GetDbSpec` gives: primary outside dev mode, else the memoised connection, or a first attempt whose failure is memoised as primary |
| StatsQuery.GetDbStable | includes/class-stats-query.php:59-83 | a second `get_db` returns the same connection and changes nothing |
| StatsQuery.GetDbKeepsTable | includes/class-stats-query.php:51-83 | `get_db` never touches the options table |
| StatsQuery.MemoKept | includes/class-stats-query.php:59 | once a connection is memoised it stays, and no later call tries to connect |
| StatsQuery.ConnectAtMostOnce | includes/class-stats-query.php:59-83 | over any sequence of calls, the mirror connection is attempted at most once |
| StatsQuery.ConnectionFixed | includes/class-stats-query.php:59-83 | in dev mode with a memoised connection, every later call returns exactly it |
| StatsQuery.RefusedFallsBack | includes/class-stats-query.php:68-77 | a refused mirror connection yields the primary connection, and that is what is memoised |
| StatsQuery.IntCast | includes/class-stats-query.php:92 | `(int)` of the stored duration option: a string of digits, as `absint` saves it, counts as its decimal value |
| StatsQuery.ReportQuery.GetCacheDuration | includes/class-stats-query.php:91-93 | `(int)` of the stored duration option, 3600 when it is absent |
| StatsQuery.DurationOptionIsNotATransientRow | includes/class-stats-query.php:92 | the duration setting is neither row of any transient |
| StatsQuery.EntryNameInGroup | includes/class-stats-query.php:108-111 | every entry name starts with the `vgp_edd_stats_` group |
| StatsQuery.ReportQuery.GetCached | includes/class-stats-query.php:103-140 | result, new state and query log are exactly those of `GetCachedSpec` |
| StatsQuery.HitSkipsQuery | includes/class-stats-query.php:113-119 | with a positive duration, a stored non-`false` value is answered and no query runs |
| StatsQuery.ZeroDurationBypasses | includes/class-stats-query.php:114-139 | with a duration of 0 or less, the query always runs and the options table is unchanged |
| StatsQuery.OnlyOwnEntryChanges | includes/class-stats-query.php:134-137 | a call changes no option row other than its own entry's two rows |
| StatsQuery.RepeatWithinDurationHits | includes/class-stats-query.php:103-140 | a miss stores its result, and a repeat in the same mode within the duration gets that result without querying |
| StatsQuery.RepeatAfterDurationQueries | includes/class-stats-query.php:103-140 | a repeat after the duration has run out queries again |
| StatsQuery.StoredFalseQueriesAgain | includes/class-stats-query.php:116-118 | a read of `false` is a miss (the `false !== $cached` test), so a query whose answer was `false` runs again on the next call, even within the duration |
| StatsQuery.ReportQuery.TablePrefix | includes/class-stats-query.php:147-154 | the configured development prefix in dev mode when defined, else the site's prefix |
| StatsQuery.PrefixesAgreeOutsideDevMode | includes/class-stats-query.php:147-154 | outside dev mode, the queried connection's prefix and `get_table_prefix` are both the site's |
| StatsQuery.CatalogPrefixIsTheConnections | includes/class-stats-query.php:183 | catalog queries use the mirror connection object's own prefix, whatever prefix is configured |
| StatsQuery.KeyFor | includes/class-stats-query.php:474 | a fixed key is its name; other keys start with their prefix; a hashed key is the prefix plus 32 digest characters; a numbered key with parameters is longer than its prefix and ends in a digit |
| StatsQuery.FixedKeysDistinct | includes/class-stats-query.php:217 | the catalog's thirteen fixed entry names, from `customers_yoy` here to `seasonal_patterns` at line 2480, are pairwise distinct |
| StatsQuery.JoinNumbersEndsInDigit | includes/class-stats-query.php:474 | an interpolated parameter list always ends in a digit |
| StatsQuery.JoinNumbersHead | includes/class-stats-query.php:2423 | the joined text starts with the first parameter, followed by `_` and the rest |
| StatsQuery.JoinNumbersInjective | includes/class-stats-query.php:2423 | distinct parameter lists give distinct key suffixes |
| StatsQuery.NumberedKeysDistinct | includes/class-stats-query.php:474 | two different `days` or `limit` values never share a cache entry |
| StatsQuery.CatalogKeyLastChar | includes/class-stats-query.php:192 | no catalog key ends in `v`, so none can end in the dev suffix |
| StatsQuery.DevAndSiteEntriesDisjoint | includes/class-stats-query.php:108-111 | a dev-mode entry and a site entry never share a transient |
| StatsQuery.SameQuerySameKey | includes/class-stats-query.php:192 | a hashed report's entry is its prefix plus the digest of the rendered query |
| StatsQuery.WhereClause | includes/class-stats-query.php:170-176 | empty bounds add no `WHERE` fragment |
| StatsQuery.EmptyBoundsShareEntry | includes/class-stats-query.php:170-176 | absent, `""` and `"0"` bounds render the same query, hence the same entry |
| StatsQuery.ReportQuery.Report | includes/class-stats-query.php:182-192 | a catalog report renders with its connection's prefix, keys and answers as `ReportSpec` |
| StatsQuery.ReportQuery.DateRangeReport | includes/class-stats-query.php:167-193 | a date-range report is the hashed catalog report of its rendered query |
| StatsQuery.Truncate | includes/class-stats-query.php:228-229 | PHP `(int)` truncates toward zero |
| StatsQuery.FloatOfText | includes/class-stats-query.php:395-398 | `(float)` of a string: a leading minus gives a value ≤ 0, anything else a value ≥ 0 |
| StatsQuery.IntOfText | includes/class-stats-query.php:227-228 | `(int)` of a string is its `(float)` reading truncated toward zero |
| StatsQuery.IntOfDigitText | includes/class-stats-query.php:92 | `(int)` of a string of digits is its decimal value |
| StatsQuery.IntOfCell | includes/class-stats-query.php:227-228 | `(int)` of a column value is its `(float)` reading truncated toward zero |
| StatsQuery.FloatOfCell | includes/class-stats-query.php:485 | `(float)` of a column value: SQL `NULL` is 0; a string lies within one of its `(int)` reading |
| StatsQuery.DecimalTextReadsBack | includes/class-stats-query.php:395-398 | a decimal text `w.f`, with or without a minus sign, reads as ±(w + f / 10^len(f)) |
| StatsQuery.DecimalCastExamples | includes/class-stats-query.php:394-399 | `(float) "41.67"` is 41.67, and MRR answers `"41.67"`, `"100.50"`, `"0.99"` net 141.18 |
| StatsQuery.PercentChange | includes/class-stats-query.php:230 | `(current - last) / last * 100` when last > 0, else 0; sign matches the direction of change and is never below -100 when current is not negative |
| StatsQuery.YoyChange | includes/class-stats-query.php:219-235 | zeros without a row; else the `(int)` casts of both columns and their percent change, whose sign matches the direction of change and which is never below −100 when the current count is not negative |
| StatsQuery.YoyExamples | includes/class-stats-query.php:230 | 10 → 15 is +50, 10 → 5 is −50, nothing last year gives 0 |
| StatsQuery.ReportQuery.NewCustomersYoyChange | includes/class-stats-query.php:200-236 | the fixed-key `customers_yoy` report shaped by `YoyChange` |
| StatsQuery.UpcomingRenewals | includes/class-stats-query.php:476-486 | `{0, 0}` without a row, else the count column cast with `(int)` and the estimated revenue cast with `(float)`, decimals included; a non-negative numeric count stays non-negative |
| StatsQuery.ReportQuery.UpcomingRenewalsReport | includes/class-stats-query.php:458-487 | the report keyed `upcoming_renewals_<days>` shaped by `UpcomingRenewals`: `(int)` count and `(float)` estimated revenue |
| StatsQuery.ActivationFunnel | includes/class-stats-query.php:1175-1187 | the first row as returned, else exactly the seven funnel fields, each zero |
| StatsQuery.ReportQuery.ActivationFunnelReport | includes/class-stats-query.php:1136-1188 | the hashed `activation_funnel_` report shaped by `ActivationFunnel` |
| StatsQuery.MrrOf | includes/class-stats-query.php:394-399 | each figure is the `(float)` of its answer, decimals included; net = new + existing − churned, and net ≤ new + existing exactly when churned ≥ 0 |
| StatsQuery.ReportQuery.CurrentMrrBreakdown | includes/class-stats-query.php:361-400 | three fixed-key single-value reports, in order new, churned, existing, combined by `MrrOf` from their `(float)` readings |
| StatsQuery.ReportQuery.TopLicenses | includes/class-stats-query.php:544-572 | a missing licensing table gives `[]` uncached; otherwise the report keyed `top_licenses_<limit>` |
| StatsQuery.SqlSegment | includes/class-stats-query.php:805-813 | champion iff r + f + m ≥ 13; each other segment only when its own rule holds; `Potential` only when no rule holds |
| StatsQuery.SegmentBounds | includes/class-stats-query.php:805-813 | for scores 1–5, a champion scores at least 3 everywhere and a lost customer at most 2 on recency and frequency |
| StatsApi.CheckDate | includes/class-stats-api.php:234 | `checkdate` accepts only months 1–12, days 1–31 and years 1–32767, within the month's length |
| StatsApi.CalendarRules | includes/class-stats-api.php:234 | February 29 passes iff the year is a leap year in range; no 31st in April, June, September or November |
| StatsApi.DaysInMonth | includes/class-stats-api.php:234 | 28 to 31 days; 29 exactly for February of a leap year; 31 for the seven long months |
| StatsApi.ValidateDate | includes/class-stats-api.php:228-235 | an empty date passes; any other passes iff it parses without error into a real Gregorian date |
| StatsApi.LeapYearExamples | includes/class-stats-api.php:233-234 | 2024-02-29 and 2000-02-29 pass; 2024-02-30 fails |
| StatsApi.CommonYearExamples | includes/class-stats-api.php:233-234 | 2023-02-29 and 1900-02-29 fail |
| StatsApi.EmptyDateExamples | includes/class-stats-api.php:229-231 | absent, `""` and `"0"` pass whatever the parser says |
| StatsApi.DateRangeArgs | includes/class-stats-api.php:207-220 | accepted iff both dates validate; each date that fails is named; accepted values arrive sanitised |
| StatsApi.NoDatesAccepted | includes/class-stats-api.php:207-220 | a request without dates is accepted with both dates null |
| StatsApi.Absint | includes/class-stats-api.php:144 | the absolute value, never negative |
| StatsApi.DaysParam | includes/class-stats-api.php:141-146 | `days` is 30 unless given, else its absolute value |
| StatsApi.LimitParam | includes/class-stats-api.php:170-175 | `limit` is 20 unless given, else its absolute value |
| StatsApi.NegativeCountMirrors | includes/class-stats-api.php:141-146 | a negative count asks for the same report as its absolute value |
| StatsApi.Respond | includes/class-stats-api.php:252-264 | handlers answer success with the query result unchanged |
| StatsApi.HealthCheck | includes/class-stats-api.php:459-487 | success iff the probe is truthy, EDD is active and all three tables exist; `connected` iff the probe is truthy |
| AdminPage.SanitizeDefaultRange | includes/class-admin-page.php:77-82 | always one of 30/90/365/all; allowed values pass unchanged, anything else becomes 365 |
| AdminPage.SanitizeDefaultRangeIdempotent | includes/class-admin-page.php:77-82 | sanitising twice is sanitising once |
| AdminPage.SanitizeCacheDuration | includes/class-admin-page.php:55 | the saved duration is the absolute value of the input |
| AdminPage.SavedDurationIsUsed | includes/class-admin-page.php:50-58 | the engine's duration is the saved one, never negative, and the cache is on iff a non-zero value was saved |
| AdminPage.UnsavedDurationIsDefault | includes/class-admin-page.php:56 | before anything is saved the engine uses 3600 |
| AdminPage.SectionOf | includes/class-admin-page.php:136-144 | without a page the section is the executive overview |
| AdminPage.SubpageSection | includes/class-admin-page.php:141 | each of the seven subpages opens the section named by its slug |
| AdminPage.TopLevelSection | includes/class-admin-page.php:142-144 | the bare plugin page opens the executive overview |
| Plugin.Cleared | vgp-edd-stats.php:199-207 | exactly the rows under the two transient prefixes are gone; every other row keeps its value |
| Plugin.ClearCache | vgp-edd-stats.php:199-207 | the options table becomes `Cleared` of what it was |
| Plugin.Deactivate | vgp-edd-stats.php:188-194 | deactivation clears the cache |
| Plugin.ClearIdempotent | vgp-edd-stats.php:202-206 | clearing twice is clearing once |
| Plugin.ClearWithoutEntries | vgp-edd-stats.php:202-206 | clearing a table without cache rows changes nothing |
| Plugin.EntryRowsAreCacheRows | vgp-edd-stats.php:204-205 | both rows of every entry the engine writes, in either mode, are deleted by the clear |
| Plugin.ClearedEntriesMiss | vgp-edd-stats.php:199-207 | after clearing, no engine entry can be read back |
| Plugin.ClearKeepsDuration | vgp-edd-stats.php:202-206 | the cache-duration setting survives clearing |
| Plugin.QueryAfterClear | vgp-edd-stats.php:199-207 | the first report call after clearing runs its query |
| Plugin.ShouldEnqueue | vgp-edd-stats.php:110-126 | loading the bundle needs a plugin hook and an active EDD |
| Plugin.SettingsScreenNeverEnqueues | vgp-edd-stats.php:118-120 | the settings screen never loads the bundle |
| Plugin.DashboardScreenEnqueues | vgp-edd-stats.php:110-126 | a dashboard screen loads the bundle exactly when EDD is active |
| Plugin.ForeignScreenNeverEnqueues | vgp-edd-stats.php:112-114 | a hook without the plugin's slug never loads the bundle |
| ApiClient.GetConfig | src/utils/api.js:4-16 | the localized configuration when present, else the development fallback |
| ApiClient.PresentParams | src/utils/api.js:30-34 | never more query parameters than were passed |
| ApiClient.PresentParamsExact | src/utils/api.js:30-34 | the query holds exactly the parameters that are neither null nor undefined |
| ApiClient.AllGivenKept | src/utils/api.js:30-34 | when every parameter is given, all are kept in order |
| ApiClient.FailureMessage | src/utils/api.js:51 | the server's message when it has one, else a fixed non-empty text |
| ApiClient.Unwrap | src/utils/api.js:44-54 | succeeds iff the status is ok and `success` is true, with exactly `data`; the two failures carry their own messages |
| ApiClient.EnvelopeRoundTrip | src/utils/api.js:50-54 | a handler's `{success, data}` envelope comes back to the page as the query result itself |
| ApiClient.ApiRequest | src/utils/api.js:25-55 | fetches the endpoint with only the present parameters and the nonce, and unwraps the answer |
| ApiClient.FormatIso | src/utils/api.js:69-70 | a date renders as ten characters `YYYY-MM-DD` with digit fields |
| ApiClient.FormatDateRange | src/utils/api.js:63-72 | no parameters unless both dates are present, else exactly `start_date` and `end_date` |
| ApiClient.FormatIsoParses | src/utils/api.js:69-70 | the server's date parser reads back the formatted date's year, month and day |
| ApiClient.FormattedRangeValidates | src/utils/api.js:63-72 | the server accepts a formatted range iff both dates are real calendar dates |
| ApiClient.ParsedTextValidates | includes/class-stats-api.php:228-235 | a non-empty date whose parse has no error passes iff `checkdate` accepts its fields |
| ApiClient.FormattedDateValidates | src/utils/api.js:69-70 | a `yyyy-MM-dd` rendering passes the server's date check iff the date is a real calendar date |
| ApiClient.CurrencySymbol | src/utils/api.js:79-89 | the symbol of a known code, `$` for any other |
| ApiClient.FormatCurrency | src/utils/api.js:97-105 | negatives render as `-` + symbol + the formatted absolute value |
| ApiClient.NegativeAddsSign | src/utils/api.js:104 | a negative amount renders as its positive rendering with a leading `-` |
| ApiClient.SignShown | src/utils/api.js:104 | the rendering starts with `-` iff the value is negative |
| App.InitialPreset | src/App.jsx:105-114 | the configured preset when whitelisted, else 365 |
| App.InitialDateRange | src/App.jsx:104-129 | `all` has null dates; every other preset ends now |
| App.InitialRangeIsPresetRange | src/App.jsx:116-128 | the initial range is one the picker's presets produce, with a valid preset |
| App.SavedRangeIsUsed | src/App.jsx:112-114 | a default range saved through the settings screen is the one the client starts with |
| App.SectionTitle | src/App.jsx:83-100 | the known title, `Dashboard` for an unknown section |
| App.RenderPage | src/App.jsx:24-53 | a known section renders its page; any other the executive overview |
| App.PagesAndTitlesAgree | src/App.jsx:24-53 | every page has a title and is rendered by its own section |
| App.AdminScreensAreKnown | src/App.jsx:24-53 | every admin screen's section has a page and a title |
| DateRangeFilter.PresetDates | src/components/DateRangeFilter.jsx:6-13 | `custom` has no dates, `all` has null dates, the rest end now |
| DateRangeFilter.RangeFilter.constructor | src/components/DateRangeFilter.jsx:22-24 | the dialog is closed and the temp dates are the shown range's |
| DateRangeFilter.RangeFilter.Sync | src/components/DateRangeFilter.jsx:26-30 | while the dialog is open the temp dates are kept, else they follow the shown range |
| DateRangeFilter.RangeFilter.ReceiveProps | src/components/DateRangeFilter.jsx:26-30 | new props do not overwrite temp dates while the dialog is open |
| DateRangeFilter.RangeFilter.PickPreset | src/components/DateRangeFilter.jsx:32-48 | `custom` opens the dialog with the current dates and emits nothing; any other preset emits its dates and value and closes |
| DateRangeFilter.RangeFilter.PickStart | src/components/DateRangeFilter.jsx:114 | only the temp start changes |
| DateRangeFilter.RangeFilter.PickEnd | src/components/DateRangeFilter.jsx:129 | only the temp end changes |
| DateRangeFilter.RangeFilter.Apply | src/components/DateRangeFilter.jsx:50-57 | emits the temp dates as `custom` and closes |
| DateRangeFilter.RangeFilter.Cancel | src/components/DateRangeFilter.jsx:141-143 | closes without emitting; temp dates fall back to the shown range |
| DateRangeFilter.CustomWithoutEdits | src/components/DateRangeFilter.jsx:32-57 | opening custom and applying at once emits the shown dates as `custom` |
| DateRangeFilter.EditThenCancel | src/components/DateRangeFilter.jsx:141-143 | an edit followed by cancel emits nothing and restores the shown dates |
| DateRangeFilter.EditsSurviveNewProps | src/components/DateRangeFilter.jsx:26-30 | an edit survives a new range arriving while the dialog is open |
| StatCard.FormatValue | src/components/StatCard.jsx:16-28 | `...` while loading, `-` for null or undefined, else the formatter of the type |
| StatCard.CurrencyCardSign | src/components/StatCard.jsx:21-22 | a currency card shows a leading `-` iff the value is negative |
| StatCard.ChangeColor | src/components/StatCard.jsx:30-38 | green for >0 and red for <0, swapped when inverted; gray exactly for 0 |
| StatCard.InvertIsNegation | src/components/StatCard.jsx:32-33 | inverting the colours is colouring the negated change |
| StatCard.ChangeIcon | src/components/StatCard.jsx:40-44 | `↑` iff >0, `↓` iff <0, `−` iff 0 |
| StatCard.IconMatchesColor | src/components/StatCard.jsx:30-44 | without inversion the up arrow is green and the down arrow red |
| StatCard.ChangeRow | src/components/StatCard.jsx:59-70 | shown iff the change is a number, with its magnitude, icon, colour and label (default `vs previous period`) |
| StatCard.ZeroChangeShown | src/components/StatCard.jsx:59 | a change of 0 is shown, gray and flat |
| ProductPerformance.CountActive | src/pages/ProductPerformancePage.jsx:44 | at most the number of products |
| ProductPerformance.CountActiveBounds | src/pages/ProductPerformancePage.jsx:44 | all products are active iff all have positive revenue; none iff none has |
| ProductPerformance.SummaryMetrics | src/pages/ProductPerformancePage.jsx:35-53 | null until loaded; else total revenue is the `current_revenue` sum, total units the sum of the truncated `units_sold`, active products the count with positive revenue (`CountActiveBounds` gives its meaning); average growth 0 for no products, else growth sum / count; average order value 0 without units, else revenue / units |
| ProductPerformance.QuadrantOf | src/pages/ProductPerformancePage.jsx:73-80 | stars, cash cows, question marks or dogs, each iff its revenue and growth comparison with the averages |
| ProductPerformance.InQuadrant | src/pages/ProductPerformancePage.jsx:72-82 | a selection that names no quadrant keeps every product (the `default` case) |
| ProductPerformance.QuadrantColor | src/pages/ProductPerformancePage.jsx:722-727 | one of four colours; green iff revenue and growth are both at least average |
| ProductPerformance.QuadrantsPartition | src/pages/ProductPerformancePage.jsx:68-83 | each product passes exactly one quadrant filter, the one its colour shows |
| ProductPerformance.Matches | src/pages/ProductPerformancePage.jsx:59-61 | the lower-cased name (`''` when missing) contains the lower-cased term; the empty term always matches; a matching term is no longer than the name |
| ProductPerformance.SearchFilter | src/pages/ProductPerformancePage.jsx:59-61 | keeps exactly the products that `Matches`, each as many times as it occurs, and drops every other |
| ProductPerformance.EmptySearchKeepsAll | src/pages/ProductPerformancePage.jsx:59-61 | an empty search keeps the list as it is |
| ProductPerformance.KeepQuadrant | src/pages/ProductPerformancePage.jsx:68-84 | keeps exactly the products in the selected quadrant, each as many times as it occurs |
| ProductPerformance.QuadrantFilter | src/pages/ProductPerformancePage.jsx:64-85 | `all` or an empty list is left unfiltered |
| ProductPerformance.QuadrantFiltersPartition | src/pages/ProductPerformancePage.jsx:64-85 | against the list's own averages, a product is kept by exactly one of the four filters |
| ProductPerformance.SortColumn | src/pages/ProductPerformancePage.jsx:89 | the column `revenue` is never read; every other key is its own column |
| ProductPerformance.SortedByDirection | src/pages/ProductPerformancePage.jsx:88-93 | the comparator's order is ascending for `asc`, descending otherwise |
| ProductPerformance.SwapDown | src/pages/ProductPerformancePage.jsx:88-93 | swapping an out-of-order pair moves the inserted product one step down and keeps the prefix otherwise sorted |
| ProductPerformance.InsertionDone | src/pages/ProductPerformancePage.jsx:88-93 | once the inserted product meets a smaller-or-equal neighbour, the prefix is sorted |
| ProductPerformance.SortInPlace | src/pages/ProductPerformancePage.jsx:88-93 | the array ends sorted by the comparator and is a permutation of what it was |
| ProductPerformance.InsertInto | src/pages/ProductPerformancePage.jsx:88-93 | one insertion step: with the first n cells sorted, the first n + 1 end sorted and the array is a permutation of what it was |
| ProductPerformance.FilteredProducts | src/pages/ProductPerformancePage.jsx:56-96 | `[]` until loaded; else a sorted permutation of the searched, quadrant-filtered list, `revenue` sorting by `total_revenue` |
| ProductPerformance.NextSortConfig | src/pages/ProductPerformancePage.jsx:376-381 | `asc` only when the same key is clicked again while `desc`; `desc` otherwise |
| ProductPerformance.SortToggles | src/pages/ProductPerformancePage.jsx:376-381 | clicking a column repeatedly alternates its direction |
| ProductPerformance.TrendOf | src/pages/ProductPerformancePage.jsx:384-388 | up iff >5, down iff < −5, flat otherwise |
| CustomerAnalytics.ParseScore | src/pages/CustomerAnalyticsPage.jsx:46 | a missing or non-numeric score counts as 0 |
| CustomerAnalytics.ScoreOfDigits | src/pages/CustomerAnalyticsPage.jsx:46 | a present score of digits counts as its decimal value |
| CustomerAnalytics.ParseDigits | src/pages/CustomerAnalyticsPage.jsx:46 | a score of digits counts as its decimal value |
| CustomerAnalytics.SegmentOf | src/pages/CustomerAnalyticsPage.jsx:46-53 | for rows whose three scores are digit strings, the client's bucket is the segment the server's SQL rule gives |
| CustomerAnalytics.CountSegment | src/pages/CustomerAnalyticsPage.jsx:45-54 | a bucket never exceeds the number of rows |
| CustomerAnalytics.EverySegmentListed | src/pages/CustomerAnalyticsPage.jsx:36-44 | the seven buckets cover every segment |
| CustomerAnalytics.SegmentsCoverRows | src/pages/CustomerAnalyticsPage.jsx:45-54 | every row lands in exactly one bucket, so the counts sum to the number of rows |
| CustomerAnalytics.BucketRfm | src/pages/CustomerAnalyticsPage.jsx:34-54 | every bucket holds the count of rows whose first matching rule (the SQL segment rule) is that bucket |
| CustomerAnalytics.StatusKey | src/pages/CustomerAnalyticsPage.jsx:68 | a missing or empty status groups under `Unknown` |
| CustomerAnalytics.CountStatus | src/pages/CustomerAnalyticsPage.jsx:67-70 | a group never exceeds the number of rows |
| CustomerAnalytics.FindKey | src/pages/CustomerAnalyticsPage.jsx:69 | the position of a group's key, or the end when it has none |
| CustomerAnalytics.CountStatusAppend | src/pages/CustomerAnalyticsPage.jsx:66-70 | one more row adds one to its own status count and nothing to the others |
| CustomerAnalytics.CountRow | src/pages/CustomerAnalyticsPage.jsx:69 | counting one more row keeps the grouping exact for the rows seen plus that row |
| CustomerAnalytics.GroupExisting | src/pages/CustomerAnalyticsPage.jsx:69 | counting a row under a key already present keeps the grouping exact |
| CustomerAnalytics.GroupNew | src/pages/CustomerAnalyticsPage.jsx:69 | a row with a new key starts its group at 1 and keeps the grouping exact |
| CustomerAnalytics.GroupHealth | src/pages/CustomerAnalyticsPage.jsx:63-76 | one group per distinct status key, each holding the count of its rows, the counts summing to the number of rows |
| CustomerAnalytics.AtRisk | src/pages/CustomerAnalyticsPage.jsx:29 | a row at risk has a status of at least four characters (it contains `risk`) |
| CustomerAnalytics.CountAtRisk | src/pages/CustomerAnalyticsPage.jsx:29 | at most the number of health rows |
| CustomerAnalytics.SummaryOf | src/pages/CustomerAnalyticsPage.jsx:25-31 | null unless all three reports are loaded; distinct ids across RFM and CLV; average CLV 0 for no rows |
| CustomerAnalytics.RfmIdsBound | src/pages/CustomerAnalyticsPage.jsx:27 | there are no more distinct RFM ids than rows |
| CustomerAnalytics.ClvIdsBound | src/pages/CustomerAnalyticsPage.jsx:27 | there are no more distinct CLV ids than rows |
| CustomerAnalytics.TotalCustomersBounds | src/pages/CustomerAnalyticsPage.jsx:27 | the total lies between either list's distinct ids and the sum of both lengths |
| ExecutiveOverview.GrowthFactor | src/pages/ExecutiveOverviewPage.jsx:53-63 | at most 100; 50 without a positive base; with one, change + 50 up to the cap and exactly 100 above it |
| ExecutiveOverview.ChurnFactor | src/pages/ExecutiveOverviewPage.jsx:56-57 | never negative; 100 without churn; 100 − 10·churn up to ten percent and exactly 0 above it; at most 100 for non-negative churn |
| ExecutiveOverview.HealthScore | src/pages/ExecutiveOverviewPage.jsx:49-74 | null unless summary, churn and MRR are loaded; else the weighted factors |
| ExecutiveOverview.ScoreAtMostHundred | src/pages/ExecutiveOverviewPage.jsx:53-71 | with non-negative churn the score is at most 100 |
| ExecutiveOverview.EmptyStoreScore | src/pages/ExecutiveOverviewPage.jsx:53-71 | a store with all figures zero scores 62.5 |
| ExecutiveOverview.StatusOf | src/pages/ExecutiveOverviewPage.jsx:77-83 | loading for null or 0; ≥80 excellent, ≥60 good, ≥40 needs attention, else critical |
| ExecutiveOverview.ZeroScoreReadsAsLoading | src/pages/ExecutiveOverviewPage.jsx:78 | a loaded score of exactly 0 is reachable and is shown as loading |
| ExecutiveOverview.QuickWins | src/pages/ExecutiveOverviewPage.jsx:210-252 | each win iff its condition, in order; never empty; steady performance alone iff no condition holds |
| ExecutiveOverview.Risks | src/pages/ExecutiveOverviewPage.jsx:255-286 | churn > 10 and revenue < −10 high, MRR < −5 medium, each iff its condition, in order, and no other |
| ExecutiveOverview.WinsAndRisksExclusive | src/pages/ExecutiveOverviewPage.jsx:213-276 | no figure is both a win and a risk |
| ExecutiveOverview.NothingLoaded | src/pages/ExecutiveOverviewPage.jsx:210-286 | with nothing loaded: steady performance and no alerts |
| ExecutiveOverview.TodayRevenue | src/pages/ExecutiveOverviewPage.jsx:203-207 | 0 for an empty series, else the last day's revenue |
| Js.OrZero | src/pages/RevenueIntelligencePage.jsx:58 | `v \|\| 0`: the number when truthy, else 0 |
| Js.Numeric | src/pages/ExecutiveOverviewPage.jsx:213-276 | a comparison reads `undefined` as no number, `null` as 0 and a number as itself |
| Js.GtLtExclusive | src/pages/ExecutiveOverviewPage.jsx:229-258 | no value is both below a threshold and above a higher one, `null` and `undefined` included |
| RevenueIntelligence.TotalRevenue | src/pages/RevenueIntelligencePage.jsx:53 | the `reduce` total is never negative when no row's revenue is |
| RevenueIntelligence.SourceRevenue | src/pages/RevenueIntelligencePage.jsx:54 | 0 when no row has that source |
| RevenueIntelligence.SourceRevenueFirst | src/pages/RevenueIntelligencePage.jsx:54 | `find`: the revenue of the first row of that source, 0 when falsy |
| RevenueIntelligence.SourceWithinTotal | src/pages/RevenueIntelligencePage.jsx:53-54 | with no negative revenue, one source lies between 0 and the total |
| RevenueIntelligence.TotalSplitsAtHead | src/pages/RevenueIntelligencePage.jsx:53 | the `reduce` total is the first row's revenue plus the total of the rest |
| RevenueIntelligence.HealthOf | src/pages/RevenueIntelligencePage.jsx:64 | excellent >5, good >2, fair >0, poor otherwise |
| RevenueIntelligence.Percent | src/pages/RevenueIntelligencePage.jsx:55 | `part / whole * 100`: the share p with p × whole = part × 100 |
| RevenueIntelligence.PartOfWhole | src/pages/RevenueIntelligencePage.jsx:55 | a part between 0 and a positive whole is between 0 and 100 percent of it |
| RevenueIntelligence.GaugeColor | src/pages/RevenueIntelligencePage.jsx:128 | one of four colours; green iff velocity > 5; red iff velocity ≤ 0 |
| RevenueIntelligence.GaugeFollowsHealth | src/pages/RevenueIntelligencePage.jsx:128 | the gauge colour bands velocity by the same thresholds as the label |
| RevenueIntelligence.MetricsOf | src/pages/RevenueIntelligencePage.jsx:50-66 | null until loaded; recurring share 0 when the total is not positive, else the `Percent` of recurring in total |
| RevenueIntelligence.RecurringShareBounded | src/pages/RevenueIntelligencePage.jsx:55 | with no negative revenue the recurring share is between 0 and 100 |
| RevenueIntelligence.WaterfallBars | src/pages/RevenueIntelligencePage.jsx:73-115 | six bars; contraction and churn never positive; ending = start + new + expansion − contraction − churn |
| RevenueIntelligence.WaterfallAddsUp | src/pages/RevenueIntelligencePage.jsx:111-114 | with contraction and churn reported as positive amounts, the ending bar is the sum of the five before it |
| RevenueIntelligence.SourceFilter | src/pages/RevenueIntelligencePage.jsx:186-188 | keeps exactly the rows of sources `new`, `recurring` and `expansion`, each as many times as it occurs |
| RevenueIntelligence.Insert | src/pages/RevenueIntelligencePage.jsx:392-393 | adding a value to a strictly ascending list keeps it strictly ascending, holding the old values and the new one |
| RevenueIntelligence.SortedDistinct | src/pages/RevenueIntelligencePage.jsx:392-393 | `[...new Set(xs)].sort(…)`: strictly ascending, holding exactly the values of the input |
| RevenueIntelligence.AscendingDistinct | src/pages/RevenueIntelligencePage.jsx:392-393 | a strictly ascending list has no value twice |
| RevenueIntelligence.TextOrder | src/pages/RevenueIntelligencePage.jsx:392 | the default string sort is a strict total order |
| RevenueIntelligence.NumericOrder | src/pages/RevenueIntelligencePage.jsx:393 | `(a, b) => a - b` sorts by a strict total order |
| RevenueIntelligence.IndexOf | src/pages/RevenueIntelligencePage.jsx:397-398 | `indexOf`: the first position holding the value when present, −1 otherwise |
| RevenueIntelligence.CohortHeatmap | src/pages/RevenueIntelligencePage.jsx:388-400 | sorted distinct cohorts and months; one point per row whose indices are valid and locate the row's cohort and month |
| RevenueIntelligence.Concentration | src/pages/RevenueIntelligencePage.jsx:236-246 | the line holds each row's cumulative percentage, in order, as the chart at line 308 shows it; the running revenue is the total of the rows, though the page never reads it |

## Left out

- SQL text and its meaning: queries are opaque strings and answers opaque rows. `wpdb::prepare` is a parameter, and so are MySQL and the catalog methods' SQL bodies.
- `md5` (RFC 1321), `date_parse`, `sanitize_text_field`, `sanitize_key`, `absint`'s integer conversion of non-integers, and `current_user_can`: parameters or plain integers. `IsoDateParse` is a reference reading of `YYYY-MM-DD` text only.
- The `LIKE` patterns of `clear_cache`, where `_` matches any character: modelled as a prefix delete, so rows that merely resemble the prefix are not covered.
- WordPress's object cache: transients are modelled as options-table rows, as WordPress stores them without one.
- Expiry follows WordPress: an entry is gone only once its timeout lies strictly before now, so it is still served at exactly stored + duration.
- Concurrency: simultaneous misses for one key, and the unguarded static connection. The model is single-threaded.
- The unused development port constant, error logging, `set_charset` and `wp_die` on activation.
- REST plumbing: route registration, `rest_ensure_response`, permission callbacks, asset handles and the singletons' hook wiring. `flush_rewrite_rules` in `deactivate` is the host's business.
- Rendering, chart options, react-query and `fetch`/`URL`/`Intl.NumberFormat`. `new URL` on the relative fallback `apiUrl` is not modelled, so the request URL is plain concatenation.
- The page components' calls to API methods that the API client does not define; the client's endpoint table is not modelled.
- Rounding: `round(…, 2)`, `toFixed`, `Math.round` of the health score, and `formatPercentage`/`formatNumber`. Values are exact reals.
- Date arithmetic (`subDays`, `subMonths`, `startOfYear`, `new Date()`): a `Clock` parameter.
- JavaScript `NaN`, numeric strings (`+` would concatenate them) and prototype keys: page values are numbers, `null` or `undefined`.
- ProductPerformance.SortInPlace: stability of `Array.prototype.sort` is not stated; only order and permutation are.
- CustomerAnalytics.GroupHealth: the order of the groups (JavaScript's key order) is not stated; only keys and counts are.
- CustomerAnalytics.ParseScore: `parseInt` of signs, leading whitespace and other radices is not modelled; a score is a leading run of decimal digits.
- StatsQuery.FloatOfText: leading whitespace, exponents (`1e3`), hexadecimal and `INF`/`NAN` texts are not modelled; an optional sign, digits, a point and digits are. A text without a digit prefix reads as 0.
- StatsQuery.FloatOfCell: the same limits as `FloatOfText`; wpdb answers decimals as plain `123.45` text, which is covered.
- StatsQuery.IntCast: the same limits as `FloatOfText` for a stored string; `absint` only ever saves digits.
- StatsQuery.IntOfText: a float beyond the integer range is not modelled; integers are unbounded.
- ProductPerformance.Matches: only ASCII letters are lower-cased, while JavaScript's `toLowerCase` folds every Unicode letter.
- ProductPerformance.SearchFilter: inherits the ASCII-only lower-casing of `Matches`.
- ProductPerformance.FilteredProducts: inherits the ASCII-only lower-casing of `Matches`.
- CustomerAnalytics.AtRisk: only ASCII letters are lower-cased, while JavaScript's `toLowerCase` folds every Unicode letter.
- CustomerAnalytics.CountAtRisk: inherits the ASCII-only lower-casing of `AtRisk`.
- CustomerAnalytics.SummaryOf: inherits the ASCII-only lower-casing of `AtRisk`.
- DateRangeFilter.RangeFilter.PickStart: accepts any date, while the start picker only offers dates up to the temp end date (`maxDate`), so the model admits a start after the end.
- DateRangeFilter.RangeFilter.PickEnd: accepts any date, while the end picker only offers dates from the temp start to today (`minDate`, `maxDate`), so the model admits an end before the start or in the future.
- ApiClient.FormatIso: the fixed `YYYY-MM-DD` shape is stated only for years below 10000.
- RevenueIntelligence.CohortHeatmap: `undefined` cohorts or months, and months given as strings, are not modelled.
- ExecutiveOverview.TodayRevenue: `parseFloat` of the last day's revenue is not modelled; the series holds numbers.
- The other dashboard pages, `ChartWrapper`, `index.jsx`, `vite.config.js` and `dev-config-sample.php` are presentation or configuration and are not part of this model.
