/**
 * The plugin's main class: clearing the report cache, deactivation, and
 * the guards that decide whether the dashboard bundle is enqueued on an
 * admin screen.
 */
module Plugin {

  import opened Wrappers
  import opened Text
  import opened WpOptions
  import StatsQuery
  import AdminPage

  /** The value rows and the timeout rows of the plugin's transients. */
  const ValuePattern := "_transient_vgp_edd_stats_"
  const TimeoutPattern := "_transient_timeout_vgp_edd_stats_"

  /** The rows `clear_cache` deletes. */
  predicate IsCacheRow(name: string) {
    StartsWith(name, ValuePattern) || StartsWith(name, TimeoutPattern)
  }

  /** The options table after `clear_cache`: every cache row gone, every other row as it was. */
  function Cleared(t: Table): (r: Table)
    ensures forall k :: k in r <==> k in t && !IsCacheRow(k)
    ensures forall k | k in r :: r[k] == t[k]
  {
    map k | k in t && !IsCacheRow(k) :: t[k]
  }

  /** `clear_cache`: one delete over the options table. */
  method ClearCache(opts: Options)
    modifies opts
    ensures opts.table == Cleared(old(opts.table))
  {
    opts.table := map k | k in opts.table && !IsCacheRow(k) :: opts.table[k];
  }

  /** `deactivate`: clear the cache (flushing rewrite rules is the host's business). */
  method Deactivate(opts: Options)
    modifies opts
    ensures opts.table == Cleared(old(opts.table))
  {
    ClearCache(opts);
  }

  /** Clearing twice is clearing once. */
  lemma ClearIdempotent(t: Table)
    ensures Cleared(Cleared(t)) == Cleared(t)
  {
  }

  /** Clearing a table without cache rows changes nothing. */
  lemma ClearWithoutEntries(t: Table)
    requires forall k | k in t :: !IsCacheRow(k)
    ensures Cleared(t) == t
  {
  }

  /** Both rows of every entry the engine writes are cache rows, in either mode. */
  lemma EntryRowsAreCacheRows(key: string, dev: bool)
    ensures IsCacheRow(ValueRow(StatsQuery.EntryName(key, dev)))
    ensures IsCacheRow(TimeoutRow(StatsQuery.EntryName(key, dev)))
  {
    var tail := key + (if dev then StatsQuery.DevSuffix else "");
    assert StatsQuery.EntryName(key, dev) == StatsQuery.CacheGroup + tail;
    PatternsSplit();
    PatternStarts(TransientPrefix, tail);
    PatternStarts(TimeoutPrefix, tail);
  }

  /** The two patterns are the transient prefixes followed by the cache group. */
  lemma PatternsSplit()
    ensures ValuePattern == TransientPrefix + StatsQuery.CacheGroup
    ensures TimeoutPattern == TimeoutPrefix + StatsQuery.CacheGroup
  {
  }

  /** A row named `prefix` + the cache group + anything starts with that prefix and the group. */
  lemma PatternStarts(prefix: string, tail: string)
    ensures StartsWith(prefix + (StatsQuery.CacheGroup + tail), prefix + StatsQuery.CacheGroup)
  {
    assert prefix + (StatsQuery.CacheGroup + tail) == (prefix + StatsQuery.CacheGroup) + tail;
  }

  /** After clearing, no entry the engine wrote can be read back. */
  lemma ClearedEntriesMiss(t: Table, key: string, dev: bool, now: int)
    ensures TransientRead(Cleared(t), StatsQuery.EntryName(key, dev), now).0 == False
  {
    EntryRowsAreCacheRows(key, dev);
  }

  /** The cache-duration setting survives clearing. */
  lemma ClearKeepsDuration(t: Table)
    ensures StatsQuery.CacheDuration(Cleared(t)) == StatsQuery.CacheDuration(t)
  {
    assert !IsCacheRow(StatsQuery.DurationOption) by {
      assert StatsQuery.DurationOption[0] == 'v';
    }
  }

  /** The first report call after clearing runs its query, whatever was cached before. */
  lemma QueryAfterClear(e: StatsQuery.Engine, key: string, sql: string, kind: StatsQuery.QueryKind,
                        env: StatsQuery.Env, exec: StatsQuery.Query -> Value)
    ensures StatsQuery.GetCachedSpec(e.(table := Cleared(e.table)), key, sql, kind, env, exec).ran.Some?
  {
    var e' := e.(table := Cleared(e.table));
    ClearedEntriesMiss(e.table, key, StatsQuery.DevModeOn(StatsQuery.LoadConfig(e'.config, env.file)), env.now);
  }

  const DashboardSlug := AdminPage.PluginSlug
  const SettingsSlug := AdminPage.SettingsSlug

  /**
   * `enqueue_admin_assets`' guards: the screen's hook names the plugin, the
   * requested page (after `sanitize_key`) is not the settings page, and EDD
   * is active.
   */
  function ShouldEnqueue(hook: string, page: Option<string>, sanitizeKey: string -> string, eddActive: bool): (r: bool)
    ensures r ==> Contains(hook, DashboardSlug) && eddActive
  {
    var p := if page.Some? then sanitizeKey(page.value) else "";
    Contains(hook, DashboardSlug) && p != SettingsSlug && eddActive
  }

  /** The settings screen never loads the dashboard bundle. */
  lemma SettingsScreenNeverEnqueues(hook: string, sanitizeKey: string -> string, eddActive: bool)
    requires sanitizeKey(SettingsSlug) == SettingsSlug
    ensures !ShouldEnqueue(hook, Some(SettingsSlug), sanitizeKey, eddActive)
  {
  }

  /** A dashboard screen loads the bundle exactly when EDD is active. */
  lemma DashboardScreenEnqueues(hook: string, page: string, sanitizeKey: string -> string, eddActive: bool)
    requires Contains(hook, DashboardSlug)
    requires sanitizeKey(page) != SettingsSlug
    ensures ShouldEnqueue(hook, Some(page), sanitizeKey, eddActive) == eddActive
  {
  }

  /** Screens whose hook does not mention the plugin never load the bundle. */
  lemma ForeignScreenNeverEnqueues(hook: string, page: Option<string>, sanitizeKey: string -> string, eddActive: bool)
    requires !Contains(hook, DashboardSlug)
    ensures !ShouldEnqueue(hook, page, sanitizeKey, eddActive)
  {
  }
}
