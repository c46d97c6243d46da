/**
 * The report-query engine: the choice between the site's own database
 * connection and an alternate "development" connection, the read-through
 * cache in front of every report query, how each report names its cache
 * entry, and the shaping some reports apply to the rows they get back.
 *
 * One `ReportQuery` object stands for the engine's per-request static
 * state (the loaded development configuration and the memoised alternate
 * connection) together with the site's options table.  SQL text is
 * opaque: a report supplies a function from table prefix to query text,
 * and the database is a function from a `Query` to the `Value` it returns.
 */
module StatsQuery {

  import opened Wrappers
  import opened Text
  import opened WpOptions

  const CacheGroup := "vgp_edd_stats_"
  const DurationOption := "vgp_edd_stats_cache_duration"
  const DefaultDuration := 3600
  const DevSuffix := "_dev"

  // ---------------------------------------------------------------
  // Development configuration
  // ---------------------------------------------------------------

  /** The constants a request has defined; `None` is "not defined". */
  datatype DevConstants = DevConstants(
    devMode: Option<bool>,
    host: Option<string>,
    name: Option<string>,
    user: Option<string>,
    password: Option<string>,
    prefix: Option<string>)

  /** dev-config.php as found on disk at the moment it is looked for. */
  datatype ConfigFile = Absent | Present(defines: DevConstants)

  /** Whether the configuration file has been loaded, and what is defined. */
  datatype Config = Config(loaded: bool, constants: DevConstants)

  /** A constant keeps its first definition; a later `define` is ignored. */
  function Define<T>(current: Option<T>, later: Option<T>): Option<T> {
    if current.Some? then current else later
  }

  /** `require_once` of the configuration file when it exists. */
  function LoadConfig(c: Config, file: ConfigFile): Config {
    if c.loaded || file.Absent? then c
    else
      var d, f := c.constants, file.defines;
      Config(true, DevConstants(
        Define(d.devMode, f.devMode), Define(d.host, f.host), Define(d.name, f.name),
        Define(d.user, f.user), Define(d.password, f.password), Define(d.prefix, f.prefix)))
  }

  /** The dev-mode constant is defined and true. */
  predicate DevModeOn(c: Config) {
    c.constants.devMode == Some(true)
  }

  /** The configuration after a request looks for the file once per entry of `files`. */
  function LoadEach(c: Config, files: seq<ConfigFile>): Config
    decreases |files|
  {
    if files == [] then c else LoadEach(LoadConfig(c, files[0]), files[1..])
  }

  /**
   * Within one request, a dev-mode decision that rests on a defined
   * constant never changes, however often the file is looked for again.
   */
  lemma {:induction false} DevModeSettled(c: Config, files: seq<ConfigFile>)
    requires c.constants.devMode.Some?
    ensures LoadEach(c, files).constants.devMode == c.constants.devMode
    ensures DevModeOn(LoadEach(c, files)) == DevModeOn(c)
    decreases |files|
  {
    if files != [] {
      DevModeSettled(LoadConfig(c, files[0]), files[1..]);
    }
  }

  /** Once loaded, the configuration file is never read again. */
  lemma {:induction false} LoadedOnce(c: Config, files: seq<ConfigFile>)
    requires c.loaded
    ensures LoadEach(c, files) == c
    decreases |files|
  {
    if files != [] {
      LoadedOnce(LoadConfig(c, files[0]), files[1..]);
    }
  }

  // ---------------------------------------------------------------
  // Connections
  // ---------------------------------------------------------------

  datatype Credentials = Credentials(host: string, name: string, user: string, password: string)

  /**
   * The connection a query runs on: the site's own, or an alternate one
   * together with the `prefix` property of that connection object.
   */
  datatype Connection = Primary | Dev(credentials: Credentials, tablePrefix: string)

  /** What constructing the alternate connection yields: no handle, or a handle and its object's prefix. */
  datatype ConnectAttempt = Refused | Connected(prefix: string)

  /** The credentials of the alternate connection, each with its default. */
  function DevCredentials(d: DevConstants): Credentials {
    Credentials(d.host.GetOr("localhost"), d.name.GetOr("vgp_edd_dev"),
                d.user.GetOr("root"), d.password.GetOr("root"))
  }

  /** The state the engine keeps for one request, and the options table. */
  datatype Engine = Engine(config: Config, devDb: Option<Connection>, table: Table)

  /** What one call meets outside the engine: the configuration file, the outcome of connecting, and the clock. */
  datatype Env = Env(file: ConfigFile, attempt: ConnectAttempt, now: int)

  /** `get_db`: the connection to use and the engine afterwards. */
  function GetDbSpec(e: Engine, env: Env): (Connection, Engine) {
    var config := LoadConfig(e.config, env.file);
    if !DevModeOn(config) then (Primary, e.(config := config))
    else if e.devDb.Some? then (e.devDb.value, e.(config := config))
    else
      var conn := match env.attempt
        case Refused => Primary
        case Connected(p) => Dev(DevCredentials(config.constants), p);
      (conn, e.(config := config, devDb := Some(conn)))
  }

  /** A second `get_db` in the same request returns the same connection and changes nothing. */
  lemma GetDbStable(e: Engine, env: Env)
    ensures var (conn, e1) := GetDbSpec(e, env);
            GetDbSpec(e1, env) == (conn, e1)
  {
  }

  /** `get_db` never touches the options table. */
  lemma GetDbKeepsTable(e: Engine, env: Env)
    ensures GetDbSpec(e, env).1.table == e.table
  {
  }

  /** The connections a request's successive `get_db` calls return. */
  function GetDbEach(e: Engine, envs: seq<Env>): (seq<Connection>, Engine)
    decreases |envs|
  {
    if envs == [] then ([], e)
    else
      var (conn, e1) := GetDbSpec(e, envs[0]);
      var (rest, e2) := GetDbEach(e1, envs[1..]);
      ([conn] + rest, e2)
  }

  /** The call tries to open the alternate connection: dev mode, and none memoised yet. */
  predicate Connects(e: Engine, env: Env) {
    DevModeOn(LoadConfig(e.config, env.file)) && e.devDb.None?
  }

  /** How many of a request's `get_db` calls try to open the alternate connection. */
  function ConnectCount(e: Engine, envs: seq<Env>): nat
    decreases |envs|
  {
    if envs == [] then 0
    else (if Connects(e, envs[0]) then 1 else 0) + ConnectCount(GetDbSpec(e, envs[0]).1, envs[1..])
  }

  /** A memoised connection stays memoised for the rest of the request. */
  lemma {:induction false} MemoKept(e: Engine, envs: seq<Env>)
    requires e.devDb.Some?
    ensures GetDbEach(e, envs).1.devDb == e.devDb
    ensures ConnectCount(e, envs) == 0
    decreases |envs|
  {
    if envs != [] {
      MemoKept(GetDbSpec(e, envs[0]).1, envs[1..]);
    }
  }

  /**
   * However many reports a request runs, the alternate connection is
   * attempted at most once; a refused attempt is not retried.
   */
  lemma {:induction false} ConnectAtMostOnce(e: Engine, envs: seq<Env>)
    ensures ConnectCount(e, envs) <= 1
    decreases |envs|
  {
    if envs != [] {
      var e1 := GetDbSpec(e, envs[0]).1;
      if Connects(e, envs[0]) {
        MemoKept(e1, envs[1..]);
      } else {
        ConnectAtMostOnce(e1, envs[1..]);
      }
    }
  }

  /**
   * Once dev mode is decided on by a defined constant and a connection is
   * memoised, every later call in the request uses exactly that connection
   * (the site's own after a refused attempt).
   */
  lemma {:induction false} ConnectionFixed(e: Engine, envs: seq<Env>)
    requires DevModeOn(e.config) && e.devDb.Some?
    ensures var (conns, _) := GetDbEach(e, envs);
            |conns| == |envs| && forall i :: 0 <= i < |conns| ==> conns[i] == e.devDb.value
    decreases |envs|
  {
    if envs != [] {
      var (conn, e1) := GetDbSpec(e, envs[0]);
      assert e1.config.constants.devMode == e.config.constants.devMode;
      ConnectionFixed(e1, envs[1..]);
    }
  }

  /** A refused alternate connection falls back to the site's own, and the fallback is what is memoised. */
  lemma RefusedFallsBack(e: Engine, env: Env)
    requires Connects(e, env) && env.attempt.Refused?
    ensures GetDbSpec(e, env).0 == Primary
    ensures GetDbSpec(e, env).1.devDb == Some(Primary)
  {
  }

  /** The prefix the catalog puts in front of table names: the queried connection object's own. */
  function ConnectionPrefix(conn: Connection, primaryPrefix: string): string {
    match conn
    case Primary => primaryPrefix
    case Dev(_, p) => p
  }

  /** `get_table_prefix`: the configured development prefix in dev mode, else the site's. */
  function ConfiguredPrefix(c: Config, primaryPrefix: string): string {
    if DevModeOn(c) && c.constants.prefix.Some? then c.constants.prefix.value else primaryPrefix
  }

  /** Outside dev mode the queried prefix and the configured prefix are both the site's. */
  lemma PrefixesAgreeOutsideDevMode(e: Engine, env: Env, primaryPrefix: string)
    requires !DevModeOn(LoadConfig(e.config, env.file))
    ensures var (conn, e1) := GetDbSpec(e, env);
            ConnectionPrefix(conn, primaryPrefix) == ConfiguredPrefix(e1.config, primaryPrefix) == primaryPrefix
  {
  }

  /**
   * In dev mode the catalog's table names follow the alternate connection
   * object's own prefix, not the configured development prefix: the two
   * differ whenever the object's prefix is not the configured one.
   */
  lemma CatalogPrefixIsTheConnections(e: Engine, env: Env, primaryPrefix: string, objectPrefix: string)
    requires Connects(e, env) && env.attempt == Connected(objectPrefix)
    ensures var (conn, e1) := GetDbSpec(e, env);
            ConnectionPrefix(conn, primaryPrefix) == objectPrefix
            && (LoadConfig(e.config, env.file).constants.prefix.Some? ==>
                  ConfiguredPrefix(e1.config, primaryPrefix) == LoadConfig(e.config, env.file).constants.prefix.value)
  {
  }

  // ---------------------------------------------------------------
  // Cache duration and entry names
  // ---------------------------------------------------------------

  /** PHP's `(int)` of an option value: a string as `IntOfText` reads it; the digits `absint` saves are their value. */
  function IntCast(o: OptionValue): (n: int)
    ensures o.Str? && AllDigits(o.s) ==> n == DigitsValue(o.s)
  {
    match o
    case Int(n) => n
    case Str(s) => IntOfDigitText(s); IntOfText(s)
    case Payload(_) => 0
  }

  /** A string of plain digits, as `absint` saves the setting, casts to its value. */
  lemma IntOfDigitText(s: string)
    ensures AllDigits(s) ==> IntOfText(s) == DigitsValue(s)
  {
    if AllDigits(s) {
      assert s == [] || (s[0] != '-' && s[0] != '+');
      LeadingDigitsOfDigits(s);
    }
  }

  /** `get_cache_duration`: the stored option as an integer, 3600 when absent. */
  function CacheDuration(t: Table): int {
    IntCast(if DurationOption in t then t[DurationOption] else Int(DefaultDuration))
  }

  /** The transient a report's entry lives in: the group, the key, and `_dev` in dev mode. */
  function EntryName(key: string, dev: bool): string {
    CacheGroup + key + (if dev then DevSuffix else "")
  }

  /** Every entry name starts with the cache group. */
  lemma EntryNameInGroup(key: string, dev: bool)
    ensures StartsWith(EntryName(key, dev), CacheGroup)
    ensures !StartsWithTimeout(EntryName(key, dev))
  {
    var n := EntryName(key, dev);
    assert n[..|CacheGroup|] == CacheGroup;
    assert n[..8][0] == n[0] == 'v';
  }

  /** The duration option is neither row of any transient. */
  lemma DurationOptionIsNotATransientRow(name: string)
    ensures DurationOption != ValueRow(name) && DurationOption != TimeoutRow(name)
  {
    assert ValueRow(name)[0] == '_' && TimeoutRow(name)[0] == '_';
  }

  // ---------------------------------------------------------------
  // The read-through cache
  // ---------------------------------------------------------------

  /** The three result shapes the engine asks the database for. */
  datatype QueryKind = GetVar | GetCol | GetResults

  /** One query sent to the database. */
  datatype Query = Query(conn: Connection, sql: string, kind: QueryKind)

  /** What a cached call returns, the query it ran (if any), and the engine afterwards. */
  datatype Outcome = Outcome(result: Value, ran: Option<Query>, after: Engine)

  function Ran(q: Option<Query>): seq<Query> {
    if q.Some? then [q.value] else []
  }

  /** The entry name a call in `e` under `env` uses for `key`. */
  function EntryIn(e: Engine, key: string, env: Env): string {
    EntryName(key, DevModeOn(LoadConfig(e.config, env.file)))
  }

  /** `get_cached`: answer from the transient when the cache is on and it holds a value, else query and store. */
  function GetCachedSpec(e: Engine, key: string, sql: string, kind: QueryKind, env: Env, exec: Query -> Value): Outcome {
    var (conn, e1) := GetDbSpec(e, env);
    var duration := CacheDuration(e1.table);
    var e2 := e1.(config := LoadConfig(e1.config, env.file));
    var name := EntryName(key, DevModeOn(e2.config));
    var (cached, t) := if duration > 0 then TransientRead(e2.table, name, env.now) else (False, e2.table);
    if cached != False then Outcome(cached, None, e2.(table := t))
    else
      var q := Query(conn, sql, kind);
      var result := exec(q);
      Outcome(result, Some(q), e2.(table := if duration > 0 then TransientWrite(t, name, result, duration, env.now) else t))
  }

  /** A stored value is answered from the cache without touching the database. */
  lemma HitSkipsQuery(e: Engine, key: string, sql: string, kind: QueryKind, env: Env, exec: Query -> Value)
    requires CacheDuration(e.table) > 0
    requires TransientRead(e.table, EntryIn(e, key, env), env.now).0 != False
    ensures var o := GetCachedSpec(e, key, sql, kind, env, exec);
            o.ran.None? && o.result == TransientRead(e.table, EntryIn(e, key, env), env.now).0
  {
  }

  /** With a duration of zero or less the cache is bypassed: the query always runs and nothing is stored. */
  lemma ZeroDurationBypasses(e: Engine, key: string, sql: string, kind: QueryKind, env: Env, exec: Query -> Value)
    requires CacheDuration(e.table) <= 0
    ensures var o := GetCachedSpec(e, key, sql, kind, env, exec);
            var q := Query(GetDbSpec(e, env).0, sql, kind);
            o.ran == Some(q) && o.result == exec(q) && o.after.table == e.table
  {
  }

  /** A call changes no option row other than its own entry's two rows. */
  lemma OnlyOwnEntryChanges(e: Engine, key: string, sql: string, kind: QueryKind, env: Env, exec: Query -> Value, other: string)
    requires other != ValueRow(EntryIn(e, key, env)) && other != TimeoutRow(EntryIn(e, key, env))
    ensures var t := GetCachedSpec(e, key, sql, kind, env, exec).after.table;
            (other in t <==> other in e.table) && (other in t ==> t[other] == e.table[other])
  {
  }

  /** The state a later request starts from: its own static state, the options table left behind. */
  predicate SameMode(e: Engine, env: Env, e': Engine, env': Env) {
    DevModeOn(LoadConfig(e.config, env.file)) == DevModeOn(LoadConfig(e'.config, env'.file))
  }

  /**
   * A call that ran its query stores the result, and a later call for the
   * same key in the same mode, no later than the duration allows, is
   * answered from the cache with that result.
   */
  lemma {:induction false} RepeatWithinDurationHits(
    e: Engine, env: Env, e': Engine, env': Env,
    key: string, sql: string, sql': string, kind: QueryKind, kind': QueryKind, exec: Query -> Value)
    requires CacheDuration(e.table) > 0
    requires var o := GetCachedSpec(e, key, sql, kind, env, exec);
             o.ran.Some? && o.result != False && e'.table == o.after.table
    requires SameMode(e, env, e', env')
    requires env.now <= env'.now <= env.now + CacheDuration(e.table)
    ensures var o := GetCachedSpec(e, key, sql, kind, env, exec);
            var o' := GetCachedSpec(e', key, sql', kind', env', exec);
            o'.ran.None? && o'.result == o.result
  {
    var o := GetCachedSpec(e, key, sql, kind, env, exec);
    var name := EntryIn(e, key, env);
    var d := CacheDuration(e.table);
    EntryNameInGroup(key, DevModeOn(LoadConfig(e.config, env.file)));
    var t := TransientRead(e.table, name, env.now).1;
    assert o.after.table == TransientWrite(t, name, o.result, d, env.now);
    DurationOptionIsNotATransientRow(name);
    assert CacheDuration(e'.table) == d;
    ReadWithinTtl(t, name, o.result, d, env.now, env'.now);
    assert EntryIn(e', key, env') == name;
  }

  /** A later call after the stored duration has run out queries the database again. */
  lemma {:induction false} RepeatAfterDurationQueries(
    e: Engine, env: Env, e': Engine, env': Env,
    key: string, sql: string, sql': string, kind: QueryKind, kind': QueryKind, exec: Query -> Value)
    requires CacheDuration(e.table) > 0
    requires var o := GetCachedSpec(e, key, sql, kind, env, exec);
             o.ran.Some? && e'.table == o.after.table
    requires SameMode(e, env, e', env')
    requires env'.now > env.now + CacheDuration(e.table)
    ensures GetCachedSpec(e', key, sql', kind', env', exec).ran.Some?
  {
    var o := GetCachedSpec(e, key, sql, kind, env, exec);
    var name := EntryIn(e, key, env);
    var d := CacheDuration(e.table);
    EntryNameInGroup(key, DevModeOn(LoadConfig(e.config, env.file)));
    var t := TransientRead(e.table, name, env.now).1;
    DurationOptionIsNotATransientRow(name);
    assert CacheDuration(e'.table) == d;
    ReadAfterTtl(t, name, o.result, d, env.now, env'.now);
    assert EntryIn(e', key, env') == name;
  }

  /** A stored PHP `false` reads back as a miss, so such a query runs again on the next call. */
  lemma {:induction false} StoredFalseQueriesAgain(
    e: Engine, env: Env, e': Engine, env': Env,
    key: string, sql: string, sql': string, kind: QueryKind, kind': QueryKind, exec: Query -> Value)
    requires CacheDuration(e.table) > 0
    requires var o := GetCachedSpec(e, key, sql, kind, env, exec);
             o.ran.Some? && o.result == False && e'.table == o.after.table
    requires SameMode(e, env, e', env')
    requires env.now <= env'.now <= env.now + CacheDuration(e.table)
    ensures GetCachedSpec(e', key, sql', kind', env', exec).ran.Some?
  {
    var o := GetCachedSpec(e, key, sql, kind, env, exec);
    var name := EntryIn(e, key, env);
    var d := CacheDuration(e.table);
    EntryNameInGroup(key, DevModeOn(LoadConfig(e.config, env.file)));
    var t := TransientRead(e.table, name, env.now).1;
    DurationOptionIsNotATransientRow(name);
    assert CacheDuration(e'.table) == d;
    ReadWithinTtl(t, name, o.result, d, env.now, env'.now);
    assert EntryIn(e', key, env') == name;
  }

  // ---------------------------------------------------------------
  // Cache keys of the report catalog
  // ---------------------------------------------------------------

  /** An md5 digest in lower-case hexadecimal. */
  type Digest = s: string | |s| == 32 && forall i | 0 <= i < |s| :: IsHexDigit(s[i])
    witness "00000000000000000000000000000000"

  /**
   * How a report names its entry: a fixed name, a prefix and the digest
   * of the rendered query, or a prefix and its integer parameters.
   */
  datatype KeyRule = Fixed(name: string) | Hashed(prefix: string) | Numbered(prefix: string, params: seq<nat>)

  /** Integer parameters interpolated into a key, joined by `_`. */
  function JoinNumbers(ps: seq<nat>): string
    decreases |ps|
  {
    if ps == [] then ""
    else if |ps| == 1 then NatToString(ps[0])
    else NatToString(ps[0]) + "_" + JoinNumbers(ps[1..])
  }

  function KeyFor(rule: KeyRule, sql: string, md5: string -> Digest): (key: string)
    ensures rule.Fixed? ==> key == rule.name
    ensures !rule.Fixed? ==> StartsWith(key, rule.prefix)
    ensures rule.Hashed? ==> |key| == |rule.prefix| + 32
    ensures rule.Numbered? && rule.params != [] ==> |key| > |rule.prefix| && IsDigit(key[|key| - 1])
  {
    match rule
    case Fixed(name) => name
    case Hashed(prefix) => prefix + md5(sql)
    case Numbered(prefix, params) =>
      var j := JoinNumbers(params);
      assert params != [] ==> |j| > 0 && IsDigit(j[|j| - 1]) by {
        if params != [] {
          JoinNumbersEndsInDigit(params);
        }
      }
      assert (prefix + j)[..|prefix|] == prefix;
      prefix + j
  }

  /** A non-empty parameter list renders to text ending in a digit. */
  lemma {:induction false} JoinNumbersEndsInDigit(ps: seq<nat>)
    requires ps != []
    ensures var j := JoinNumbers(ps); |j| > 0 && IsDigit(j[|j| - 1])
    decreases |ps|
  {
    if |ps| > 1 {
      JoinNumbersEndsInDigit(ps[1..]);
    }
  }

  /** The text of `ps` begins with the first parameter, then either ends or continues with `_`. */
  lemma JoinNumbersHead(ps: seq<nat>)
    requires ps != []
    ensures var j, h := JoinNumbers(ps), NatToString(ps[0]);
            |h| <= |j| && j[..|h|] == h
            && (|ps| == 1 ==> |j| == |h|)
            && (|ps| > 1 ==> |j| > |h| && j[|h|] == '_' && j[|h| + 1..] == JoinNumbers(ps[1..]))
  {
    var j, h := JoinNumbers(ps), NatToString(ps[0]);
    if |ps| > 1 {
      assert j == h + "_" + JoinNumbers(ps[1..]);
      assert j[..|h|] == h;
      assert j[|h| + 1..] == JoinNumbers(ps[1..]);
    }
  }

  /**
   * Distinct parameter lists give distinct keys, so two calls with
   * different look-ahead days or limits never share an entry.
   */
  lemma {:induction false} JoinNumbersInjective(ps: seq<nat>, qs: seq<nat>)
    requires JoinNumbers(ps) == JoinNumbers(qs)
    ensures ps == qs
    decreases |ps|
  {
    if ps == [] || qs == [] {
      if ps != [] { JoinNumbersEndsInDigit(ps); }
      if qs != [] { JoinNumbersEndsInDigit(qs); }
    } else {
      var j := JoinNumbers(ps);
      var a, b := NatToString(ps[0]), NatToString(qs[0]);
      JoinNumbersHead(ps);
      JoinNumbersHead(qs);
      assert |a| == |b|;
      assert a == j[..|a|] == b;
      NatToStringInjective(ps[0], qs[0]);
      if |ps| > 1 && |qs| > 1 {
        JoinNumbersInjective(ps[1..], qs[1..]);
        assert ps == [ps[0]] + ps[1..] && qs == [qs[0]] + qs[1..];
      }
    }
  }

  /** Two numbered keys with the same prefix coincide only for the same parameters. */
  lemma NumberedKeysDistinct(prefix: string, ps: seq<nat>, qs: seq<nat>, sql: string, sql': string, md5: string -> Digest)
    requires ps != qs
    ensures KeyFor(Numbered(prefix, ps), sql, md5) != KeyFor(Numbered(prefix, qs), sql', md5)
  {
    if KeyFor(Numbered(prefix, ps), sql, md5) == KeyFor(Numbered(prefix, qs), sql', md5) {
      var k := prefix + JoinNumbers(ps);
      assert k[|prefix|..] == JoinNumbers(ps);
      assert (prefix + JoinNumbers(qs))[|prefix|..] == JoinNumbers(qs);
      JoinNumbersInjective(ps, qs);
    }
  }

  /** The catalog's fixed entry names. */
  const FixedKeys: seq<string> := [
    "customers_yoy", "new_mrr_current", "churned_mrr_current", "existing_mrr_current",
    "clv_distribution", "rfm_segments", "segment_performance", "product_lifecycle_stages",
    "revenue_concentration", "ltv_cac_ratio", "revenue_run_rate",
    "financial_health_indicators", "seasonal_patterns"]

  /** The thirteen fixed names are distinct, so no two fixed reports share an entry. */
  lemma FixedKeysDistinct()
    ensures |FixedKeys| == 13
    ensures forall i, j | 0 <= i < j < |FixedKeys| :: FixedKeys[i] != FixedKeys[j]
  {
  }

  /** A rule of the shape the catalog uses. */
  predicate CatalogRule(rule: KeyRule) {
    match rule
    case Fixed(name) => name in FixedKeys
    case Hashed(_) => true
    case Numbered(_, params) => params != []
  }

  /** No catalog key ends in `v`, so none can end in the dev suffix. */
  lemma {:induction false} CatalogKeyLastChar(rule: KeyRule, sql: string, md5: string -> Digest)
    requires CatalogRule(rule)
    ensures var k := KeyFor(rule, sql, md5); |k| > 0 && k[|k| - 1] != 'v'
  {
    match rule
    case Fixed(name) =>
      forall k | k in FixedKeys
        ensures |k| > 0 && k[|k| - 1] != 'v'
      {
      }
    case Hashed(prefix) =>
      var d := md5(sql);
      assert (prefix + d)[|prefix + d| - 1] == d[31];
    case Numbered(prefix, params) =>
      JoinNumbersEndsInDigit(params);
      var j := JoinNumbers(params);
      assert (prefix + j)[|prefix + j| - 1] == j[|j| - 1];
  }

  /**
   * A dev-mode entry and a site entry never share a transient, whichever
   * catalog reports and queries produced them.
   */
  lemma DevAndSiteEntriesDisjoint(r1: KeyRule, sql1: string, r2: KeyRule, sql2: string, md5: string -> Digest)
    requires CatalogRule(r1) && CatalogRule(r2)
    ensures EntryName(KeyFor(r1, sql1, md5), true) != EntryName(KeyFor(r2, sql2, md5), false)
  {
    var k1, k2 := KeyFor(r1, sql1, md5), KeyFor(r2, sql2, md5);
    CatalogKeyLastChar(r2, sql2, md5);
    var n1, n2 := EntryName(k1, true), EntryName(k2, false);
    assert n1[|n1| - 1] == 'v';
    assert n2[|n2| - 1] == k2[|k2| - 1];
  }

  /** Hashed keys: identical query text gives the identical entry. */
  lemma SameQuerySameKey(prefix: string, sql: string, md5: string -> Digest, dev: bool)
    ensures EntryName(KeyFor(Hashed(prefix), sql, md5), dev) == EntryName(prefix + md5(sql), dev)
  {
  }

  // ---------------------------------------------------------------
  // Shaping of results
  // ---------------------------------------------------------------

  /** A column of a result row; a missing column reads as null. */
  function Column(row: Row, name: string): Cell {
    if name in row then row[name] else Null
  }

  /** The first row of a `get_results` answer, when there is one. */
  function FirstRow(v: Value): Option<Row> {
    if v.Rows? && |v.rows| > 0 then Some(v.rows[0]) else None
  }

  /** Truncation toward zero, PHP's `(int)` of a float. */
  function Truncate(x: real): (n: int)
    ensures -1.0 < x - n as real < 1.0
    ensures x >= 0.0 ==> 0 <= n && n as real <= x
    ensures x < 0.0 ==> n <= 0 && x <= n as real
  {
    if x >= 0.0 then x.Floor else -((-x).Floor)
  }

  /** A numeric string that starts with a minus sign. */
  predicate Negative(s: string) {
    s != [] && s[0] == '-'
  }

  /** A numeric string without its leading sign, if it has one. */
  function Unsigned(s: string): string {
    if s != [] && (s[0] == '-' || s[0] == '+') then s[1..] else s
  }

  /** PHP's `(float)` of a string: an optional sign, then the number its decimal prefix spells. */
  function FloatOfText(s: string): (r: real)
    ensures Negative(s) ==> r <= 0.0
    ensures !Negative(s) ==> r >= 0.0
  {
    if Negative(s) then -DecimalValue(Unsigned(s)) else DecimalValue(Unsigned(s))
  }

  /** PHP's `(int)` of a string: an optional sign, then its leading digits. */
  function IntOfText(s: string): (n: int)
    ensures n == Truncate(FloatOfText(s))
  {
    var d: int := DigitsValue(LeadingDigits(Unsigned(s)));
    if Negative(s) then -d else d
  }

  /** PHP's `(int)` of a column value: what `(float)` reads, truncated toward zero. */
  function IntOfCell(c: Cell): (n: int)
    ensures n == Truncate(FloatOfCell(c))
  {
    match c
    case Null => 0
    case Number(n) => Truncate(n)
    case Text(s) => IntOfText(s)
  }

  /** PHP's `(float)` of a column value; a string within one of its `(int)` reading. */
  function FloatOfCell(c: Cell): (r: real)
    ensures c.Null? ==> r == 0.0
    ensures c.Text? ==> -1.0 < r - IntOfText(c.s) as real < 1.0
  {
    match c
    case Null => 0.0
    case Number(n) => n
    case Text(s) => FloatOfText(s)
  }

  /** A decimal in the text wpdb returns, with or without a minus sign, reads back as its value. */
  lemma DecimalTextReadsBack(whole: string, frac: string)
    requires AllDigits(whole) && AllDigits(frac)
    ensures FloatOfCell(Text(whole + "." + frac)) == DigitsValue(whole) as real + Fraction(frac)
    ensures FloatOfCell(Text("-" + whole + "." + frac)) == -(DigitsValue(whole) as real + Fraction(frac))
  {
    var s := whole + "." + frac;
    UnsignedDecimal(whole, frac);
    assert "-" + whole + "." + frac == "-" + s;
    assert Negative("-" + s) && Unsigned("-" + s) == s;
  }

  /** Digits, a point and digits carry no sign. */
  lemma UnsignedDecimal(whole: string, frac: string)
    requires AllDigits(whole) && AllDigits(frac)
    ensures var s := whole + "." + frac;
            !Negative(s) && Unsigned(s) == s && DecimalValue(s) == DigitsValue(whole) as real + Fraction(frac)
  {
    var s := whole + "." + frac;
    DecimalOfPoint(whole, frac);
    assert s[0] == if whole == [] then '.' else whole[0];
  }

  /** Worked figures: `(float) "41.67"` is 41.67, and MRR answers of "41.67", "100.50" and "0.99" net 141.18. */
  lemma DecimalCastExamples(newText: string, existingText: string, churnedText: string)
    requires newText == "41.67" && existingText == "100.50" && churnedText == "0.99"
    ensures FloatOfCell(Text(newText)) == 41.67
    ensures MrrOf(Var(Text(newText)), Var(Text(existingText)), Var(Text(churnedText))).netMrr == 141.18
  {
    FigureTexts();
    TwoPlaces(newText, "41", "67", 41, 67);
    TwoPlaces(existingText, "100", "50", 100, 50);
    TwoPlaces(churnedText, "0", "99", 0, 99);
  }

  /** The texts of the worked figures, split at the point, and the values of their digits. */
  lemma FigureTexts()
    ensures "41.67" == "41" + "." + "67" && "100.50" == "100" + "." + "50" && "0.99" == "0" + "." + "99"
    ensures AllDigits("41") && AllDigits("67") && AllDigits("100") && AllDigits("50") && AllDigits("0") && AllDigits("99")
    ensures DigitsValue("41") == 41 && DigitsValue("67") == 67 && DigitsValue("100") == 100
    ensures DigitsValue("50") == 50 && DigitsValue("0") == 0 && DigitsValue("99") == 99
  {
  }

  /** A figure with two decimal places reads as its whole part plus hundredths. */
  lemma TwoPlaces(s: string, whole: string, frac: string, w: nat, f: nat)
    requires AllDigits(whole) && AllDigits(frac) && |frac| == 2
    requires s == whole + "." + frac && DigitsValue(whole) == w && DigitsValue(frac) == f
    ensures FloatOfCell(Text(s)) == w as real + f as real / 100.0
  {
    DecimalTextReadsBack(whole, frac);
    Hundredths(frac, f);
  }

  /** Two digits after the point are hundredths. */
  lemma Hundredths(frac: string, f: nat)
    requires AllDigits(frac) && |frac| == 2 && DigitsValue(frac) == f
    ensures Fraction(frac) == f as real / 100.0
  {
    assert Pow10(2) == 100;
  }

  /** PHP's `(float)` of a `get_var` answer. */
  function FloatOfValue(v: Value): real {
    if v.Var? then FloatOfCell(v.cell) else 0.0
  }

  datatype Yoy = Yoy(currentYear: int, lastYear: int, change: real)

  /** Year-over-year new customers: zeros without a row, else the percent change against last year. */
  function YoyChange(v: Value): (r: Yoy)
    ensures FirstRow(v).None? ==> r == Yoy(0, 0, 0.0)
    ensures FirstRow(v).Some? ==> r.currentYear == IntOfCell(Column(FirstRow(v).value, "current_year"))
                                  && r.lastYear == IntOfCell(Column(FirstRow(v).value, "last_year"))
    ensures r.change == PercentChange(r.currentYear, r.lastYear)
    ensures r.change > 0.0 <==> 0 < r.lastYear < r.currentYear
    ensures r.change < 0.0 <==> 0 < r.lastYear && r.currentYear < r.lastYear
    ensures r.currentYear >= 0 ==> r.change >= -100.0
  {
    match FirstRow(v)
    case None => Yoy(0, 0, 0.0)
    case Some(row) =>
      var current := IntOfCell(Column(row, "current_year"));
      var last := IntOfCell(Column(row, "last_year"));
      Yoy(current, last, PercentChange(current, last))
  }

  /** `(current - last) / last * 100` when `last` is positive, else 0. */
  function PercentChange(current: int, last: int): (c: real)
    ensures last > 0 ==> c * last as real == (current - last) as real * 100.0
    ensures last <= 0 ==> c == 0.0
    ensures c > 0.0 <==> 0 < last < current
    ensures c < 0.0 <==> 0 < last && current < last
    ensures current >= 0 ==> c >= -100.0
  {
    if last > 0 then
      var q := (current - last) as real / last as real;
      QuotientTimesDivisor((current - last) as real, last as real);
      assert current >= 0 ==> q >= -1.0 by {
        if current >= 0 {
          QuotientAtLeastMinusOne((current - last) as real, last as real);
        }
      }
      q * 100.0
    else 0.0
  }

  /** Division by a positive number is undone by multiplying back. */
  lemma QuotientTimesDivisor(a: real, b: real)
    requires b > 0.0
    ensures a / b * b == a
  {
  }

  /** A quotient by a positive number of something no lower than its negation is at least -1. */
  lemma QuotientAtLeastMinusOne(a: real, b: real)
    requires b > 0.0 && a >= -b
    ensures a / b >= -1.0
  {
    var q := a / b;
    assert q * b == a;
    assert (q + 1.0) * b == a + b;
  }

  /** Worked figures: 10 last year and 15 this year is +50%; nothing last year reports 0. */
  lemma YoyExamples()
    ensures PercentChange(15, 10) == 50.0
    ensures PercentChange(5, 0) == 0.0
    ensures PercentChange(5, 10) == -50.0
  {
  }

  datatype Renewals = Renewals(count: int, estimatedRevenue: real)

  /** Upcoming renewals: zeros without a row, else the count and revenue columns cast. */
  function UpcomingRenewals(v: Value): (r: Renewals)
    ensures FirstRow(v).None? ==> r == Renewals(0, 0.0)
    ensures FirstRow(v).Some? ==> r.count == IntOfCell(Column(FirstRow(v).value, "count"))
    ensures FirstRow(v).Some? ==> r.estimatedRevenue == FloatOfCell(Column(FirstRow(v).value, "estimated_revenue"))
    ensures FirstRow(v).Some? && Column(FirstRow(v).value, "count").Number? && Column(FirstRow(v).value, "count").n >= 0.0
            ==> r.count >= 0
  {
    match FirstRow(v)
    case None => Renewals(0, 0.0)
    case Some(row) => Renewals(IntOfCell(Column(row, "count")), FloatOfCell(Column(row, "estimated_revenue")))
  }

  const FunnelFields: seq<string> := [
    "total_signups", "made_purchase", "repeat_purchase", "became_subscriber",
    "purchase_rate", "repeat_rate", "subscription_rate"]

  /** The funnel answer without data: every funnel field zero. */
  const FunnelDefault: Row := map f | f in FunnelFields :: Number(0.0)

  /** The activation funnel: the first row as returned, else the all-zero funnel. */
  function ActivationFunnel(v: Value): (r: Row)
    ensures FirstRow(v).Some? ==> r == v.rows[0]
    ensures FirstRow(v).None? ==> r.Keys == (set f | f in FunnelFields) && forall f | f in r :: r[f] == Number(0.0)
  {
    match FirstRow(v)
    case None => FunnelDefault
    case Some(row) => row
  }

  datatype Mrr = Mrr(newMrr: real, existingMrr: real, churnedMrr: real, netMrr: real)

  /** The current month's MRR breakdown: three figures and net = new + existing - churned. */
  function MrrOf(newV: Value, existingV: Value, churnedV: Value): (r: Mrr)
    ensures r.newMrr == FloatOfValue(newV) && r.existingMrr == FloatOfValue(existingV)
    ensures r.churnedMrr == FloatOfValue(churnedV)
    ensures r.netMrr == r.newMrr + r.existingMrr - r.churnedMrr
    ensures r.netMrr <= r.newMrr + r.existingMrr <==> r.churnedMrr >= 0.0
  {
    var n, x, c := FloatOfValue(newV), FloatOfValue(existingV), FloatOfValue(churnedV);
    Mrr(n, x, c, n + x - c)
  }

  /** The RFM segments, first matching rule wins. */
  datatype Segment = Champions | LoyalCustomers | BigSpenders | RecentCustomers | AtRisk | Lost | Potential

  /** The SQL `CASE` of the segment report over recency, frequency and monetary scores. */
  function SqlSegment(r: int, f: int, m: int): (s: Segment)
    ensures s == Champions <==> r + f + m >= 13
    ensures s == LoyalCustomers ==> r + f + m >= 10 && r >= 4
    ensures s == BigSpenders ==> m >= 4 && r + f >= 6
    ensures s == RecentCustomers ==> r >= 4 && f <= 2
    ensures s == AtRisk ==> f >= 4 && r <= 2
    ensures s == Lost ==> r <= 2 && f <= 2
    ensures s == Potential ==> r + f + m < 13 && !(r + f + m >= 10 && r >= 4) && !(m >= 4 && r + f >= 6)
                               && !(r >= 4 && f <= 2) && !(f >= 4 && r <= 2) && !(r <= 2 && f <= 2)
  {
    if r + f + m >= 13 then Champions
    else if r + f + m >= 10 && r >= 4 then LoyalCustomers
    else if m >= 4 && r + f >= 6 then BigSpenders
    else if r >= 4 && f <= 2 then RecentCustomers
    else if f >= 4 && r <= 2 then AtRisk
    else if r <= 2 && f <= 2 then Lost
    else Potential
  }

  /** Scores of 1 to 5: a champion scores at least 3 on every axis, a lost customer at most 2 on recency and frequency. */
  lemma SegmentBounds(r: int, f: int, m: int)
    requires 1 <= r <= 5 && 1 <= f <= 5 && 1 <= m <= 5
    ensures SqlSegment(r, f, m) == Champions ==> r >= 3 && f >= 3 && m >= 3
    ensures SqlSegment(r, f, m) == Lost ==> r <= 2 && f <= 2 && r + f + m <= 9
    ensures SqlSegment(r, f, m) == Potential ==> r + f + m < 13
  {
  }

  // ---------------------------------------------------------------
  // Date-range filters
  // ---------------------------------------------------------------

  /**
   * A date-range report's filter: the prepared fragments for the lower and
   * upper bound, and whether a bound is cut to its `YYYY-MM` month first.
   */
  datatype DateFilter = DateFilter(lowerFormat: string, upperFormat: string, monthOnly: bool)

  function Bound(filter: DateFilter, date: string): string {
    if filter.monthOnly && |date| > 7 then date[..7] else date
  }

  /** The `WHERE` fragments a date-range report appends, one per non-empty bound. */
  function WhereClause(filter: DateFilter, start: Option<string>, end: Option<string>,
                       prepare: (string, string) -> string): (w: string)
    ensures EmptyString(start) && EmptyString(end) ==> w == ""
  {
    (if EmptyString(start) then "" else prepare(filter.lowerFormat, Bound(filter, start.value)))
    + (if EmptyString(end) then "" else prepare(filter.upperFormat, Bound(filter, end.value)))
  }

  /** The query text of a date-range report for each table prefix. */
  function DateRangeSql(template: (string, string) -> string, filter: DateFilter,
                        start: Option<string>, end: Option<string>,
                        prepare: (string, string) -> string): string -> string
  {
    p => template(p, WhereClause(filter, start, end, prepare))
  }

  /** Absent, `""` and `"0"` bounds all give the same query, hence the same entry. */
  lemma EmptyBoundsShareEntry(template: (string, string) -> string, filter: DateFilter,
                              s1: Option<string>, e1: Option<string>, s2: Option<string>, e2: Option<string>,
                              prepare: (string, string) -> string, p: string)
    requires EmptyString(s1) && EmptyString(e1) && EmptyString(s2) && EmptyString(e2)
    ensures DateRangeSql(template, filter, s1, e1, prepare)(p) == DateRangeSql(template, filter, s2, e2, prepare)(p)
  {
    assert WhereClause(filter, s1, e1, prepare) == "" == WhereClause(filter, s2, e2, prepare);
  }

  /** The full spec of a catalog report: resolve the connection, render the query, key it, answer it. */
  function ReportSpec(e: Engine, primaryPrefix: string, rule: KeyRule, render: string -> string,
                      kind: QueryKind, env: Env, exec: Query -> Value, md5: string -> Digest): Outcome
  {
    var (conn, e1) := GetDbSpec(e, env);
    var sql := render(ConnectionPrefix(conn, primaryPrefix));
    GetCachedSpec(e1, KeyFor(rule, sql, md5), sql, kind, env, exec)
  }

  /** The probe that asks whether the licensing table exists. */
  function LicenseProbe(conn: Connection, primaryPrefix: string): Query {
    Query(conn, "SHOW TABLES LIKE '" + ConnectionPrefix(conn, primaryPrefix) + "edd_licenses'", GetVar)
  }

  // ---------------------------------------------------------------
  // The engine
  // ---------------------------------------------------------------

  /**
   * The engine's static state for one request over the site's options
   * table.  `log` records every query sent to a database, in order.
   */
  class ReportQuery {
    var config: Config
    var devDb: Option<Connection>
    const options: Options
    /** `$wpdb->prefix` of the site's own connection. */
    const primaryPrefix: string
    ghost var log: seq<Query>

    ghost function State(): Engine
      reads this, options
    {
      Engine(config, devDb, options.table)
    }

    /** A fresh request: nothing loaded, no alternate connection, `predefined` constants from elsewhere. */
    constructor (options: Options, primaryPrefix: string, predefined: DevConstants)
      ensures this.options == options && this.primaryPrefix == primaryPrefix
      ensures config == Config(false, predefined) && devDb == None && log == []
    {
      this.options := options;
      this.primaryPrefix := primaryPrefix;
      config := Config(false, predefined);
      devDb := None;
      log := [];
    }

    /** `is_dev_mode`: load the configuration file if present and not yet loaded, then read the flag. */
    method IsDevMode(file: ConfigFile) returns (dev: bool)
      modifies this
      ensures config == LoadConfig(old(config), file) && dev == DevModeOn(config)
      ensures devDb == old(devDb) && log == old(log)
    {
      if file.Present? && !config.loaded {
        config := LoadConfig(config, file);
      }
      dev := config.constants.devMode == Some(true);
    }

    /** `get_db`. */
    method GetDb(env: Env) returns (conn: Connection)
      modifies this
      ensures (conn, State()) == GetDbSpec(old(State()), env)
      ensures log == old(log)
    {
      var dev := IsDevMode(env.file);
      if !dev {
        return Primary;
      }
      if devDb.None? {
        var creds := DevCredentials(config.constants);
        match env.attempt {
          case Refused => devDb := Some(Primary);
          case Connected(p) => devDb := Some(Dev(creds, p));
        }
      }
      conn := devDb.value;
    }

    /** `get_cache_duration`. */
    method GetCacheDuration() returns (d: int)
      ensures d == CacheDuration(options.table)
      ensures DurationOption !in options.table ==> d == DefaultDuration
    {
      var o := options.GetOption(DurationOption, Int(DefaultDuration));
      d := IntCast(o);
    }

    /** `get_cached`. */
    method GetCached(key: string, sql: string, kind: QueryKind, env: Env, exec: Query -> Value) returns (r: Value)
      modifies this, options
      ensures var o := GetCachedSpec(old(State()), key, sql, kind, env, exec);
              r == o.result && State() == o.after && log == old(log) + Ran(o.ran)
    {
      var conn := GetDb(env);
      var duration := GetCacheDuration();
      var dev := IsDevMode(env.file);
      var name := CacheGroup + key + (if dev then DevSuffix else "");
      if duration > 0 {
        var cached := options.GetTransient(name, env.now);
        if cached != False {
          return cached;
        }
      }
      var q := Query(conn, sql, kind);
      r := exec(q);
      log := log + [q];
      if duration > 0 {
        options.SetTransient(name, r, duration, env.now);
      }
    }

    /** `get_table_prefix`. */
    method TablePrefix(file: ConfigFile) returns (p: string)
      modifies this
      ensures config == LoadConfig(old(config), file) && devDb == old(devDb) && log == old(log)
      ensures p == ConfiguredPrefix(config, primaryPrefix)
    {
      var dev := IsDevMode(file);
      if dev && config.constants.prefix.Some? {
        return config.constants.prefix.value;
      }
      p := primaryPrefix;
    }

    /** A catalog report: resolve the connection, render the query with its prefix, key it, answer it. */
    method Report(rule: KeyRule, render: string -> string, kind: QueryKind, env: Env,
                  exec: Query -> Value, md5: string -> Digest) returns (r: Value)
      modifies this, options
      ensures var o := ReportSpec(old(State()), primaryPrefix, rule, render, kind, env, exec, md5);
              r == o.result && State() == o.after && log == old(log) + Ran(o.ran)
    {
      var conn := GetDb(env);
      var sql := render(ConnectionPrefix(conn, primaryPrefix));
      r := GetCached(KeyFor(rule, sql, md5), sql, kind, env, exec);
    }

    /** A date-range report keyed by its prefix and the digest of its query. */
    method DateRangeReport(keyPrefix: string, template: (string, string) -> string, filter: DateFilter,
                           start: Option<string>, end: Option<string>, prepare: (string, string) -> string,
                           env: Env, exec: Query -> Value, md5: string -> Digest) returns (r: Value)
      modifies this, options
      ensures var o := ReportSpec(old(State()), primaryPrefix, Hashed(keyPrefix),
                                  DateRangeSql(template, filter, start, end, prepare), GetResults, env, exec, md5);
              r == o.result && State() == o.after && log == old(log) + Ran(o.ran)
    {
      r := Report(Hashed(keyPrefix), DateRangeSql(template, filter, start, end, prepare), GetResults, env, exec, md5);
    }

    /** `get_new_customers_yoy_change`. */
    method NewCustomersYoyChange(render: string -> string, env: Env, exec: Query -> Value, md5: string -> Digest)
      returns (r: Yoy)
      modifies this, options
      ensures var o := ReportSpec(old(State()), primaryPrefix, Fixed("customers_yoy"), render, GetResults, env, exec, md5);
              r == YoyChange(o.result) && State() == o.after && log == old(log) + Ran(o.ran)
    {
      ghost var e0 := State();
      var _ := GetDb(env);
      GetDbStable(e0, env);
      var v := Report(Fixed("customers_yoy"), render, GetResults, env, exec, md5);
      r := YoyChange(v);
    }

    /** `get_upcoming_renewals`, keyed by the look-ahead in days. */
    method UpcomingRenewalsReport(days: nat, render: string -> string, env: Env, exec: Query -> Value, md5: string -> Digest)
      returns (r: Renewals)
      modifies this, options
      ensures var o := ReportSpec(old(State()), primaryPrefix, Numbered("upcoming_renewals_", [days]), render, GetResults, env, exec, md5);
              r == UpcomingRenewals(o.result) && State() == o.after && log == old(log) + Ran(o.ran)
    {
      ghost var e0 := State();
      var _ := GetDb(env);
      GetDbStable(e0, env);
      var v := Report(Numbered("upcoming_renewals_", [days]), render, GetResults, env, exec, md5);
      r := UpcomingRenewals(v);
    }

    /** `get_customer_activation_funnel`. */
    method ActivationFunnelReport(template: (string, string) -> string, start: Option<string>, end: Option<string>,
                                  prepare: (string, string) -> string, env: Env, exec: Query -> Value, md5: string -> Digest)
      returns (r: Row)
      modifies this, options
      ensures var o := ReportSpec(old(State()), primaryPrefix, Hashed("activation_funnel_"),
                                  DateRangeSql(template, DateFilter(" AND c.date_created >= %s", " AND c.date_created <= %s", false), start, end, prepare),
                                  GetResults, env, exec, md5);
              r == ActivationFunnel(o.result) && State() == o.after && log == old(log) + Ran(o.ran)
    {
      var v := DateRangeReport("activation_funnel_", template,
                               DateFilter(" AND c.date_created >= %s", " AND c.date_created <= %s", false),
                               start, end, prepare, env, exec, md5);
      r := ActivationFunnel(v);
    }

    /** `get_current_mrr_breakdown`: three cached single-value queries. */
    method CurrentMrrBreakdown(renderNew: string -> string, renderChurned: string -> string, renderExisting: string -> string,
                               env: Env, exec: Query -> Value, md5: string -> Digest)
      returns (r: Mrr)
      modifies this, options
      ensures var o1 := ReportSpec(old(State()), primaryPrefix, Fixed("new_mrr_current"), renderNew, GetVar, env, exec, md5);
              var o2 := ReportSpec(o1.after, primaryPrefix, Fixed("churned_mrr_current"), renderChurned, GetVar, env, exec, md5);
              var o3 := ReportSpec(o2.after, primaryPrefix, Fixed("existing_mrr_current"), renderExisting, GetVar, env, exec, md5);
              r == MrrOf(o1.result, o3.result, o2.result) && State() == o3.after
              && log == old(log) + Ran(o1.ran) + Ran(o2.ran) + Ran(o3.ran)
    {
      ghost var e0 := State();
      var _ := GetDb(env);
      GetDbStable(e0, env);
      var newMrr := Report(Fixed("new_mrr_current"), renderNew, GetVar, env, exec, md5);
      var churned := Report(Fixed("churned_mrr_current"), renderChurned, GetVar, env, exec, md5);
      var existing := Report(Fixed("existing_mrr_current"), renderExisting, GetVar, env, exec, md5);
      r := MrrOf(newMrr, existing, churned);
    }

    /**
     * `get_top_licenses`: an empty answer, uncached, when the licensing
     * table is missing; otherwise the report keyed by its limit.
     */
    method TopLicenses(limit: nat, render: string -> string, env: Env, exec: Query -> Value, md5: string -> Digest)
      returns (r: Value)
      modifies this, options
      ensures var (conn, e1) := GetDbSpec(old(State()), env);
              var probe := LicenseProbe(conn, primaryPrefix);
              if exec(probe) != Var(Text(ConnectionPrefix(conn, primaryPrefix) + "edd_licenses")) then
                r == Rows([]) && State() == e1 && log == old(log) + [probe]
              else
                var o := ReportSpec(e1, primaryPrefix, Numbered("top_licenses_", [limit]), render, GetResults, env, exec, md5);
                r == o.result && State() == o.after && log == old(log) + [probe] + Ran(o.ran)
    {
      var conn := GetDb(env);
      var table := ConnectionPrefix(conn, primaryPrefix) + "edd_licenses";
      var probe := LicenseProbe(conn, primaryPrefix);
      var found := exec(probe);
      log := log + [probe];
      if found != Var(Text(table)) {
        return Rows([]);
      }
      r := Report(Numbered("top_licenses_", [limit]), render, GetResults, env, exec, md5);
    }
  }
}
