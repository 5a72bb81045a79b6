/** Model of the configuration resolution of b2accessdeprovisioning/monitor.py:
    the module-level defaults (lines 16-27), the log level handed to
    `logging.basicConfig` (line 30), the values read once at start-up
    (lines 31-49), and the `safeget(...) or DEFAULT` lookups that the helpers
    repeat on every call (lines 77, 90, 115 and 120-121), resolved here once. */
module Settings {
  import opened Wrappers
  import opened Util

  const DefaultApiPath := Str("rest-admin")
  const DefaultApiVersion := Str("v1")
  const DefaultApiCertVerify := Bool(true)
  const DefaultAttrWhitelist := List([])
  const DefaultRetentionPeriod := Int(365)
  const DefaultEmailHost := Str("localhost")
  const DefaultEmailPort := Int(25)
  const DefaultEmailUseTls := Bool(false)
  const DefaultEmailSubject := Str("Deprovisioned B2ACCESS accounts")
  const DefaultEmailIntroText := Str("See attachment for details of deprovisioned B2ACCESS accounts.\n\nNote: This is an automated email, please don't reply.")
  const DefaultDryRun := Bool(false)
  const DefaultLogLevel := Str("WARNING")

  /** The level names the logging library registers, with their numbers. */
  const LevelNumbers: map<string, int> := map[
    "CRITICAL" := 50, "FATAL" := 50, "ERROR" := 40, "WARN" := 30, "WARNING" := 30,
    "INFO" := 20, "DEBUG" := 10, "NOTSET" := 0]

  /** The level numbers the logging library registers, with their names. */
  const LevelNames: map<int, string> := map[
    50 := "CRITICAL", 40 := "ERROR", 30 := "WARNING", 20 := "INFO", 10 := "DEBUG", 0 := "NOTSET"]

  /** Why start-up stops: a required key cannot be indexed (or `safeget` meets a
      non-mapping), or `basicConfig` refuses the level it is given. */
  datatype StartupError = ConfigKey(cause: IndexError) | UnknownLogLevel(level: Value)

  function ConfigKeyError<T>(r: Result<T, IndexError>): (q: Result<T, StartupError>)
    ensures q.Ok? <==> r.Ok?
    ensures q.Ok? ==> q.value == r.value
  {
    match r
    case Ok(v) => Ok(v)
    case Err(e) => Err(ConfigKey(e))
  }

  /** `logging.getLevelName(v)`: a registered number gives its name, a registered
      name its number; a bool counts as 0 or 1. Anything else gives the string
      "Level <v>", which is never a registered name, and an unhashable list or
      dictionary raises; both are `None` here. */
  function GetLevelName(v: Value): Option<Value> {
    match v
    case Int(i) => if i in LevelNames then Some(Str(LevelNames[i])) else None
    case Bool(b) => if !b then Some(Str(LevelNames[0])) else None
    case Str(n) => if n in LevelNumbers then Some(Int(LevelNumbers[n])) else None
    case _ => None
  }

  /** Line 30: the level `basicConfig` sets from the configured `log_level` `v`,
      that is `getLevelName(v) or 'WARNING'`, checked against the registered levels. */
  function BasicConfigLevel(v: Value): (r: Result<int, StartupError>)
    ensures r.Ok? ==> r.value in LevelNames
  {
    match GetLevelName(v)
    case None => Err(UnknownLogLevel(v))
    case Some(name) =>
      match Or(name, DefaultLogLevel)
      case Int(i) => Ok(i)
      case Str(n) => Ok(LevelNumbers[n])
      case _ => Err(UnknownLogLevel(v))
  }

  /** The arguments the `UnityApiClient` is built with (lines 32-37). */
  datatype ApiClient = ApiClient(
    baseUrl: Value,
    path: Value,
    version: Value,
    user: Value,
    password: Value,
    certVerify: Value)

  /** The arguments the `MailNotifier` is built with (lines 39-44). */
  datatype Notifier = Notifier(
    host: Value,
    port: Value,
    useTls: Value,
    user: Value,
    password: Value)

  /** Every configuration value the monitor uses, after defaulting. */
  datatype Config = Config(
    logLevel: int,
    api: ApiClient,
    notifier: Notifier,
    dryRun: bool,
    emailFrom: Value,
    emailTo: Value,
    attrWhitelist: Value,
    retentionPeriod: Value,
    emailSubject: Value,
    emailIntroText: Value)

  /** Resolve the configuration `cfg` in the order the source reads it: first the
      log level handed to `basicConfig`, then the other settings. The log level
      has no usable default: the `or` of line 30 applies to the answer of
      `getLevelName`, which is never falsy for an unregistered level. Any failure
      aborts start-up. */
  function Load(cfg: Value): (r: Result<Config, StartupError>)
    ensures r.Ok? ==> Lookup(cfg, ["log_level"]).Ok? &&
                      BasicConfigLevel(Lookup(cfg, ["log_level"]).value) == Ok(r.value.logLevel)
    ensures r.Ok? ==> ReadSettings(cfg, r.value.logLevel) == Ok(r.value)
    ensures r.Ok? ==> Truthy(r.value.api.certVerify)
    ensures r.Ok? ==> Truthy(r.value.api.path) && Truthy(r.value.api.version)
    ensures r.Ok? ==> Truthy(r.value.notifier.host) && Truthy(r.value.notifier.port)
    ensures r.Ok? ==> Truthy(r.value.retentionPeriod)
    ensures r.Ok? ==> Truthy(r.value.emailSubject) && Truthy(r.value.emailIntroText)
    ensures r.Ok? ==> Lookup(cfg, ["dry_run"]).Ok? &&
                      (r.value.dryRun <==> Truthy(Lookup(cfg, ["dry_run"]).value))
  {
    var configuredLevel :- ConfigKeyError(Lookup(cfg, ["log_level"]));
    var level :- BasicConfigLevel(configuredLevel);
    ConfigKeyError(ReadSettings(cfg, level))
  }

  /** Lines 32-37: `base_url`, `user` and `password` are required, the others
      fall back to their defaults when absent or falsy. */
  function ReadApiClient(cfg: Value): (r: Result<ApiClient, IndexError>)
    ensures r.Ok? ==> Lookup(cfg, ["api", "path"]).Ok? &&
                      r.value.path == Or(Lookup(cfg, ["api", "path"]).value, DefaultApiPath)
    ensures r.Ok? ==> Lookup(cfg, ["api", "version"]).Ok? &&
                      r.value.version == Or(Lookup(cfg, ["api", "version"]).value, DefaultApiVersion)
    ensures r.Ok? ==> Lookup(cfg, ["api", "cert_verify"]).Ok? &&
                      r.value.certVerify == Or(Lookup(cfg, ["api", "cert_verify"]).value, DefaultApiCertVerify)
  {
    var baseUrl :- Index(cfg, ["api", "base_url"]);
    var path :- Lookup(cfg, ["api", "path"]);
    var version :- Lookup(cfg, ["api", "version"]);
    var user :- Index(cfg, ["api", "user"]);
    var password :- Index(cfg, ["api", "password"]);
    var certVerify :- Lookup(cfg, ["api", "cert_verify"]);
    Ok(ApiClient(
      baseUrl,
      Or(path, DefaultApiPath),
      Or(version, DefaultApiVersion),
      user,
      password,
      Or(certVerify, DefaultApiCertVerify)))
  }

  /** Lines 39-44: every notifier setting is optional; `user` and `password`
      have no default. */
  function ReadNotifier(cfg: Value): (r: Result<Notifier, IndexError>)
    ensures r.Ok? ==> Lookup(cfg, ["notifications", "email", "host"]).Ok? &&
                      r.value.host == Or(Lookup(cfg, ["notifications", "email", "host"]).value, DefaultEmailHost)
    ensures r.Ok? ==> Lookup(cfg, ["notifications", "email", "port"]).Ok? &&
                      r.value.port == Or(Lookup(cfg, ["notifications", "email", "port"]).value, DefaultEmailPort)
  {
    var host :- Lookup(cfg, ["notifications", "email", "host"]);
    var port :- Lookup(cfg, ["notifications", "email", "port"]);
    var useTls :- Lookup(cfg, ["notifications", "email", "use_tls"]);
    var user :- Lookup(cfg, ["notifications", "email", "user"]);
    var password :- Lookup(cfg, ["notifications", "email", "password"]);
    Ok(Notifier(
      Or(host, DefaultEmailHost),
      Or(port, DefaultEmailPort),
      Or(useTls, DefaultEmailUseTls),
      user,
      password))
  }

  /** The settings after the log level: the API client, the notifier, then
      lines 46-49 and the values the helpers read (lines 77, 90, 107-108). */
  function ReadSettings(cfg: Value, level: int): (r: Result<Config, IndexError>)
    ensures r.Ok? ==> r.value.logLevel == level && ReadApiClient(cfg) == Ok(r.value.api) &&
                      ReadNotifier(cfg) == Ok(r.value.notifier)
    ensures r.Ok? ==> Lookup(cfg, ["attr_whitelist"]).Ok? &&
                      r.value.attrWhitelist == Or(Lookup(cfg, ["attr_whitelist"]).value, DefaultAttrWhitelist)
    ensures r.Ok? ==> Lookup(cfg, ["retention_period"]).Ok? &&
                      r.value.retentionPeriod == Or(Lookup(cfg, ["retention_period"]).value, DefaultRetentionPeriod)
    ensures r.Ok? ==> Lookup(cfg, ["notifications", "email", "subject"]).Ok? &&
                      r.value.emailSubject == Or(Lookup(cfg, ["notifications", "email", "subject"]).value, DefaultEmailSubject)
    ensures r.Ok? ==> Lookup(cfg, ["notifications", "email", "intro_text"]).Ok? &&
                      r.value.emailIntroText == Or(Lookup(cfg, ["notifications", "email", "intro_text"]).value, DefaultEmailIntroText)
    ensures r.Ok? ==> Lookup(cfg, ["dry_run"]).Ok? &&
                      (r.value.dryRun <==> Truthy(Lookup(cfg, ["dry_run"]).value))
  {
    var api :- ReadApiClient(cfg);
    var notifier :- ReadNotifier(cfg);
    var dryRun :- Lookup(cfg, ["dry_run"]);
    var from :- Index(cfg, ["notifications", "email", "from"]);
    var to :- Index(cfg, ["notifications", "email", "to"]);
    var whitelist :- Lookup(cfg, ["attr_whitelist"]);
    var retention :- Lookup(cfg, ["retention_period"]);
    var subject :- Lookup(cfg, ["notifications", "email", "subject"]);
    var introText :- Lookup(cfg, ["notifications", "email", "intro_text"]);
    Ok(Config(
      level,
      api,
      notifier,
      Truthy(Or(dryRun, DefaultDryRun)),
      from,
      to,
      Or(whitelist, DefaultAttrWhitelist),
      Or(retention, DefaultRetentionPeriod),
      Or(subject, DefaultEmailSubject),
      Or(introText, DefaultEmailIntroText)))
  }

  /** Load succeeds exactly when each of its reads does. */
  lemma LoadOkIff(cfg: Value)
    ensures Load(cfg).Ok? <==>
              Lookup(cfg, ["log_level"]).Ok? &&
              BasicConfigLevel(Lookup(cfg, ["log_level"]).value).Ok? &&
              Index(cfg, ["api", "base_url"]).Ok? &&
              Lookup(cfg, ["api", "path"]).Ok? &&
              Lookup(cfg, ["api", "version"]).Ok? &&
              Index(cfg, ["api", "user"]).Ok? &&
              Index(cfg, ["api", "password"]).Ok? &&
              Lookup(cfg, ["api", "cert_verify"]).Ok? &&
              Lookup(cfg, ["notifications", "email", "host"]).Ok? &&
              Lookup(cfg, ["notifications", "email", "port"]).Ok? &&
              Lookup(cfg, ["notifications", "email", "use_tls"]).Ok? &&
              Lookup(cfg, ["notifications", "email", "user"]).Ok? &&
              Lookup(cfg, ["notifications", "email", "password"]).Ok? &&
              Lookup(cfg, ["dry_run"]).Ok? &&
              Index(cfg, ["notifications", "email", "from"]).Ok? &&
              Index(cfg, ["notifications", "email", "to"]).Ok? &&
              Lookup(cfg, ["attr_whitelist"]).Ok? &&
              Lookup(cfg, ["retention_period"]).Ok? &&
              Lookup(cfg, ["notifications", "email", "subject"]).Ok? &&
              Lookup(cfg, ["notifications", "email", "intro_text"]).Ok?
  {
  }

  /** A key read directly below a mapping never fails through `safeget`. */
  lemma LookupBelowMapping(d: Value, prefix: seq<string>, key: string)
    requires Index(d, prefix).Ok? && Index(d, prefix).value.Dict?
    ensures Lookup(d, prefix + [key]).Ok?
  {
    IndexAppend(d, prefix, [key]);
  }

  /** A path that can be indexed passes through mappings only. */
  lemma IndexedParentIsMapping(d: Value, prefix: seq<string>, key: string)
    requires Index(d, prefix + [key]).Ok?
    ensures Index(d, prefix).Ok? && Index(d, prefix).value.Dict?
  {
    IndexAppend(d, prefix, [key]);
  }

  /** Start-up fails exactly when the configured log level is not one `basicConfig`
      accepts, or one of the keys read by plain indexing is unavailable; every
      `safeget` lookup, including the ones the helpers repeat later, then
      succeeds, so resolving them once here changes no outcome. */
  lemma LoadSucceedsIff(cfg: Value)
    ensures Load(cfg).Ok? <==>
              Lookup(cfg, ["log_level"]).Ok? &&
              BasicConfigLevel(Lookup(cfg, ["log_level"]).value).Ok? &&
              Index(cfg, ["api", "base_url"]).Ok? &&
              Index(cfg, ["api", "user"]).Ok? &&
              Index(cfg, ["api", "password"]).Ok? &&
              Index(cfg, ["notifications", "email", "from"]).Ok? &&
              Index(cfg, ["notifications", "email", "to"]).Ok?
  {
    LoadOkIff(cfg);
    if Index(cfg, ["api", "base_url"]).Ok? {
      TopAndApiLookupsSucceed(cfg);
    }
    if Index(cfg, ["notifications", "email", "from"]).Ok? {
      EmailLookupsSucceed(cfg);
    }
  }

  /** Once `api` can be indexed, the top-level and `api` lookups cannot fail. */
  lemma TopAndApiLookupsSucceed(cfg: Value)
    requires Index(cfg, ["api", "base_url"]).Ok?
    ensures Lookup(cfg, ["log_level"]).Ok? && Lookup(cfg, ["dry_run"]).Ok?
    ensures Lookup(cfg, ["attr_whitelist"]).Ok? && Lookup(cfg, ["retention_period"]).Ok?
    ensures Lookup(cfg, ["api", "path"]).Ok? && Lookup(cfg, ["api", "version"]).Ok?
    ensures Lookup(cfg, ["api", "cert_verify"]).Ok?
  {
    var api := ["api"];
    assert api + ["base_url"] == ["api", "base_url"];
    IndexedParentIsMapping(cfg, api, "base_url");
    assert [] + ["api"] == api;
    IndexedParentIsMapping(cfg, [], "api");
    LookupBelowMapping(cfg, [], "log_level");
    LookupBelowMapping(cfg, [], "dry_run");
    LookupBelowMapping(cfg, [], "attr_whitelist");
    LookupBelowMapping(cfg, [], "retention_period");
    assert [] + ["log_level"] == ["log_level"];
    assert [] + ["dry_run"] == ["dry_run"];
    assert [] + ["attr_whitelist"] == ["attr_whitelist"];
    assert [] + ["retention_period"] == ["retention_period"];
    LookupBelowMapping(cfg, api, "path");
    LookupBelowMapping(cfg, api, "version");
    LookupBelowMapping(cfg, api, "cert_verify");
    assert api + ["path"] == ["api", "path"];
    assert api + ["version"] == ["api", "version"];
    assert api + ["cert_verify"] == ["api", "cert_verify"];
  }

  /** Once `notifications.email` can be indexed, its lookups cannot fail. */
  lemma EmailLookupsSucceed(cfg: Value)
    requires Index(cfg, ["notifications", "email", "from"]).Ok?
    ensures Lookup(cfg, ["notifications", "email", "host"]).Ok?
    ensures Lookup(cfg, ["notifications", "email", "port"]).Ok?
    ensures Lookup(cfg, ["notifications", "email", "use_tls"]).Ok?
    ensures Lookup(cfg, ["notifications", "email", "user"]).Ok?
    ensures Lookup(cfg, ["notifications", "email", "password"]).Ok?
    ensures Lookup(cfg, ["notifications", "email", "subject"]).Ok?
    ensures Lookup(cfg, ["notifications", "email", "intro_text"]).Ok?
  {
    var email := ["notifications", "email"];
    assert email + ["from"] == ["notifications", "email", "from"];
    IndexedParentIsMapping(cfg, email, "from");
    LookupBelowMapping(cfg, email, "host");
    LookupBelowMapping(cfg, email, "port");
    LookupBelowMapping(cfg, email, "use_tls");
    LookupBelowMapping(cfg, email, "user");
    LookupBelowMapping(cfg, email, "password");
    LookupBelowMapping(cfg, email, "subject");
    LookupBelowMapping(cfg, email, "intro_text");
    assert email + ["host"] == ["notifications", "email", "host"];
    assert email + ["port"] == ["notifications", "email", "port"];
    assert email + ["use_tls"] == ["notifications", "email", "use_tls"];
    assert email + ["user"] == ["notifications", "email", "user"];
    assert email + ["password"] == ["notifications", "email", "password"];
    assert email + ["subject"] == ["notifications", "email", "subject"];
    assert email + ["intro_text"] == ["notifications", "email", "intro_text"];
  }

  /** The retention period is the configured one when it is truthy and 365 days
      when it is absent or falsy (0, for one). */
  lemma RetentionPeriodDefault(cfg: Value)
    requires Load(cfg).Ok?
    ensures cfg.Dict? && "retention_period" !in cfg.entries ==>
              Load(cfg).value.retentionPeriod == Int(365)
    ensures !Truthy(Lookup(cfg, ["retention_period"]).value) ==>
              Load(cfg).value.retentionPeriod == Int(365)
    ensures Truthy(Lookup(cfg, ["retention_period"]).value) ==>
              Load(cfg).value.retentionPeriod == Lookup(cfg, ["retention_period"]).value
  {
  }

  /** An absent or empty whitelist exempts nothing: it becomes the empty list. */
  lemma AttrWhitelistDefault(cfg: Value)
    requires Load(cfg).Ok?
    requires !Truthy(Lookup(cfg, ["attr_whitelist"]).value)
    ensures Load(cfg).value.attrWhitelist == List([])
  {
  }

  /** `cert_verify` falls back to True even when it is configured as False. */
  lemma CertVerifyFalseOverridden(cfg: Value)
    requires Load(cfg).Ok?
    requires Lookup(cfg, ["api", "cert_verify"]) == Ok(Bool(false))
    ensures Load(cfg).value.api.certVerify == Bool(true)
  {
  }

  /** The WARNING default of line 30 is never reached: without a `log_level`, or
      with one the logging library does not register (such as "debug"),
      start-up stops. */
  lemma LogLevelRequired(cfg: Value)
    requires Lookup(cfg, ["log_level"]) == Ok(Null) ||
             exists n :: Lookup(cfg, ["log_level"]) == Ok(Str(n)) && n !in LevelNumbers
    ensures Load(cfg) == Err(UnknownLogLevel(Lookup(cfg, ["log_level"]).value))
  {
    assert GetLevelName(Lookup(cfg, ["log_level"]).value).None?;
  }

  /** A registered level name or number is accepted and sets that level, except
      that NOTSET given by name falls back to WARNING. */
  lemma {:induction false} RegisteredLogLevelAccepted(v: Value)
    requires (v.Str? && v.s in LevelNumbers) || (v.Int? && v.i in LevelNames)
    ensures BasicConfigLevel(v) ==
              Ok(if v.Str? then (if v.s == "NOTSET" then 30 else LevelNumbers[v.s]) else v.i)
  {
    if v.Int? {
      assert LevelNames[v.i] in LevelNumbers && LevelNumbers[LevelNames[v.i]] == v.i;
    }
  }
}
