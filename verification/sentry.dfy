/**
 The error-reporting bootstrap (product/sentry-init.php) as a pure function.

 The script either returns early, possibly logging why, or initialises the SDK
 with an option record and then configures the scope. Here the environment,
 the presence of the autoloader and of the SDK class, and the host values
 (`gethostname()`, `PHP_VERSION`, `PHP_SAPI`) are inputs; the result says
 which way the script went and, when it initialised, what it asked for.
 */
module SentryInit {
  import opened Wrappers
  import opened Php

  const DefaultEnvironment: string := "production"
  const DefaultRelease: string := "1.0.0"
  const MaxBreadcrumbs: int := 50
  /** Events whose request URL contains this are dropped before sending. */
  const HealthPath: string := "/health"
  const SdkMissingLog: string := "Sentry enabled but sentry/sentry package not installed. Run: composer require sentry/sentry"
  const DsnMissingLog: string := "Sentry enabled but SENTRY_DSN not set"

  /** `traces_sample_rate`: the default 0.1, or the raw `SENTRY_TRACE_SAMPLE_RATE` text that `(float)` converts. */
  datatype SampleRate = DefaultSampleRate | EnvSampleRate(raw: string)

  /** The option record passed to `\Sentry\init`; `before_send` is the function `BeforeSend` below. */
  datatype Options = Options(
    dsn: string,
    environment: string,
    release: string,
    serverName: string,
    tracesSampleRate: SampleRate,
    sendDefaultPii: bool,
    maxBreadcrumbs: int)

  /** What the scope callbacks do, in order. */
  datatype ScopeAction = SetUser(id: string) | SetTag(key: string, value: string)

  /** Why the script returned before initialising. */
  datatype SkipReason = NotEnabled | AutoloaderMissing | SdkMissing | DsnMissing

  datatype Bootstrap =
    | Skipped(reason: SkipReason, log: Option<string>)
    | Initialised(options: Options, scope: seq<ScopeAction>)

  /** `gethostname()`, `PHP_VERSION` and `PHP_SAPI`. */
  datatype Host = Host(hostname: string, phpVersion: string, sapi: string)

  /** The option record built from the environment, each variable falling back to its default when falsy. */
  function BuildOptions(env: Env, host: Host): (o: Options)
    requires Truthy(Getenv(env, "SENTRY_DSN"))
    ensures o.dsn == env["SENTRY_DSN"] && !o.sendDefaultPii && o.maxBreadcrumbs == 50
    ensures Truthy(Some(o.dsn)) && Truthy(Some(o.environment)) && Truthy(Some(o.release))
    ensures o.serverName != host.hostname ==> "APP_HOSTNAME" in env && o.serverName == env["APP_HOSTNAME"]
    ensures o.tracesSampleRate.EnvSampleRate? ==> Truthy(Getenv(env, "SENTRY_TRACE_SAMPLE_RATE"))
  {
    Options(
      env["SENTRY_DSN"],
      Elvis(Getenv(env, "SENTRY_ENVIRONMENT"), DefaultEnvironment),
      Elvis(Getenv(env, "APP_VERSION"), DefaultRelease),
      Elvis(Getenv(env, "APP_HOSTNAME"), host.hostname),
      if Truthy(Getenv(env, "SENTRY_TRACE_SAMPLE_RATE")) then EnvSampleRate(env["SENTRY_TRACE_SAMPLE_RATE"])
      else DefaultSampleRate,
      false,
      MaxBreadcrumbs)
  }

  /** The user scope when `SENTRY_USER_ID` is truthy, then the tags (the host name only when `APP_HOSTNAME` is truthy). */
  function ScopeActions(env: Env, host: Host): (s: seq<ScopeAction>)
    ensures 2 <= |s| <= 4
    ensures forall i :: 1 <= i < |s| ==> s[i].SetTag?
    ensures s[0].SetUser? <==> Truthy(Getenv(env, "SENTRY_USER_ID"))
    ensures SetTag("php_version", host.phpVersion) in s && SetTag("php_sapi", host.sapi) in s
  {
    (if Truthy(Getenv(env, "SENTRY_USER_ID")) then [SetUser(env["SENTRY_USER_ID"])] else [])
    + [SetTag("php_version", host.phpVersion), SetTag("php_sapi", host.sapi)]
    + (if Truthy(Getenv(env, "APP_HOSTNAME")) then [SetTag("hostname", env["APP_HOSTNAME"])] else [])
  }

  /**
   The chain of early returns, then initialisation and scope configuration.
   Initialisation happens exactly when `SENTRY_ENABLED` is the string `true`,
   the autoloader and the SDK class exist, and `SENTRY_DSN` is neither unset,
   empty nor `"0"`.
   */
  function Init(env: Env, autoloadExists: bool, sdkClassExists: bool, host: Host): (b: Bootstrap)
    ensures b.Initialised? <==>
              "SENTRY_ENABLED" in env && env["SENTRY_ENABLED"] == "true"
              && autoloadExists && sdkClassExists
              && "SENTRY_DSN" in env && env["SENTRY_DSN"] != "" && env["SENTRY_DSN"] != "0"
    ensures b.Skipped? ==> (b.log.Some? <==> b.reason == SdkMissing || b.reason == DsnMissing)
  {
    if Getenv(env, "SENTRY_ENABLED") != Some("true") then Skipped(NotEnabled, None)
    else if !autoloadExists then Skipped(AutoloaderMissing, None)
    else if !sdkClassExists then Skipped(SdkMissing, Some(SdkMissingLog))
    else if !Truthy(Getenv(env, "SENTRY_DSN")) then Skipped(DsnMissing, Some(DsnMissingLog))
    else Initialised(BuildOptions(env, host), ScopeActions(env, host))
  }

  /** What `$event->getRequest()` returns (a `null` element is `None`), plus the rest of the event. */
  datatype Event = Event(request: map<string, Option<string>>, payload: string)

  /** The event's request has a non-null `url` that contains `/health`. */
  predicate IsHealthRequest(e: Event)
    ensures IsHealthRequest(e) ==>
              "url" in e.request && e.request["url"].Some? && |HealthPath| <= |e.request["url"].value|
  {
    e.request != map[] && "url" in e.request && e.request["url"].Some?
    && StrContains(e.request["url"].value, HealthPath)
  }

  /** The `before_send` callback: drop health-check events, pass every other event through unchanged. */
  function BeforeSend(e: Event): (r: Option<Event>)
    ensures r.Some? ==> r.value == e
  {
    if IsHealthRequest(e) then None else Some(e)
  }

  /**
   An event is dropped exactly when its request has a `url` in which
   `/health` occurs at some position; every other event is kept as it was.
   */
  lemma BeforeSendDropsHealthUrls(e: Event)
    ensures BeforeSend(e).None? <==>
              "url" in e.request && e.request["url"].Some?
              && exists i :: OccursAt(e.request["url"].value, HealthPath, i)
    ensures BeforeSend(e).Some? ==> BeforeSend(e) == Some(e)
  {
    if "url" in e.request && e.request["url"].Some? {
      StrContainsIffOccurs(e.request["url"].value, HealthPath);
      assert e.request != map[];
    }
  }

  /** The early returns are tried in the script's order, and only the last two log. */
  lemma SkipReasons(env: Env, autoloadExists: bool, sdkClassExists: bool, host: Host)
    ensures var b := Init(env, autoloadExists, sdkClassExists, host);
            b == Skipped(NotEnabled, None) <==> Getenv(env, "SENTRY_ENABLED") != Some("true")
    ensures var b := Init(env, autoloadExists, sdkClassExists, host);
            b == Skipped(AutoloaderMissing, None) <==>
              Getenv(env, "SENTRY_ENABLED") == Some("true") && !autoloadExists
    ensures var b := Init(env, autoloadExists, sdkClassExists, host);
            b == Skipped(SdkMissing, Some(SdkMissingLog)) <==>
              Getenv(env, "SENTRY_ENABLED") == Some("true") && autoloadExists && !sdkClassExists
    ensures var b := Init(env, autoloadExists, sdkClassExists, host);
            b == Skipped(DsnMissing, Some(DsnMissingLog)) <==>
              Getenv(env, "SENTRY_ENABLED") == Some("true") && autoloadExists && sdkClassExists
              && !Truthy(Getenv(env, "SENTRY_DSN"))
  {
  }

  /** The enabling value is compared as an exact string: `TRUE`, `1` or an unset variable do not enable. */
  lemma EnabledIsExact(host: Host)
    ensures Init(map["SENTRY_ENABLED" := "TRUE", "SENTRY_DSN" := "https://k@o.example/1"], true, true, host)
            == Skipped(NotEnabled, None)
    ensures Init(map["SENTRY_ENABLED" := "1", "SENTRY_DSN" := "https://k@o.example/1"], true, true, host)
            == Skipped(NotEnabled, None)
    ensures Init(map["SENTRY_DSN" := "https://k@o.example/1"], true, true, host) == Skipped(NotEnabled, None)
    ensures Init(map["SENTRY_ENABLED" := "true", "SENTRY_DSN" := "https://k@o.example/1"], true, true, host).Initialised?
  {
  }

  /**
   The option record: the DSN as given, each other setting from its variable
   when truthy and from its default otherwise, no default PII, 50 breadcrumbs.
   */
  lemma OptionsFromEnv(env: Env, autoloadExists: bool, sdkClassExists: bool, host: Host)
    requires Init(env, autoloadExists, sdkClassExists, host).Initialised?
    ensures var opts := Init(env, autoloadExists, sdkClassExists, host).options;
            && opts.dsn == env["SENTRY_DSN"]
            && opts.environment == (if Truthy(Getenv(env, "SENTRY_ENVIRONMENT")) then env["SENTRY_ENVIRONMENT"] else "production")
            && opts.release == (if Truthy(Getenv(env, "APP_VERSION")) then env["APP_VERSION"] else "1.0.0")
            && opts.serverName == (if Truthy(Getenv(env, "APP_HOSTNAME")) then env["APP_HOSTNAME"] else host.hostname)
            && (opts.tracesSampleRate == DefaultSampleRate <==> !Truthy(Getenv(env, "SENTRY_TRACE_SAMPLE_RATE")))
            && !opts.sendDefaultPii
            && opts.maxBreadcrumbs == 50
  {
  }

  /**
   The user is set iff `SENTRY_USER_ID` is truthy, and to that value; the
   `php_version` and `php_sapi` tags are always set; the `hostname` tag is
   set iff `APP_HOSTNAME` is truthy, and to that value.
   */
  lemma ScopeFromEnv(env: Env, autoloadExists: bool, sdkClassExists: bool, host: Host)
    requires Init(env, autoloadExists, sdkClassExists, host).Initialised?
    ensures var scope := Init(env, autoloadExists, sdkClassExists, host).scope;
            (exists id :: SetUser(id) in scope) <==> Truthy(Getenv(env, "SENTRY_USER_ID"))
    ensures var scope := Init(env, autoloadExists, sdkClassExists, host).scope;
            forall id :: SetUser(id) in scope ==> id == env["SENTRY_USER_ID"]
    ensures var scope := Init(env, autoloadExists, sdkClassExists, host).scope;
            SetTag("php_version", host.phpVersion) in scope && SetTag("php_sapi", host.sapi) in scope
    ensures var scope := Init(env, autoloadExists, sdkClassExists, host).scope;
            (exists v :: SetTag("hostname", v) in scope) <==> Truthy(Getenv(env, "APP_HOSTNAME"))
    ensures var scope := Init(env, autoloadExists, sdkClassExists, host).scope;
            forall v :: SetTag("hostname", v) in scope ==> v == env["APP_HOSTNAME"]
  {
    var scope := Init(env, autoloadExists, sdkClassExists, host).scope;
    if Truthy(Getenv(env, "SENTRY_USER_ID")) {
      assert SetUser(env["SENTRY_USER_ID"]) in scope;
    }
    if Truthy(Getenv(env, "APP_HOSTNAME")) {
      assert SetTag("hostname", env["APP_HOSTNAME"]) in scope;
    }
  }
}
