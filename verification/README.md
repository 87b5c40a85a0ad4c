# Health endpoint and error-reporting bootstrap, modelled in Dafny

This project models the two PHP scripts of a Docker PHP server image:

- `product/health.php` is the HTTP health endpoint. It probes the database (PDO), Redis, the filesystem (a scratch file round trip) and opcache. It then reports each result as `healthy`, `disabled` or `unhealthy: <message>`, with an overall status and HTTP code 200 or 503.
- `product/sentry-init.php` is the Sentry bootstrap. It runs a chain of early returns, then builds the option record for `\Sentry\init`. The record includes a `before_send` filter that drops events for `/health` URLs. The script then sets the user and the tags on the scope.

Both scripts are modelled as pure functions. Every effect is turned into an input:

- the environment is a `map<string, string>`, read through `getenv` with PHP truthiness, where unset, `""` and `"0"` are falsy;
- the Redis extension and `opcache_get_status` are capability flags;
- each probe's outcome is given as data: the connect or command exception, what the scratch file read back, and the opcache status array.

The health model returns three things: the report, the HTTP code, and the ordered list of effects the script would issue. These effects are connects, queries, pings, and the scratch write, read and unlink.

Files:

- `php.dfy`: `Wrappers.Option` and module `Php`. `Php` covers `getenv`, truthiness, `?:` chains, `str_contains` and the decimal text of `time()`.
- `health.dfy`: module `Health`, the endpoint.
- `health_properties.dfy`: module `HealthProperties`, the endpoint's promises.
- `sentry.dfy`: module `SentryInit`, the bootstrap and its properties.

## Behaviour worth noting

- The database and Redis checks run when the host variable is PHP-truthy. A host set to `""` or `"0"` counts as unset and leaves no key in `checks`.
- The scratch file is unlinked only when both the write and the read complete without an exception. If the write or the read throws, the unlink is never issued and the file can stay on disk. `ScratchUnlinkedBeforeCompare` states exactly when the unlink is issued.
- The host name in `info` is whatever `gethostname()` returns, with no substitute value when the lookup fails.

## Model

| member | source | states |
|---|---|---|
| Php.Truthy | product/health.php:22 | a `getenv` result is truthy iff the variable is set and is neither `""` nor `"0"` |
| Php.Elvis | product/health.php:24 | `a ?: b` is `a`'s text whenever `a` is truthy, and differs from `b` only in that case |
| Php.FallbackPair | product/health.php:24-27 | a two-variable chain with a default is the nesting `a ?: (b ?: default)` |
| Php.Fallback | product/health.php:24-27 | a `?:` chain returns the default when no candidate is truthy, and otherwise some truthy candidate |
| Php.FallbackIsFirstTruthy | product/health.php:24-27 | a `?:` chain returns exactly the first truthy candidate, or the default when none is truthy |
| Php.StrContains | product/sentry-init.php:51 | a haystack contains a needle only if it is at least as long, and always contains the empty needle |
| Php.StrContainsIffOccurs | product/sentry-init.php:51 | the `str_contains` scan holds iff the needle occurs at some position of the haystack (both directions) |
| Php.Decimal | product/health.php:63 | the text of `time()` in the scratch file name is a non-empty string of decimal digits |
| Php.DecimalRoundTrip | product/health.php:63 | reading the decimal text of a timestamp back gives the timestamp |
| Php.DecimalInjective | product/health.php:63 | different timestamps give different texts |
| Health.Parse | product/health.php:36-38 | a value parsed from the `checks` text renders back to that same text |
| Health.ParseRender | product/health.php:36-38 | every check result is recovered from its rendered text: `healthy`, `disabled` and `unhealthy: <message>` lose nothing |
| Health.Render | product/health.php:36-38 | a rendered value starts with `unhealthy: ` iff the result is a failure, and what follows the prefix is the exception message |
| Health.ResolveDbParams | product/health.php:24-27 | host, user, password and database name are the first truthy of `DB_X` and `MYSQL_X`, else `localhost`, `root`, `""` and `test` respectively |
| Health.ResolveRedisTarget | product/health.php:47-49 | Redis connects to `REDIS_HOST`; the port is the default iff `REDIS_PORT` is falsy, and is otherwise that variable's text |
| Health.ScratchPath | product/health.php:63 | the scratch path is the temporary directory plus `/health_check_`, followed by digits that read back as the second it was built in |
| Health.Record | product/health.php:36-39 | recording a check appends exactly its key and result after the earlier rows, and clears `$allHealthy` iff the result is a failure |
| Health.Accumulate | product/health.php:19-87 | the fold adds at most one row per check, keeps the earlier row count, and never turns `$allHealthy` back on |
| Health.ProbeRun | product/health.php:23-40 | a connect-then-command probe is healthy iff nothing threw; a failure carries the exception message; the command is issued only after a successful connect |
| Health.DatabaseCheck | product/health.php:22-41 | the database check runs iff `DB_HOST` or `MYSQL_HOST` is truthy, is keyed `database`, and first connects with the resolved parameters |
| Health.RedisCheck | product/health.php:44-59 | the Redis check runs iff the extension is loaded and `REDIS_HOST` is truthy, is keyed `redis`, and first connects to the resolved target with the 2-second timeout |
| Health.FilesystemCheck | product/health.php:62-76 | the filesystem check always runs, is keyed `filesystem`, is never `disabled`, and begins by writing `test` to the scratch path |
| Health.OpcacheCheck | product/health.php:79-87 | the opcache check runs iff `opcache_get_status` exists and is never a failure |
| Health.RunHealthCheck | product/health.php:89-91 | the code is 200 or 503, 200 exactly when the status is `healthy` and 503 exactly when it is `unhealthy` |
| HealthProperties.AccumulateSpec | product/health.php:19-91 | running the checks keeps every check that ran, in order, with its info and effects; `$allHealthy` survives iff no recorded result is a failure |
| HealthProperties.ChecksShape | product/health.php:22-87 | `checks` holds the database, redis, filesystem and opcache rows in that order, each there iff its check ran; `info` gains only the opcache entry; the effects are concatenated in the same order |
| HealthProperties.LookupFound | product/health.php:36-85 | a key reads a value only when a row carries exactly that key and value, and reads nothing iff no row carries the key |
| HealthProperties.FailureEntryMakesUnhealthy | product/health.php:38-91 | a `database`, `redis` or `filesystem` key that is there and does not read `healthy`, or any key whose value starts with `unhealthy: `, means status `unhealthy` and code 503 |
| HealthProperties.FilesystemValue | product/health.php:72-74 | the `filesystem` key reads the rendering of the filesystem check's result |
| HealthProperties.StatusIffFailureEntry | product/health.php:90-91 | the status is `unhealthy` with code 503 iff some `checks` value starts with `unhealthy: `, and `healthy` with 200 iff none does |
| HealthProperties.DatabaseEntry | product/health.php:22-41 | the `database` key is there iff `DB_HOST` or `MYSQL_HOST` is truthy (never as `disabled`); then it reads `healthy` or `unhealthy: ` plus the exception message |
| HealthProperties.RedisEntry | product/health.php:44-59 | the `redis` key is there iff the extension is loaded and `REDIS_HOST` is truthy; then it reads the probe's verdict |
| HealthProperties.FilesystemEntry | product/health.php:62-76 | `filesystem` is always there; it reads `healthy` iff every step completed and the content read back is exactly `test`; otherwise it reads the mismatch message or the exception's message |
| HealthProperties.OpcacheEntry | product/health.php:79-87 | `opcache` is there iff the introspection function exists; it reads `healthy` iff the status is an array with the cache enabled, and `disabled` otherwise |
| HealthProperties.InfoContents | product/health.php:13-16 | `info` starts with the PHP version and the host name; `opcache_memory_usage` is added iff opcache reads `healthy` |
| HealthProperties.CheckKeys | product/health.php:22-79 | the keys of `checks` follow from configuration and capabilities alone, in the order database, redis, filesystem, opcache, with no duplicates |
| HealthProperties.StatusIgnoresOpcache | product/health.php:84-86 | whatever opcache reports, including `disabled`, the status and the code are unchanged |
| HealthProperties.FailureIsolation | product/health.php:37-40 | changing the database or Redis outcome changes no other key's value: a failure never stops the later checks |
| HealthProperties.ScratchAlwaysWritten | product/health.php:62-64 | the scratch file write is issued on every request, whatever the earlier checks answered |
| HealthProperties.ScratchUnlinkedBeforeCompare | product/health.php:64-70 | the unlink is issued iff the write completed and the read returned; when the comparison is reached, the effects are exactly write, read, unlink, and unlink comes last |
| HealthProperties.ScratchPathsDistinct | product/health.php:63 | requests in different seconds use different scratch file names |
| HealthProperties.DatabaseHostFromEnv | product/health.php:22-24 | when the database check runs, it connects to `DB_HOST` if that is truthy, else to `MYSQL_HOST`, and never to the `localhost` fallback |
| HealthProperties.SameShapeAcrossRequests | product/health.php:9-17 | two requests with the same environment and probe outcomes give the same status, code and keys, whatever both `time()` readings return |
| HealthProperties.ScenarioNoDependencies | product/health.php:21-87 | with neither the database nor the Redis check configured, a sound filesystem and opcache enabled, the report is `healthy` and 200, with checks filesystem and opcache both `healthy` |
| HealthProperties.ScenarioDatabaseDown | product/health.php:37-39 | with `DB_HOST` set and a connection that throws, `database` reads `unhealthy: <message>`, and the report is `unhealthy` with 503 |
| HealthProperties.ScenarioScratchWriteFails | product/health.php:73-75 | when the scratch write throws, `filesystem` reads `unhealthy: <message>`, the report is `unhealthy` with 503, and nothing after the write is issued |
| SentryInit.Init | product/sentry-init.php:10-31 | initialisation happens iff `SENTRY_ENABLED` is exactly `true`, the autoloader and the SDK class exist, and `SENTRY_DSN` is neither unset, `""` nor `"0"`; an early return logs a message iff the SDK class or the DSN is missing |
| SentryInit.BuildOptions | product/sentry-init.php:34-46 | the DSN is passed as given; environment and release are never empty or `"0"`; the server name is the host name unless `APP_HOSTNAME` supplies it; the sample rate comes from its variable only when that is truthy; no default PII; 50 breadcrumbs |
| SentryInit.ScopeActions | product/sentry-init.php:58-73 | two to four scope actions; only the first may set the user, and it does iff `SENTRY_USER_ID` is truthy; the `php_version` and `php_sapi` tags are always set |
| SentryInit.IsHealthRequest | product/sentry-init.php:50-51 | a health request has a non-null `url` at least as long as `/health` |
| SentryInit.BeforeSend | product/sentry-init.php:48-55 | `before_send` never alters an event: it either drops it or passes it through unchanged |
| SentryInit.BeforeSendDropsHealthUrls | product/sentry-init.php:48-55 | an event is dropped iff its request has a non-null `url` in which `/health` occurs at some position; every other event is returned unchanged |
| SentryInit.SkipReasons | product/sentry-init.php:10-31 | the early returns are tried in the script's order, each under exactly its condition; only the missing-SDK and missing-DSN returns log |
| SentryInit.EnabledIsExact | product/sentry-init.php:10-12 | `TRUE`, `1` and an unset `SENTRY_ENABLED` do not enable the bootstrap; `true` does |
| SentryInit.OptionsFromEnv | product/sentry-init.php:34-46 | the DSN is passed as given; environment, release and server name each come from their variable if truthy, else from `production`, `1.0.0` and the host name; the sample rate is the default iff its variable is falsy; no default PII; 50 breadcrumbs |
| SentryInit.ScopeFromEnv | product/sentry-init.php:59-72 | the user is set iff `SENTRY_USER_ID` is truthy, and to its value; the `php_version` and `php_sapi` tags are always set; the `hostname` tag is set iff `APP_HOSTNAME` is truthy, and to its value |

## Left out

- The PDO connection, `SELECT 1`, the Redis connect and ping, the file write, read and unlink, and `opcache_get_status` are not modelled. They are I/O and foreign extensions, so each appears only as an outcome input and as an entry in the effect list.
- `header()`, `http_response_code()`, `json_encode` with pretty printing, and `echo` are left out. They are output plumbing. The model stops at the report structure and the code.
- The opcache memory value is carried as the byte count (`MegabytesUsed`). The float division and `round(..., 2) . 'MB'` formatting are left out because they are floating point.
- The `(float)` cast of `SENTRY_TRACE_SAMPLE_RATE` and its 0.1 default are left out. The model records only whether the default or the variable's text is used, because the numbers are floating point.
- The `(int)` cast of `REDIS_PORT` is left out. The model records only whether the default port or the variable's text is used, because PHP's string-to-integer coercion is a library detail.
- `time()`, `gethostname()`, `PHP_VERSION`, `PHP_SAPI` and `sys_get_temp_dir()` are not modelled. They are opaque inputs, and `gethostname()` returning `false` is not distinguished. The two `time()` calls are two separate inputs: `now` for the timestamp and `scratchNow` for the scratch file name.
- `\Sentry\init`, `\Sentry\configureScope` and `error_log` are not modelled, because they belong to a foreign library. The model states the option record, the scope actions and the log message the script decides to issue.
- PHP warnings from file functions are left out. They do not throw unless an error handler converts them. A write that fails without throwing therefore shows up through what the read returns.
- Exceptions that are not `Exception` (PHP `Error`s) are left out. They escape the script's `catch` blocks, and the model assumes every probe failure is an `Exception`.
- Concurrent requests sharing a scratch file name within the same second are left out, because each request is modelled alone.
