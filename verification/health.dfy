/**
 The health-check endpoint (product/health.php) as a pure function.

 Everything the script does to the outside world is turned into an input or an
 output: the environment is a map, the loaded extension and the opcache
 introspection function are capability flags, and what the database, Redis,
 the scratch file and opcache answer is given as `Outcomes`. The result is the
 report the script encodes as JSON, the HTTP code it sets, and the sequence of
 effects (connections, queries, file operations) it issues, in order.
 */
module Health {
  import opened Wrappers
  import opened Php

  /** Prefix of every failure entry in the `checks` object. */
  const UnhealthyPrefix: string := "unhealthy: "
  /** The message thrown when the scratch file reads back something other than what was written. */
  const MismatchMessage: string := "Filesystem read/write mismatch"
  /** What the filesystem check writes and expects to read back. */
  const ScratchContent: string := "test"
  /** Connect timeout, in seconds, given to both PDO and Redis. */
  const ConnectTimeout: nat := 2
  const ValidationQuery: string := "SELECT 1"

  const HealthyCode: int := 200
  const UnhealthyCode: int := 503

  /** The outcome of one check, before it is rendered into the report. */
  datatype CheckResult = Healthy | Disabled | Unhealthy(message: string)

  /**
   How a result appears as a value of the `checks` object. Only a failure
   carries the failure prefix, followed by the exception's message.
   */
  function Render(r: CheckResult): (s: string)
    ensures StartsWith(s, UnhealthyPrefix) <==> r.Unhealthy?
    ensures r.Unhealthy? ==> |UnhealthyPrefix| <= |s| && s[|UnhealthyPrefix|..] == r.message
  {
    match r
    case Healthy => "healthy"
    case Disabled => "disabled"
    case Unhealthy(m) =>
      var s := UnhealthyPrefix + m;
      assert s[..|UnhealthyPrefix|] == UnhealthyPrefix;
      s
  }

  /** Reads a `checks` value back into the result it renders; `None` for text no result renders to. */
  function Parse(s: string): (r: Option<CheckResult>)
    ensures r.Some? ==> Render(r.value) == s
  {
    if s == "healthy" then Some(Healthy)
    else if s == "disabled" then Some(Disabled)
    else if StartsWith(s, UnhealthyPrefix) then Some(Unhealthy(s[|UnhealthyPrefix|..]))
    else None
  }

  /** Rendering loses nothing: every result is recovered from its text. */
  lemma ParseRender(r: CheckResult)
    ensures Parse(Render(r)) == Some(r)
  {
  }

  /** Whether the runtime offers the Redis extension and `opcache_get_status`. */
  datatype Capabilities = Capabilities(redisExtension: bool, opcacheIntrospection: bool)

  /**
   Values the script takes from PHP itself: `PHP_VERSION`, `gethostname()`,
   `sys_get_temp_dir()`, and the two calls of `time()`: `now` for the report's
   timestamp and `scratchNow` for the scratch file name, which differ when the
   request crosses a second boundary.
   */
  datatype Runtime = Runtime(phpVersion: string, hostname: string, now: nat, scratchNow: nat, tempDir: string)

  /** What a connect-then-command probe (PDO plus `SELECT 1`, Redis connect plus ping) does. */
  datatype ProbeOutcome =
    | Reachable
    | ConnectRaised(message: string)
    | CommandRaised(message: string)

  /** A file operation either completes or throws an exception with a message. */
  datatype StepOutcome = Completed | Raised(message: string)

  /** `file_get_contents`: the content read (`None` for PHP `false`), or an exception. */
  datatype ReadOutcome = ReadBack(content: Option<string>) | ReadRaised(message: string)

  datatype ScratchOutcome = ScratchOutcome(write: StepOutcome, read: ReadOutcome, unlink: StepOutcome)

  /** `opcache_get_status(false)`: `false`, or the status array with its enabled flag and used memory in bytes. */
  datatype OpcacheStatus = StatusFalse | StatusArray(enabled: bool, usedMemory: nat)

  /** How every dependency would answer if the script probed it. */
  datatype Outcomes = Outcomes(
    database: ProbeOutcome,
    redis: ProbeOutcome,
    scratch: ScratchOutcome,
    opcache: OpcacheStatus)

  /** Connection parameters of the database check. */
  datatype DbParams = DbParams(host: string, user: string, password: string, name: string)

  /** The Redis port: the default (6379), or the raw `REDIS_PORT` text that `(int)` converts. */
  datatype RedisPort = DefaultPort | EnvPort(raw: string)

  datatype RedisTarget = RedisTarget(host: string, port: RedisPort)

  /** An interaction with the outside world, in the order the script issues it. */
  datatype Effect =
    | ConnectDatabase(params: DbParams, timeout: nat)
    | QueryDatabase(sql: string)
    | ConnectRedis(target: RedisTarget, timeout: nat)
    | PingRedis
    | WriteScratch(path: string, data: string)
    | ReadScratch(path: string)
    | UnlinkScratch(path: string)
    | QueryOpcache

  /** A value of the `info` object: a string, or the opcache memory in use (rendered in MB). */
  datatype InfoValue = Text(text: string) | MegabytesUsed(bytes: nat)

  /** One check that ran: its key, its result, what it adds to `info`, and the effects it issued. */
  datatype CheckRun = CheckRun(
    name: string,
    result: CheckResult,
    info: seq<(string, InfoValue)>,
    effects: seq<Effect>)

  datatype HealthReport = HealthReport(
    status: string,
    timestamp: nat,
    checks: seq<(string, string)>,
    info: seq<(string, InfoValue)>)

  /** The report, the HTTP response code, and the effects issued while producing them. */
  datatype Response = Response(report: HealthReport, code: int, effects: seq<Effect>)

  /** The database check runs when `DB_HOST` or `MYSQL_HOST` is truthy. */
  predicate DatabaseConfigured(env: Env)
  {
    Truthy(Getenv(env, "DB_HOST")) || Truthy(Getenv(env, "MYSQL_HOST"))
  }

  /** The Redis check runs when the extension is loaded and `REDIS_HOST` is truthy. */
  predicate RedisConfigured(env: Env, caps: Capabilities)
  {
    caps.redisExtension && Truthy(Getenv(env, "REDIS_HOST"))
  }

  /** Each parameter is the first truthy of `DB_X` and `MYSQL_X`, else a hard-coded default. */
  function ResolveDbParams(env: Env): (p: DbParams)
    ensures p.host ==
              if Truthy(Getenv(env, "DB_HOST")) then env["DB_HOST"]
              else if Truthy(Getenv(env, "MYSQL_HOST")) then env["MYSQL_HOST"] else "localhost"
    ensures p.user ==
              if Truthy(Getenv(env, "DB_USER")) then env["DB_USER"]
              else if Truthy(Getenv(env, "MYSQL_USER")) then env["MYSQL_USER"] else "root"
    ensures p.password ==
              if Truthy(Getenv(env, "DB_PASSWORD")) then env["DB_PASSWORD"]
              else if Truthy(Getenv(env, "MYSQL_PASSWORD")) then env["MYSQL_PASSWORD"] else ""
    ensures p.name ==
              if Truthy(Getenv(env, "DB_NAME")) then env["DB_NAME"]
              else if Truthy(Getenv(env, "MYSQL_DATABASE")) then env["MYSQL_DATABASE"] else "test"
  {
    FallbackPair(Getenv(env, "DB_HOST"), Getenv(env, "MYSQL_HOST"), "localhost");
    FallbackPair(Getenv(env, "DB_USER"), Getenv(env, "MYSQL_USER"), "root");
    FallbackPair(Getenv(env, "DB_PASSWORD"), Getenv(env, "MYSQL_PASSWORD"), "");
    FallbackPair(Getenv(env, "DB_NAME"), Getenv(env, "MYSQL_DATABASE"), "test");
    DbParams(
      Fallback([Getenv(env, "DB_HOST"), Getenv(env, "MYSQL_HOST")], "localhost"),
      Fallback([Getenv(env, "DB_USER"), Getenv(env, "MYSQL_USER")], "root"),
      Fallback([Getenv(env, "DB_PASSWORD"), Getenv(env, "MYSQL_PASSWORD")], ""),
      Fallback([Getenv(env, "DB_NAME"), Getenv(env, "MYSQL_DATABASE")], "test"))
  }

  /** The host is `REDIS_HOST` as read; the port falls back to the default unless `REDIS_PORT` is truthy. */
  function ResolveRedisTarget(env: Env): (t: RedisTarget)
    requires "REDIS_HOST" in env
    ensures t.host == env["REDIS_HOST"]
    ensures t.port == DefaultPort <==> !Truthy(Getenv(env, "REDIS_PORT"))
    ensures t.port.EnvPort? ==> t.port.raw == env["REDIS_PORT"]
  {
    var port := if Truthy(Getenv(env, "REDIS_PORT")) then EnvPort(env["REDIS_PORT"]) else DefaultPort;
    RedisTarget(env["REDIS_HOST"], port)
  }

  /**
   A connect-then-command probe inside `try`/`catch (Exception $e)`: the
   command is only issued once the connection is made, and any exception
   becomes `unhealthy` with its message.
   */
  function ProbeRun(name: string, outcome: ProbeOutcome, connect: Effect, command: Effect): (run: CheckRun)
    ensures run.name == name && run.info == []
    ensures run.result.Healthy? <==> outcome.Reachable?
    ensures !outcome.Reachable? ==> run.result == Unhealthy(outcome.message)
    ensures run.effects == if outcome.ConnectRaised? then [connect] else [connect, command]
  {
    match outcome
    case Reachable => CheckRun(name, Healthy, [], [connect, command])
    case ConnectRaised(m) => CheckRun(name, Unhealthy(m), [], [connect])
    case CommandRaised(m) => CheckRun(name, Unhealthy(m), [], [connect, command])
  }

  /** The database check: absent unless configured; otherwise PDO connect and `SELECT 1`. */
  function DatabaseCheck(env: Env, outcome: ProbeOutcome): (run: Option<CheckRun>)
    ensures run.Some? <==> DatabaseConfigured(env)
    ensures run.Some? ==> run.value.name == "database"
    ensures run.Some? ==> |run.value.effects| > 0 && run.value.effects[0] == ConnectDatabase(ResolveDbParams(env), ConnectTimeout)
  {
    if DatabaseConfigured(env) then
      Some(ProbeRun("database", outcome,
                    ConnectDatabase(ResolveDbParams(env), ConnectTimeout),
                    QueryDatabase(ValidationQuery)))
    else None
  }

  /** The Redis check: absent unless configured; otherwise connect and ping. */
  function RedisCheck(env: Env, caps: Capabilities, outcome: ProbeOutcome): (run: Option<CheckRun>)
    ensures run.Some? <==> RedisConfigured(env, caps)
    ensures run.Some? ==> run.value.name == "redis"
    ensures run.Some? ==> |run.value.effects| > 0 && run.value.effects[0] == ConnectRedis(ResolveRedisTarget(env), ConnectTimeout)
  {
    if RedisConfigured(env, caps) then
      Some(ProbeRun("redis", outcome, ConnectRedis(ResolveRedisTarget(env), ConnectTimeout), PingRedis))
    else None
  }

  /** `sys_get_temp_dir() . '/health_check_' . time()`. */
  function ScratchPath(tempDir: string, now: nat): (path: string)
    ensures StartsWith(path, tempDir + "/health_check_")
    ensures DecimalValue(path[|tempDir + "/health_check_"|..]) == now
  {
    var prefix := tempDir + "/health_check_";
    var path := prefix + Decimal(now);
    DecimalRoundTrip(now);
    assert path[..|prefix|] == prefix;
    assert path[|prefix|..] == Decimal(now);
    path
  }

  /**
   The filesystem check: write, read back, unlink, and only then compare the
   content with what was written. An exception at any step skips the rest.
   */
  function FilesystemCheck(rt: Runtime, outcome: ScratchOutcome): (run: CheckRun)
    ensures run.name == "filesystem" && run.info == []
    ensures run.result.Unhealthy? || run.result.Healthy?
    ensures |run.effects| > 0 && run.effects[0] == WriteScratch(ScratchPath(rt.tempDir, rt.scratchNow), ScratchContent)
  {
    var path := ScratchPath(rt.tempDir, rt.scratchNow);
    var write := WriteScratch(path, ScratchContent);
    match outcome.write
    case Raised(m) => CheckRun("filesystem", Unhealthy(m), [], [write])
    case Completed =>
      match outcome.read
      case ReadRaised(m) => CheckRun("filesystem", Unhealthy(m), [], [write, ReadScratch(path)])
      case ReadBack(content) =>
        var effects := [write, ReadScratch(path), UnlinkScratch(path)];
        match outcome.unlink
        case Raised(m) => CheckRun("filesystem", Unhealthy(m), [], effects)
        case Completed =>
          if content == Some(ScratchContent) then CheckRun("filesystem", Healthy, [], effects)
          else CheckRun("filesystem", Unhealthy(MismatchMessage), [], effects)
  }

  /** The opcache check: absent without the introspection function; `disabled`, never `unhealthy`, otherwise. */
  function OpcacheCheck(caps: Capabilities, status: OpcacheStatus): (run: Option<CheckRun>)
    ensures run.Some? <==> caps.opcacheIntrospection
    ensures run.Some? ==> run.value.name == "opcache" && !run.value.result.Unhealthy?
  {
    if !caps.opcacheIntrospection then None
    else match status
      case StatusArray(true, used) =>
        Some(CheckRun("opcache", Healthy, [("opcache_memory_usage", MegabytesUsed(used))], [QueryOpcache]))
      case _ => Some(CheckRun("opcache", Disabled, [], [QueryOpcache]))
  }

  /** The checks in the order the script runs them; `None` for one it skips. */
  function Runs(env: Env, caps: Capabilities, rt: Runtime, o: Outcomes): seq<Option<CheckRun>>
  {
    [DatabaseCheck(env, o.database),
     RedisCheck(env, caps, o.redis),
     Some(FilesystemCheck(rt, o.scratch)),
     OpcacheCheck(caps, o.opcache)]
  }

  /** The script's running state: the `checks` and `info` arrays, `$allHealthy`, and the effects so far. */
  datatype Acc = Acc(
    checks: seq<(string, CheckResult)>,
    info: seq<(string, InfoValue)>,
    allHealthy: bool,
    effects: seq<Effect>)

  /** Records one check: its key is appended, and only a failure clears `$allHealthy`. */
  function Record(acc: Acc, run: CheckRun): (r: Acc)
    ensures |r.checks| == |acc.checks| + 1 && r.checks[|acc.checks|] == (run.name, run.result)
    ensures r.allHealthy <==> acc.allHealthy && !run.result.Unhealthy?
  {
    Acc(acc.checks + [(run.name, run.result)],
        acc.info + run.info,
        acc.allHealthy && !run.result.Unhealthy?,
        acc.effects + run.effects)
  }

  /** Runs the checks in order; a skipped check leaves no trace, and no failure stops the ones after it. */
  function Accumulate(acc: Acc, runs: seq<Option<CheckRun>>): (r: Acc)
    ensures |acc.checks| <= |r.checks| <= |acc.checks| + |runs|
    ensures r.allHealthy ==> acc.allHealthy
    decreases |runs|
  {
    if |runs| == 0 then acc
    else
      var next := if runs[0].Some? then Record(acc, runs[0].value) else acc;
      Accumulate(next, runs[1..])
  }

  function RenderChecks(checks: seq<(string, CheckResult)>): (rendered: seq<(string, string)>)
    ensures |rendered| == |checks|
    ensures forall i :: 0 <= i < |checks| ==>
              rendered[i].0 == checks[i].0 && rendered[i].1 == Render(checks[i].1)
  {
    seq(|checks|, i requires 0 <= i < |checks| => (checks[i].0, Render(checks[i].1)))
  }

  /** The initial `$health['info']`. */
  function BaseInfo(rt: Runtime): seq<(string, InfoValue)>
  {
    [("php_version", Text(rt.phpVersion)), ("hostname", Text(rt.hostname))]
  }

  /** The whole script: run the checks, fold `$allHealthy` into the status and the response code. */
  function RunHealthCheck(env: Env, caps: Capabilities, rt: Runtime, o: Outcomes): (resp: Response)
    ensures resp.code == HealthyCode || resp.code == UnhealthyCode
    ensures resp.report.status == "healthy" <==> resp.code == HealthyCode
    ensures resp.report.status == "unhealthy" <==> resp.code == UnhealthyCode
    ensures resp.report.timestamp == rt.now
  {
    var acc := Accumulate(Acc([], BaseInfo(rt), true, []), Runs(env, caps, rt, o));
    Response(
      HealthReport(if acc.allHealthy then "healthy" else "unhealthy", rt.now, RenderChecks(acc.checks), acc.info),
      if acc.allHealthy then HealthyCode else UnhealthyCode,
      acc.effects)
  }
}
