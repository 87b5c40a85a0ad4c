/**
 What the health endpoint promises, proved of the model in module Health:
 which keys appear in `checks`, what each value is, how the status and the
 response code follow from the values, and the order of the file operations.
 */
module HealthProperties {
  import opened Wrappers
  import opened Php
  import opened Health

  /** The entry a check contributes to `checks`: nothing when it was skipped. */
  function EntryOf(run: Option<CheckRun>): seq<(string, CheckResult)>
  {
    if run.Some? then [(run.value.name, run.value.result)] else []
  }

  function InfoOf(run: Option<CheckRun>): seq<(string, InfoValue)>
  {
    if run.Some? then run.value.info else []
  }

  function EffectsOf(run: Option<CheckRun>): seq<Effect>
  {
    if run.Some? then run.value.effects else []
  }

  /** The concatenation of what each run contributes, in order. */
  function Collect<T>(runs: seq<Option<CheckRun>>, part: Option<CheckRun> -> seq<T>): seq<T>
    decreases |runs|
  {
    if |runs| == 0 then [] else part(runs[0]) + Collect(runs[1..], part)
  }

  function Entries(runs: seq<Option<CheckRun>>): seq<(string, CheckResult)>
  {
    Collect(runs, EntryOf)
  }

  /** The script's four checks contribute in order, one after another. */
  lemma CollectFour<T>(r0: Option<CheckRun>, r1: Option<CheckRun>, r2: Option<CheckRun>, r3: Option<CheckRun>,
                       part: Option<CheckRun> -> seq<T>)
    ensures Collect([r0, r1, r2, r3], part) == part(r0) + part(r1) + part(r2) + part(r3)
  {
    assert Collect([r3], part) == part(r3) by {
      assert [r3][1..] == [];
    }
    assert Collect([r2, r3], part) == part(r2) + part(r3) by {
      assert [r2, r3][1..] == [r3];
    }
    assert Collect([r1, r2, r3], part) == part(r1) + part(r2) + part(r3) by {
      assert [r1, r2, r3][1..] == [r2, r3];
    }
    assert [r0, r1, r2, r3][1..] == [r1, r2, r3];
  }

  predicate NoUnhealthy(checks: seq<(string, CheckResult)>)
  {
    forall i :: 0 <= i < |checks| ==> !checks[i].1.Unhealthy?
  }

  /**
   The fold keeps every check that ran, in order, with its info and effects,
   and `$allHealthy` survives it exactly when no recorded result is a failure.
   */
  lemma AccumulateSpec(acc: Acc, runs: seq<Option<CheckRun>>)
    ensures Accumulate(acc, runs).checks == acc.checks + Entries(runs)
    ensures Accumulate(acc, runs).info == acc.info + Collect(runs, InfoOf)
    ensures Accumulate(acc, runs).effects == acc.effects + Collect(runs, EffectsOf)
    ensures Accumulate(acc, runs).allHealthy <==> acc.allHealthy && NoUnhealthy(Entries(runs))
  {
    AccumulateContents(acc, runs);
    AccumulateHealthy(acc, runs);
  }

  /** The fold's rows, info and effects are the runs' contributions appended in order. */
  lemma {:induction false} AccumulateContents(acc: Acc, runs: seq<Option<CheckRun>>)
    ensures Accumulate(acc, runs).checks == acc.checks + Entries(runs)
    ensures Accumulate(acc, runs).info == acc.info + Collect(runs, InfoOf)
    ensures Accumulate(acc, runs).effects == acc.effects + Collect(runs, EffectsOf)
    decreases |runs|
  {
    if |runs| > 0 {
      var next := if runs[0].Some? then Record(acc, runs[0].value) else acc;
      AccumulateContents(next, runs[1..]);
      assert next.checks == acc.checks + EntryOf(runs[0]);
      assert acc.checks + EntryOf(runs[0]) + Entries(runs[1..]) == acc.checks + Entries(runs);
      assert acc.info + InfoOf(runs[0]) + Collect(runs[1..], InfoOf) == acc.info + Collect(runs, InfoOf);
      assert acc.effects + EffectsOf(runs[0]) + Collect(runs[1..], EffectsOf) == acc.effects + Collect(runs, EffectsOf);
    }
  }

  /** `$allHealthy` survives the fold exactly when it held before and no run is a failure. */
  lemma {:induction false} AccumulateHealthy(acc: Acc, runs: seq<Option<CheckRun>>)
    ensures Accumulate(acc, runs).allHealthy <==> acc.allHealthy && NoUnhealthy(Entries(runs))
    decreases |runs|
  {
    if |runs| > 0 {
      var next := if runs[0].Some? then Record(acc, runs[0].value) else acc;
      AccumulateHealthy(next, runs[1..]);
      assert Entries(runs) == EntryOf(runs[0]) + Entries(runs[1..]);
      NoUnhealthyAppend(EntryOf(runs[0]), Entries(runs[1..]));
    }
  }

  /** The `checks` rows a check contributes, as rendered into the report. */
  function Row(run: Option<CheckRun>): seq<(string, string)>
  {
    if run.Some? then [(run.value.name, Render(run.value.result))] else []
  }

  lemma RenderChecksAppend(a: seq<(string, CheckResult)>, b: seq<(string, CheckResult)>)
    ensures RenderChecks(a + b) == RenderChecks(a) + RenderChecks(b)
  {
  }

  lemma RenderEntryOf(run: Option<CheckRun>)
    ensures RenderChecks(EntryOf(run)) == Row(run)
  {
  }

  /**
   The report's `checks` are the database, redis, filesystem and opcache rows,
   in that order, each present exactly when its check ran.
   */
  lemma ChecksShape(env: Env, caps: Capabilities, rt: Runtime, o: Outcomes)
    ensures RunHealthCheck(env, caps, rt, o).report.checks ==
              Row(DatabaseCheck(env, o.database)) + Row(RedisCheck(env, caps, o.redis))
              + Row(Some(FilesystemCheck(rt, o.scratch))) + Row(OpcacheCheck(caps, o.opcache))
    ensures RunHealthCheck(env, caps, rt, o).report.info ==
              BaseInfo(rt) + InfoOf(OpcacheCheck(caps, o.opcache))
    ensures RunHealthCheck(env, caps, rt, o).effects ==
              EffectsOf(DatabaseCheck(env, o.database)) + EffectsOf(RedisCheck(env, caps, o.redis))
              + FilesystemCheck(rt, o.scratch).effects + EffectsOf(OpcacheCheck(caps, o.opcache))
  {
    FoldFour(rt, DatabaseCheck(env, o.database), RedisCheck(env, caps, o.redis),
             Some(FilesystemCheck(rt, o.scratch)), OpcacheCheck(caps, o.opcache));
  }

  /** Folding four runs from the initial state yields their rows, info and effects in order. */
  lemma FoldFour(rt: Runtime, r0: Option<CheckRun>, r1: Option<CheckRun>, r2: Option<CheckRun>, r3: Option<CheckRun>)
    ensures var acc := Accumulate(Acc([], BaseInfo(rt), true, []), [r0, r1, r2, r3]);
            RenderChecks(acc.checks) == Row(r0) + Row(r1) + Row(r2) + Row(r3)
            && acc.info == BaseInfo(rt) + InfoOf(r0) + InfoOf(r1) + InfoOf(r2) + InfoOf(r3)
            && acc.effects == EffectsOf(r0) + EffectsOf(r1) + EffectsOf(r2) + EffectsOf(r3)
  {
    var acc0 := Acc([], BaseInfo(rt), true, []);
    var runs := [r0, r1, r2, r3];
    AccumulateContents(acc0, runs);
    var acc := Accumulate(acc0, runs);
    CollectFour(r0, r1, r2, r3, InfoOf);
    CollectFour(r0, r1, r2, r3, EffectsOf);
    assert acc.checks == Entries(runs);
    RowsFour(r0, r1, r2, r3);
  }

  lemma RowsFour(r0: Option<CheckRun>, r1: Option<CheckRun>, r2: Option<CheckRun>, r3: Option<CheckRun>)
    ensures RenderChecks(Entries([r0, r1, r2, r3])) == Row(r0) + Row(r1) + Row(r2) + Row(r3)
  {
    CollectFour(r0, r1, r2, r3, EntryOf);
    RenderChecksAppend(EntryOf(r0) + EntryOf(r1) + EntryOf(r2), EntryOf(r3));
    RenderChecksAppend(EntryOf(r0) + EntryOf(r1), EntryOf(r2));
    RenderChecksAppend(EntryOf(r0), EntryOf(r1));
    RenderEntryOf(r0);
    RenderEntryOf(r1);
    RenderEntryOf(r2);
    RenderEntryOf(r3);
  }

  /**
   Reading the report as a client does: a `database`, `redis` or
   `filesystem` key that is there and does not read `healthy` means the status
   is `unhealthy` and the code 503, and so does any key whose value carries
   the failure prefix.
   */
  lemma FailureEntryMakesUnhealthy(env: Env, caps: Capabilities, rt: Runtime, o: Outcomes, key: string)
    ensures var r := RunHealthCheck(env, caps, rt, o);
            (key == "database" || key == "redis" || key == "filesystem")
            && Lookup(r.report.checks, key).Some? && Lookup(r.report.checks, key) != Some("healthy") ==>
              r.report.status == "unhealthy" && r.code == UnhealthyCode
    ensures var r := RunHealthCheck(env, caps, rt, o);
            Lookup(r.report.checks, key).Some? && StartsWith(Lookup(r.report.checks, key).value, UnhealthyPrefix) ==>
              r.report.status == "unhealthy" && r.code == UnhealthyCode
  {
    var r := RunHealthCheck(env, caps, rt, o);
    var v := Lookup(r.report.checks, key);
    if v.Some? && v != Some("healthy") {
      if key == "database" {
        DatabaseEntry(env, caps, rt, o);
      } else if key == "redis" {
        RedisEntry(env, caps, rt, o);
      } else if key == "filesystem" {
        FilesystemValue(env, caps, rt, o);
      }
    }
    if v.Some? && StartsWith(v.value, UnhealthyPrefix) {
      LookupFound(r.report.checks, key);
      StatusIffFailureEntry(env, caps, rt, o);
    }
  }

  /**
   The status is `unhealthy` and the code 503 exactly when some `checks`
   value is a failure entry; otherwise the status is `healthy` and the code 200.
   */
  lemma StatusIffFailureEntry(env: Env, caps: Capabilities, rt: Runtime, o: Outcomes)
    ensures var r := RunHealthCheck(env, caps, rt, o);
            (r.report.status == "unhealthy" && r.code == UnhealthyCode) <==>
              exists i :: 0 <= i < |r.report.checks| && StartsWith(r.report.checks[i].1, UnhealthyPrefix)
    ensures var r := RunHealthCheck(env, caps, rt, o);
            (r.report.status == "healthy" && r.code == HealthyCode) <==>
              forall i :: 0 <= i < |r.report.checks| ==> !StartsWith(r.report.checks[i].1, UnhealthyPrefix)
  {
    StatusOfRuns(rt, Runs(env, caps, rt, o));
  }

  /** `$allHealthy` survives the fold exactly when no rendered row carries the failure prefix. */
  lemma StatusOfRuns(rt: Runtime, runs: seq<Option<CheckRun>>)
    ensures var acc := Accumulate(Acc([], BaseInfo(rt), true, []), runs);
            !acc.allHealthy <==>
              exists i :: 0 <= i < |RenderChecks(acc.checks)| && StartsWith(RenderChecks(acc.checks)[i].1, UnhealthyPrefix)
  {
    var acc0 := Acc([], BaseInfo(rt), true, []);
    AccumulateSpec(acc0, runs);
    var acc := Accumulate(acc0, runs);
    assert acc.checks == Entries(runs);
    RenderedFailures(acc.checks);
  }

  /** A rendered row carries the failure prefix exactly when its result is a failure. */
  lemma RenderedFailures(checks: seq<(string, CheckResult)>)
    ensures NoUnhealthy(checks) <==>
              forall i :: 0 <= i < |RenderChecks(checks)| ==> !StartsWith(RenderChecks(checks)[i].1, UnhealthyPrefix)
  {
    var rendered := RenderChecks(checks);
    if !NoUnhealthy(checks) {
      var i :| 0 <= i < |checks| && checks[i].1.Unhealthy?;
      assert StartsWith(rendered[i].1, UnhealthyPrefix);
    }
  }

  /** The first value recorded under `key`, as a reader of the JSON object sees it. */
  function Lookup(checks: seq<(string, string)>, key: string): Option<string>
    decreases |checks|
  {
    if |checks| == 0 then None
    else if checks[0].0 == key then Some(checks[0].1)
    else Lookup(checks[1..], key)
  }

  lemma {:induction false} LookupAppend(a: seq<(string, string)>, b: seq<(string, string)>, key: string)
    ensures Lookup(a + b, key) == if Lookup(a, key).Some? then Lookup(a, key) else Lookup(b, key)
    decreases |a|
  {
    if |a| == 0 {
      assert a + b == b;
    } else {
      assert (a + b)[0] == a[0];
      assert (a + b)[1..] == a[1..] + b;
      LookupAppend(a[1..], b, key);
    }
  }

  /**
   A key reads a value only when some row carries exactly that key and value,
   and it reads nothing exactly when no row carries the key.
   */
  lemma {:induction false} LookupFound(checks: seq<(string, string)>, key: string)
    ensures Lookup(checks, key).Some? ==>
              exists i :: 0 <= i < |checks| && checks[i] == (key, Lookup(checks, key).value)
    ensures Lookup(checks, key).None? <==> forall i :: 0 <= i < |checks| ==> checks[i].0 != key
    decreases |checks|
  {
    if |checks| > 0 {
      if checks[0].0 == key {
        assert checks[0] == (key, Lookup(checks, key).value);
      } else {
        LookupFound(checks[1..], key);
        if Lookup(checks, key).Some? {
          var i :| 0 <= i < |checks[1..]| && checks[1..][i] == (key, Lookup(checks, key).value);
          assert checks[i + 1] == checks[1..][i];
        }
        forall i | 0 < i < |checks| ensures checks[i] == checks[1..][i - 1] { }
      }
    }
  }

  /** What `key` reads in a report whose rows are those four, in order. */
  lemma LookupRows(r0: Option<CheckRun>, r1: Option<CheckRun>, r2: Option<CheckRun>, r3: Option<CheckRun>, key: string)
    ensures Lookup(Row(r0) + Row(r1) + Row(r2) + Row(r3), key) ==
              if Lookup(Row(r0), key).Some? then Lookup(Row(r0), key)
              else if Lookup(Row(r1), key).Some? then Lookup(Row(r1), key)
              else if Lookup(Row(r2), key).Some? then Lookup(Row(r2), key)
              else Lookup(Row(r3), key)
  {
    LookupAppend(Row(r0) + Row(r1) + Row(r2), Row(r3), key);
    LookupAppend(Row(r0) + Row(r1), Row(r2), key);
    LookupAppend(Row(r0), Row(r1), key);
  }

  /** The reading of a probe's outcome that the report should show: only an exception is a failure. */
  function ProbeVerdict(outcome: ProbeOutcome): CheckResult
  {
    if outcome.Reachable? then Healthy else Unhealthy(outcome.message)
  }

  /**
   The `database` key is there iff `DB_HOST` or `MYSQL_HOST` is truthy (an
   unset, empty or `"0"` host leaves no key, not a `disabled` one), and then
   it shows the probe's verdict.
   */
  lemma DatabaseEntry(env: Env, caps: Capabilities, rt: Runtime, o: Outcomes)
    ensures var checks := RunHealthCheck(env, caps, rt, o).report.checks;
            Lookup(checks, "database") ==
              if Truthy(Getenv(env, "DB_HOST")) || Truthy(Getenv(env, "MYSQL_HOST"))
              then Some(Render(ProbeVerdict(o.database)))
              else None
  {
    ChecksShape(env, caps, rt, o);
    LookupRows(DatabaseCheck(env, o.database), RedisCheck(env, caps, o.redis),
               Some(FilesystemCheck(rt, o.scratch)), OpcacheCheck(caps, o.opcache), "database");
  }

  /** The `redis` key is there iff the extension is loaded and `REDIS_HOST` is truthy, and then it shows the probe's verdict. */
  lemma RedisEntry(env: Env, caps: Capabilities, rt: Runtime, o: Outcomes)
    ensures var checks := RunHealthCheck(env, caps, rt, o).report.checks;
            Lookup(checks, "redis") ==
              if caps.redisExtension && Truthy(Getenv(env, "REDIS_HOST"))
              then Some(Render(ProbeVerdict(o.redis)))
              else None
  {
    ChecksShape(env, caps, rt, o);
    LookupRows(DatabaseCheck(env, o.database), RedisCheck(env, caps, o.redis),
               Some(FilesystemCheck(rt, o.scratch)), OpcacheCheck(caps, o.opcache), "redis");
  }

  /**
   The `filesystem` key is always there. It reads `healthy` iff every file
   step completed and the read-back content is exactly `test`; a completed
   round trip with other content reads the mismatch message, and an exception
   reads its own message.
   */
  lemma FilesystemEntry(env: Env, caps: Capabilities, rt: Runtime, o: Outcomes)
    ensures var checks := RunHealthCheck(env, caps, rt, o).report.checks;
            Lookup(checks, "filesystem").Some?
    ensures var checks := RunHealthCheck(env, caps, rt, o).report.checks;
            Lookup(checks, "filesystem") == Some("healthy") <==>
              o.scratch == ScratchOutcome(Completed, ReadBack(Some(ScratchContent)), Completed)
    ensures var checks := RunHealthCheck(env, caps, rt, o).report.checks;
            o.scratch.write.Completed? && o.scratch.read.ReadBack? && o.scratch.unlink.Completed?
            && o.scratch.read.content != Some(ScratchContent) ==>
              Lookup(checks, "filesystem") == Some(UnhealthyPrefix + MismatchMessage)
    ensures var checks := RunHealthCheck(env, caps, rt, o).report.checks;
            o.scratch.write.Raised? ==> Lookup(checks, "filesystem") == Some(UnhealthyPrefix + o.scratch.write.message)
    ensures var checks := RunHealthCheck(env, caps, rt, o).report.checks;
            o.scratch.write.Completed? && o.scratch.read.ReadRaised? ==>
              Lookup(checks, "filesystem") == Some(UnhealthyPrefix + o.scratch.read.message)
    ensures var checks := RunHealthCheck(env, caps, rt, o).report.checks;
            o.scratch.write.Completed? && o.scratch.read.ReadBack? && o.scratch.unlink.Raised? ==>
              Lookup(checks, "filesystem") == Some(UnhealthyPrefix + o.scratch.unlink.message)
  {
    ChecksShape(env, caps, rt, o);
    LookupRows(DatabaseCheck(env, o.database), RedisCheck(env, caps, o.redis),
               Some(FilesystemCheck(rt, o.scratch)), OpcacheCheck(caps, o.opcache), "filesystem");
  }

  /** The `filesystem` key reads the rendering of the filesystem check's result. */
  lemma FilesystemValue(env: Env, caps: Capabilities, rt: Runtime, o: Outcomes)
    ensures Lookup(RunHealthCheck(env, caps, rt, o).report.checks, "filesystem")
            == Some(Render(FilesystemCheck(rt, o.scratch).result))
  {
    ChecksShape(env, caps, rt, o);
    LookupRows(DatabaseCheck(env, o.database), RedisCheck(env, caps, o.redis),
               Some(FilesystemCheck(rt, o.scratch)), OpcacheCheck(caps, o.opcache), "filesystem");
  }

  /**
   The `opcache` key is there iff `opcache_get_status` exists; it reads
   `healthy` iff the status is an array with the cache enabled, and
   `disabled` otherwise.
   */
  lemma OpcacheEntry(env: Env, caps: Capabilities, rt: Runtime, o: Outcomes)
    ensures var checks := RunHealthCheck(env, caps, rt, o).report.checks;
            Lookup(checks, "opcache") ==
              if !caps.opcacheIntrospection then None
              else if o.opcache.StatusArray? && o.opcache.enabled then Some("healthy")
              else Some("disabled")
  {
    ChecksShape(env, caps, rt, o);
    LookupRows(DatabaseCheck(env, o.database), RedisCheck(env, caps, o.redis),
               Some(FilesystemCheck(rt, o.scratch)), OpcacheCheck(caps, o.opcache), "opcache");
  }

  /** `info` holds the PHP version and the host name, plus the opcache memory only when opcache reads `healthy`. */
  lemma InfoContents(env: Env, caps: Capabilities, rt: Runtime, o: Outcomes)
    ensures var info := RunHealthCheck(env, caps, rt, o).report.info;
            |info| >= 2 && info[..2] == [("php_version", Text(rt.phpVersion)), ("hostname", Text(rt.hostname))]
    ensures var info := RunHealthCheck(env, caps, rt, o).report.info;
            (|info| > 2) <==> caps.opcacheIntrospection && o.opcache.StatusArray? && o.opcache.enabled
    ensures var info := RunHealthCheck(env, caps, rt, o).report.info;
            |info| > 2 ==> info[2..] == [("opcache_memory_usage", MegabytesUsed(o.opcache.usedMemory))]
  {
    ChecksShape(env, caps, rt, o);
  }

  function Keys(checks: seq<(string, string)>): (keys: seq<string>)
    ensures |keys| == |checks|
    ensures forall i :: 0 <= i < |checks| ==> keys[i] == checks[i].0
  {
    seq(|checks|, i requires 0 <= i < |checks| => checks[i].0)
  }

  /** The keys the configuration and the capabilities call for, in the script's order. */
  function ExpectedKeys(env: Env, caps: Capabilities): seq<string>
  {
    (if DatabaseConfigured(env) then ["database"] else [])
    + (if RedisConfigured(env, caps) then ["redis"] else [])
    + ["filesystem"]
    + (if caps.opcacheIntrospection then ["opcache"] else [])
  }

  /**
   The keys of `checks` are determined by configuration and capabilities
   alone, never by what a probe answered, and come in the order database,
   redis, filesystem, opcache, with no key twice.
   */
  lemma CheckKeys(env: Env, caps: Capabilities, rt: Runtime, o: Outcomes)
    ensures Keys(RunHealthCheck(env, caps, rt, o).report.checks) == ExpectedKeys(env, caps)
    ensures var keys := Keys(RunHealthCheck(env, caps, rt, o).report.checks);
            forall i, j :: 0 <= i < j < |keys| ==> keys[i] != keys[j]
  {
    ChecksShape(env, caps, rt, o);
    KeysOfRows(DatabaseCheck(env, o.database), RedisCheck(env, caps, o.redis),
               Some(FilesystemCheck(rt, o.scratch)), OpcacheCheck(caps, o.opcache));
    ExpectedKeysDistinct(env, caps);
  }

  /** The key a check contributes: nothing when it was skipped. */
  function NameOf(run: Option<CheckRun>): seq<string>
  {
    if run.Some? then [run.value.name] else []
  }

  lemma KeysOfRows(r0: Option<CheckRun>, r1: Option<CheckRun>, r2: Option<CheckRun>, r3: Option<CheckRun>)
    ensures Keys(Row(r0) + Row(r1) + Row(r2) + Row(r3)) == NameOf(r0) + NameOf(r1) + NameOf(r2) + NameOf(r3)
  {
    KeysAppend(Row(r0) + Row(r1) + Row(r2), Row(r3));
    KeysAppend(Row(r0) + Row(r1), Row(r2));
    KeysAppend(Row(r0), Row(r1));
  }

  lemma KeysAppend(a: seq<(string, string)>, b: seq<(string, string)>)
    ensures Keys(a + b) == Keys(a) + Keys(b)
  {
  }

  lemma ExpectedKeysDistinct(env: Env, caps: Capabilities)
    ensures var keys := ExpectedKeys(env, caps);
            forall i, j :: 0 <= i < j < |keys| ==> keys[i] != keys[j]
  {
  }

  /** Opcache's entry, `disabled` or not, never changes the status or the code. */
  lemma StatusIgnoresOpcache(env: Env, caps: Capabilities, rt: Runtime, o: Outcomes, s: OpcacheStatus)
    ensures RunHealthCheck(env, caps, rt, o).report.status ==
              RunHealthCheck(env, caps, rt, o.(opcache := s)).report.status
    ensures RunHealthCheck(env, caps, rt, o).code == RunHealthCheck(env, caps, rt, o.(opcache := s)).code
  {
    var r0, r1, r2 := DatabaseCheck(env, o.database), RedisCheck(env, caps, o.redis),
                      Some(FilesystemCheck(rt, o.scratch));
    var acc0 := Acc([], BaseInfo(rt), true, []);
    var runs := Runs(env, caps, rt, o);
    var runs' := Runs(env, caps, rt, o.(opcache := s));
    AccumulateSpec(acc0, runs);
    AccumulateSpec(acc0, runs');
    CollectFour(r0, r1, r2, runs[3], EntryOf);
    CollectFour(r0, r1, r2, runs'[3], EntryOf);
    var pre := EntryOf(r0) + EntryOf(r1) + EntryOf(r2);
    NoUnhealthyAppend(pre, EntryOf(runs[3]));
    NoUnhealthyAppend(pre, EntryOf(runs'[3]));
  }

  lemma NoUnhealthyAppend(a: seq<(string, CheckResult)>, b: seq<(string, CheckResult)>)
    ensures NoUnhealthy(a + b) <==> NoUnhealthy(a) && NoUnhealthy(b)
  {
    if NoUnhealthy(a + b) {
      assert forall i :: 0 <= i < |a| ==> a[i] == (a + b)[i];
      assert forall i :: 0 <= i < |b| ==> b[i] == (a + b)[|a| + i];
    }
    if NoUnhealthy(a) && NoUnhealthy(b) {
      forall i | 0 <= i < |a + b|
        ensures !(a + b)[i].1.Unhealthy?
      {
        if i >= |a| {
          assert (a + b)[i] == b[i - |a|];
        }
      }
    }
  }

  /**
   One probe's outcome changes only its own entry: whatever the database or
   Redis answers, every other key reads the same, so a failure never stops
   the checks after it.
   */
  lemma FailureIsolation(env: Env, caps: Capabilities, rt: Runtime, o: Outcomes, db: ProbeOutcome, redis: ProbeOutcome, key: string)
    ensures key != "database" ==>
              Lookup(RunHealthCheck(env, caps, rt, o).report.checks, key) ==
              Lookup(RunHealthCheck(env, caps, rt, o.(database := db)).report.checks, key)
    ensures key != "redis" ==>
              Lookup(RunHealthCheck(env, caps, rt, o).report.checks, key) ==
              Lookup(RunHealthCheck(env, caps, rt, o.(redis := redis)).report.checks, key)
  {
    DatabaseIsolation(env, caps, rt, o, db, key);
    RedisIsolation(env, caps, rt, o, redis, key);
  }

  lemma DatabaseIsolation(env: Env, caps: Capabilities, rt: Runtime, o: Outcomes, db: ProbeOutcome, key: string)
    ensures key != "database" ==>
              Lookup(RunHealthCheck(env, caps, rt, o).report.checks, key) ==
              Lookup(RunHealthCheck(env, caps, rt, o.(database := db)).report.checks, key)
  {
    ChecksShape(env, caps, rt, o);
    ChecksShape(env, caps, rt, o.(database := db));
    LookupRows(DatabaseCheck(env, o.database), RedisCheck(env, caps, o.redis),
               Some(FilesystemCheck(rt, o.scratch)), OpcacheCheck(caps, o.opcache), key);
    LookupRows(DatabaseCheck(env, db), RedisCheck(env, caps, o.redis),
               Some(FilesystemCheck(rt, o.scratch)), OpcacheCheck(caps, o.opcache), key);
  }

  lemma RedisIsolation(env: Env, caps: Capabilities, rt: Runtime, o: Outcomes, redis: ProbeOutcome, key: string)
    ensures key != "redis" ==>
              Lookup(RunHealthCheck(env, caps, rt, o).report.checks, key) ==
              Lookup(RunHealthCheck(env, caps, rt, o.(redis := redis)).report.checks, key)
  {
    ChecksShape(env, caps, rt, o);
    ChecksShape(env, caps, rt, o.(redis := redis));
    LookupRows(DatabaseCheck(env, o.database), RedisCheck(env, caps, o.redis),
               Some(FilesystemCheck(rt, o.scratch)), OpcacheCheck(caps, o.opcache), key);
    LookupRows(DatabaseCheck(env, o.database), RedisCheck(env, caps, redis),
               Some(FilesystemCheck(rt, o.scratch)), OpcacheCheck(caps, o.opcache), key);
  }

  /** The scratch file is always written, whatever the other checks answered. */
  lemma ScratchAlwaysWritten(env: Env, caps: Capabilities, rt: Runtime, o: Outcomes)
    ensures WriteScratch(ScratchPath(rt.tempDir, rt.scratchNow), ScratchContent) in RunHealthCheck(env, caps, rt, o).effects
  {
    ChecksShape(env, caps, rt, o);
    var fs := FilesystemCheck(rt, o.scratch);
    var pre := EffectsOf(DatabaseCheck(env, o.database)) + EffectsOf(RedisCheck(env, caps, o.redis));
    assert RunHealthCheck(env, caps, rt, o).effects[|pre|] == fs.effects[0];
  }

  /**
   The scratch file is unlinked before its content is compared: the unlink is
   issued iff the write completed and the read returned, and whenever the
   comparison is reached (healthy or mismatch) the unlink is the last step.
   */
  lemma ScratchUnlinkedBeforeCompare(rt: Runtime, o: ScratchOutcome)
    ensures var path := ScratchPath(rt.tempDir, rt.scratchNow);
            UnlinkScratch(path) in FilesystemCheck(rt, o).effects <==> o.write.Completed? && o.read.ReadBack?
    ensures var path := ScratchPath(rt.tempDir, rt.scratchNow);
            var run := FilesystemCheck(rt, o);
            o.write.Completed? && o.read.ReadBack? && o.unlink.Completed? ==>
              run.effects == [WriteScratch(path, ScratchContent), ReadScratch(path), UnlinkScratch(path)]
    ensures FilesystemCheck(rt, o).result == Healthy ==>
              FilesystemCheck(rt, o).effects[|FilesystemCheck(rt, o).effects| - 1] == UnlinkScratch(ScratchPath(rt.tempDir, rt.scratchNow))
  {
  }

  /** Scratch files of requests in different seconds never share a name. */
  lemma ScratchPathsDistinct(tempDir: string, now1: nat, now2: nat)
    requires now1 != now2
    ensures ScratchPath(tempDir, now1) != ScratchPath(tempDir, now2)
  {
  }

  /** When the database check runs, the host it connects to is a truthy environment value, never the fallback. */
  lemma DatabaseHostFromEnv(env: Env)
    requires DatabaseConfigured(env)
    ensures ResolveDbParams(env).host ==
              if Truthy(Getenv(env, "DB_HOST")) then env["DB_HOST"] else env["MYSQL_HOST"]
    ensures Truthy(Some(ResolveDbParams(env).host))
  {
  }

  /** Two requests with the same environment and answers, at different times, agree on status, code and keys. */
  lemma SameShapeAcrossRequests(env: Env, caps: Capabilities, rt: Runtime, o: Outcomes, later: nat, laterScratch: nat)
    ensures var r1 := RunHealthCheck(env, caps, rt, o);
            var r2 := RunHealthCheck(env, caps, rt.(now := later, scratchNow := laterScratch), o);
            r1.report.status == r2.report.status && r1.code == r2.code
            && Keys(r1.report.checks) == Keys(r2.report.checks)
  {
    var rt2 := rt.(now := later, scratchNow := laterScratch);
    CheckKeys(env, caps, rt, o);
    CheckKeys(env, caps, rt2, o);
    ChecksShape(env, caps, rt, o);
    ChecksShape(env, caps, rt2, o);
    assert FilesystemCheck(rt, o.scratch).result == FilesystemCheck(rt2, o.scratch).result;
    StatusIffFailureEntry(env, caps, rt, o);
    StatusIffFailureEntry(env, caps, rt2, o);
    assert RunHealthCheck(env, caps, rt, o).report.checks == RunHealthCheck(env, caps, rt2, o).report.checks;
  }

  /**
   No database or Redis check configured, a sound filesystem and an enabled
   opcache: healthy, 200, two keys.
   */
  lemma ScenarioNoDependencies(env: Env, caps: Capabilities, rt: Runtime, o: Outcomes)
    requires !DatabaseConfigured(env) && !RedisConfigured(env, caps) && caps.opcacheIntrospection
    requires o.scratch == ScratchOutcome(Completed, ReadBack(Some("test")), Completed)
    requires o.opcache.StatusArray? && o.opcache.enabled
    ensures var r := RunHealthCheck(env, caps, rt, o);
            r.report.status == "healthy" && r.code == 200
            && r.report.checks == [("filesystem", "healthy"), ("opcache", "healthy")]
  {
    ChecksShape(env, caps, rt, o);
    StatusIffFailureEntry(env, caps, rt, o);
    var checks := RunHealthCheck(env, caps, rt, o).report.checks;
    assert !StartsWith(checks[0].1, UnhealthyPrefix) && !StartsWith(checks[1].1, UnhealthyPrefix);
  }

  /** `DB_HOST` set but the server unreachable: the database entry is a failure, unhealthy, 503. */
  lemma ScenarioDatabaseDown(env: Env, caps: Capabilities, rt: Runtime, o: Outcomes)
    requires Truthy(Getenv(env, "DB_HOST"))
    requires o.database.ConnectRaised?
    ensures var r := RunHealthCheck(env, caps, rt, o);
            Lookup(r.report.checks, "database") == Some(UnhealthyPrefix + o.database.message)
            && r.report.status == "unhealthy" && r.code == 503
  {
    ChecksShape(env, caps, rt, o);
    StatusIffFailureEntry(env, caps, rt, o);
    var checks := RunHealthCheck(env, caps, rt, o).report.checks;
    assert checks[0].1 == UnhealthyPrefix + o.database.message;
    assert StartsWith(checks[0].1, UnhealthyPrefix);
  }

  /** The scratch write throws: the filesystem entry is a failure, unhealthy, 503, and nothing after the write is attempted. */
  lemma ScenarioScratchWriteFails(env: Env, caps: Capabilities, rt: Runtime, o: Outcomes)
    requires o.scratch.write.Raised?
    ensures var r := RunHealthCheck(env, caps, rt, o);
            Lookup(r.report.checks, "filesystem") == Some(UnhealthyPrefix + o.scratch.write.message)
            && r.report.status == "unhealthy" && r.code == 503
    ensures FilesystemCheck(rt, o.scratch).effects == [WriteScratch(ScratchPath(rt.tempDir, rt.scratchNow), ScratchContent)]
  {
    FilesystemEntry(env, caps, rt, o);
    ChecksShape(env, caps, rt, o);
    StatusIffFailureEntry(env, caps, rt, o);
    var checks := RunHealthCheck(env, caps, rt, o).report.checks;
    var i := |Row(DatabaseCheck(env, o.database)) + Row(RedisCheck(env, caps, o.redis))|;
    assert checks[i].1 == UnhealthyPrefix + o.scratch.write.message;
    assert StartsWith(checks[i].1, UnhealthyPrefix);
  }
}
