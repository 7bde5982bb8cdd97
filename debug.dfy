/** The debugging support of strategy scripts: log levels, the log store with its minimum level
    and on/off switch, monitored variables, and per-function execution times. The locks around
    the shared state are plain fields here; clock readings and measured durations are
    parameters. */
module StrategyDebug {
  import opened Wrappers
  import opened Text
  import opened JsValues
  import opened Floats

  // ---------------------------------------------------------------------------------------
  // Log levels

  datatype LogLevel = Debug | Info | Warn | Error

  /** The level's discriminant: `Debug = 0` up to `Error = 3`. */
  function Rank(l: LogLevel): nat {
    match l
      case Debug => 0
      case Info => 1
      case Warn => 2
      case Error => 3
  }

  /** `should_display(min_level)`: the level is at least the minimum. */
  predicate ShouldDisplay(l: LogLevel, minLevel: LogLevel) {
    Rank(l) >= Rank(minLevel)
  }

  /** Display is an order on levels: every level shows at its own minimum, an error shows at any
      minimum, a debug entry only at the debug minimum, and a level shown at one minimum shows
      at every lower one. */
  lemma ShouldDisplayOrder(a: LogLevel, b: LogLevel, c: LogLevel)
    ensures ShouldDisplay(a, a) && ShouldDisplay(Error, a) && ShouldDisplay(a, Debug)
    ensures ShouldDisplay(Debug, a) <==> a == Debug
    ensures ShouldDisplay(a, b) && ShouldDisplay(b, c) ==> ShouldDisplay(a, c)
    ensures ShouldDisplay(a, b) && ShouldDisplay(b, a) ==> a == b
    ensures ShouldDisplay(a, b) || ShouldDisplay(b, a)
    ensures ShouldDisplay(Info, Debug) && !ShouldDisplay(Debug, Info) && !ShouldDisplay(Debug, Error)
  {
  }

  /** `as_str`: the upper-case name. */
  function AsStr(l: LogLevel): (s: string)
    ensures s in {"DEBUG", "INFO", "WARN", "ERROR"}
  {
    match l
      case Debug => "DEBUG"
      case Info => "INFO"
      case Warn => "WARN"
      case Error => "ERROR"
  }

  /** `from_str`: the upper-cased text must be a level name or `WARNING`. */
  function FromStr(s: string): (r: Result<LogLevel, string>)
    ensures r.Err? ==> r.error == "Invalid log level: " + s
    ensures r.Ok? ==> Upper(s) == AsStr(r.value) || (r.value == Warn && Upper(s) == "WARNING")
  {
    var u := Upper(s);
    if u == "DEBUG" then Ok(Debug)
    else if u == "INFO" then Ok(Info)
    else if u == "WARN" || u == "WARNING" then Ok(Warn)
    else if u == "ERROR" then Ok(Error)
    else Err("Invalid log level: " + s)
  }

  /** The upper-case form of the lower-case form of text in capitals is that text. */
  lemma UpperOfLower(s: string)
    requires forall i :: 0 <= i < |s| ==> IsUpperAscii(s[i])
    ensures Upper(Lower(s)) == s
  {
  }

  /** Text in capitals is its own upper-case form, and so is its lower-case form upper-cased. */
  lemma CapitalsFixed(s: string)
    requires forall i :: 0 <= i < |s| ==> IsUpperAscii(s[i])
    ensures Upper(s) == s && Upper(Lower(s)) == s
  {
    UpperFixed(s);
    UpperOfLower(s);
  }

  /** A level's name parses back to it, in its upper-case and its lower-case spelling. */
  lemma LevelRoundTrip(l: LogLevel)
    ensures FromStr(AsStr(l)) == Ok(l)
    ensures FromStr(Lower(AsStr(l))) == Ok(l)
  {
    var name := AsStr(l);
    NameParses(l);
    CapitalsFixed(name);
    FromStrIgnoresCase(name, Lower(name));
  }

  /** A level's upper-case name parses back to it. */
  lemma NameParses(l: LogLevel)
    ensures forall i :: 0 <= i < |AsStr(l)| ==> IsUpperAscii(AsStr(l)[i])
    ensures FromStr(AsStr(l)) == Ok(l)
  {
    match l
      case Debug => ParsesAs("DEBUG");
      case Info => ParsesAs("INFO");
      case Warn => ParsesAs("WARN");
      case Error => ParsesAs("ERROR");
  }

  /** Text in capitals parses as the level `FromStr` picks for its upper-case form. */
  lemma ParsesAs(s: string)
    requires forall i :: 0 <= i < |s| ==> IsUpperAscii(s[i])
    ensures FromStr(s) == (if s == "DEBUG" then Ok(Debug) else if s == "INFO" then Ok(Info)
      else if s == "WARN" || s == "WARNING" then Ok(Warn) else if s == "ERROR" then Ok(Error)
      else Err("Invalid log level: " + s))
  {
    UpperFixed(s);
  }

  /** `WARNING` is accepted for the warning level, in either case. */
  lemma WarningAlias()
    ensures FromStr("WARNING") == Ok(Warn) && FromStr(Lower("WARNING")) == Ok(Warn)
  {
    CapitalsFixed("WARNING");
  }

  /** Parsing ignores case: texts with the same upper-case form parse alike. */
  lemma FromStrIgnoresCase(s: string, t: string)
    requires Upper(s) == Upper(t)
    ensures FromStr(s).Ok? <==> FromStr(t).Ok?
    ensures FromStr(s).Ok? ==> FromStr(s) == FromStr(t)
  {
  }

  /** Exactly the five names are accepted, whatever their case. */
  lemma FromStrExact(s: string)
    ensures FromStr(s).Ok? <==> Upper(s) in {"DEBUG", "INFO", "WARN", "WARNING", "ERROR"}
  {
  }

  // ---------------------------------------------------------------------------------------
  // Log entries and the two filters

  /** `DebugLog`. */
  datatype DebugLog = DebugLog(level: LogLevel, message: string, timestamp: int, line: Option<nat>,
                               functionName: Option<string>, instanceId: Option<string>)

  /** `DebugLog::new(level, message)`, stamped `now`, without location or instance. */
  function NewLog(level: LogLevel, message: string, now: int): DebugLog {
    DebugLog(level, message, now, None, None, None)
  }

  /** `get_logs_by_level(min_level)`: the entries shown at that minimum, in order. */
  function ByLevel(logs: seq<DebugLog>, minLevel: LogLevel): (r: seq<DebugLog>)
    ensures |r| <= |logs|
    ensures forall e :: e in r <==> e in logs && ShouldDisplay(e.level, minLevel)
    decreases |logs|
  {
    if logs == [] then []
    else
      var rest := ByLevel(logs[..|logs| - 1], minLevel);
      var last := logs[|logs| - 1];
      assert logs == logs[..|logs| - 1] + [last];
      if ShouldDisplay(last.level, minLevel) then rest + [last] else rest
  }

  /** `get_logs_since(timestamp)`: the entries stamped at or after the time, in order. */
  function Since(logs: seq<DebugLog>, t: int): (r: seq<DebugLog>)
    ensures |r| <= |logs|
    ensures forall e :: e in r <==> e in logs && e.timestamp >= t
    decreases |logs|
  {
    if logs == [] then []
    else
      var rest := Since(logs[..|logs| - 1], t);
      var last := logs[|logs| - 1];
      assert logs == logs[..|logs| - 1] + [last];
      if last.timestamp >= t then rest + [last] else rest
  }

  /** Filtering by level keeps the order of the entries: filtering a concatenation
      concatenates the filtered parts. */
  lemma {:induction false} ByLevelAppend(a: seq<DebugLog>, b: seq<DebugLog>, minLevel: LogLevel)
    ensures ByLevel(a + b, minLevel) == ByLevel(a, minLevel) + ByLevel(b, minLevel)
    decreases |b|
  {
    if b == [] {
      assert a + b == a;
    } else {
      var b' := b[..|b| - 1];
      assert (a + b)[..|a + b| - 1] == a + b';
      assert (a + b)[|a + b| - 1] == b[|b| - 1];
      ByLevelAppend(a, b', minLevel);
    }
  }

  /** Filtering by time keeps the order of the entries. */
  lemma {:induction false} SinceAppend(a: seq<DebugLog>, b: seq<DebugLog>, t: int)
    ensures Since(a + b, t) == Since(a, t) + Since(b, t)
    decreases |b|
  {
    if b == [] {
      assert a + b == a;
    } else {
      var b' := b[..|b| - 1];
      assert (a + b)[..|a + b| - 1] == a + b';
      assert (a + b)[|a + b| - 1] == b[|b| - 1];
      SinceAppend(a, b', t);
    }
  }

  /** Filtering by the lowest level, or since the earliest stamp, keeps every entry. */
  lemma {:induction false} FiltersKeepAll(logs: seq<DebugLog>, t: int)
    requires forall i :: 0 <= i < |logs| ==> logs[i].timestamp >= t
    ensures ByLevel(logs, Debug) == logs
    ensures Since(logs, t) == logs
    decreases |logs|
  {
    if logs != [] {
      FiltersKeepAll(logs[..|logs| - 1], t);
      assert logs == logs[..|logs| - 1] + [logs[|logs| - 1]];
    }
  }

  /** The number of entries at a level. */
  function CountLevel(logs: seq<DebugLog>, l: LogLevel): nat
    decreases |logs|
  {
    if logs == [] then 0
    else CountLevel(logs[..|logs| - 1], l) + (if logs[|logs| - 1].level == l then 1 else 0)
  }

  /** Appending an entry adds one to the count of its own level and nothing to the others. */
  lemma CountLevelSnoc(logs: seq<DebugLog>, e: DebugLog, l: LogLevel)
    ensures CountLevel(logs + [e], l) == CountLevel(logs, l) + (if e.level == l then 1 else 0)
  {
    assert (logs + [e])[..|logs|] == logs;
  }

  /** What `log(level, message)` leaves in the store: the new entry at the end when logging is
      enabled and the level is shown at the minimum, and the store unchanged otherwise. */
  function Logged(logs: seq<DebugLog>, enabled: bool, minLevel: LogLevel, level: LogLevel,
                  message: string, now: int): seq<DebugLog>
  {
    if enabled && ShouldDisplay(level, minLevel) then logs + [NewLog(level, message, now)] else logs
  }

  /** The four calls `debug`, `info`, `warn`, `error` on an enabled store, in that order. */
  function LogEachLevel(logs: seq<DebugLog>, minLevel: LogLevel, now: int): seq<DebugLog> {
    var a := Logged(logs, true, minLevel, Debug, "Debug", now);
    var b := Logged(a, true, minLevel, Info, "Info", now);
    var c := Logged(b, true, minLevel, Warn, "Warning", now);
    Logged(c, true, minLevel, Error, "Error", now)
  }

  /** Entries below the minimum are not stored at all: under the warning minimum the four calls
      store two entries, and under the default information minimum three. Filtering the two
      by the warning level keeps both. */
  lemma FilteringHappensWhenLogging(now: int)
    ensures |LogEachLevel([], Warn, now)| == 2
    ensures |LogEachLevel([], Info, now)| == 3
    ensures |ByLevel(LogEachLevel([], Warn, now), Warn)| == 2
  {
    var logs := LogEachLevel([], Warn, now);
    FiltersKeepAll(logs, now);
    assert forall e :: e in logs ==> ShouldDisplay(e.level, Warn);
    assert ByLevel(logs, Warn) == ByLevel(logs[..1], Warn) + ByLevel([logs[1]], Warn) by {
      assert logs == logs[..1] + [logs[1]];
      ByLevelAppend(logs[..1], [logs[1]], Warn);
    }
  }

  // ---------------------------------------------------------------------------------------
  // Execution times

  /** The largest of the durations. */
  function MaxOf(xs: seq<real>): (m: real)
    requires xs != []
    ensures m in xs && forall i :: 0 <= i < |xs| ==> xs[i] <= m
    decreases |xs|
  {
    if |xs| == 1 then xs[0]
    else
      var m := MaxOf(xs[..|xs| - 1]);
      assert forall i :: 0 <= i < |xs| - 1 ==> xs[..|xs| - 1][i] == xs[i];
      if xs[|xs| - 1] > m then xs[|xs| - 1] else m
  }

  /** `PerformanceMetrics`. */
  class PerformanceMetrics {
    var executionTimes: map<string, seq<real>>
    var callCounts: map<string, nat>
    var totalExecutionTimeMs: real
    var errorCount: nat
    var warningCount: nat

    /** Each function's call count is the number of durations recorded for it. */
    predicate Valid()
      reads this
    {
      && callCounts.Keys == executionTimes.Keys
      && forall f :: f in callCounts ==> callCounts[f] == |executionTimes[f]|
    }

    /** `default()`: nothing recorded. */
    constructor ()
      ensures Valid()
      ensures executionTimes == map[] && callCounts == map[] && totalExecutionTimeMs == 0.0
      ensures errorCount == 0 && warningCount == 0
    {
      executionTimes := map[];
      callCounts := map[];
      totalExecutionTimeMs := 0.0;
      errorCount := 0;
      warningCount := 0;
    }

    /** `record_execution(function, duration_ms)`: one more call and its duration for the
        function, and the duration added to the total. */
    method RecordExecution(f: string, d: real)
      requires Valid()
      modifies this
      ensures Valid()
      ensures executionTimes == old(executionTimes)[f := (if f in old(executionTimes) then old(executionTimes)[f] else []) + [d]]
      ensures callCounts == old(callCounts)[f := (if f in old(callCounts) then old(callCounts)[f] else 0) + 1]
      ensures totalExecutionTimeMs == old(totalExecutionTimeMs) + d
      ensures errorCount == old(errorCount) && warningCount == old(warningCount)
    {
      var count := if f in callCounts then callCounts[f] else 0;
      callCounts := callCounts[f := count + 1];
      var times := if f in executionTimes then executionTimes[f] else [];
      executionTimes := executionTimes[f := times + [d]];
      totalExecutionTimeMs := totalExecutionTimeMs + d;
    }

    /** The counter bump of a stored log entry: an error or a warning adds one to its counter;
        the other levels and the recorded timings change nothing. */
    method CountLogged(level: LogLevel)
      requires Valid()
      modifies this
      ensures Valid()
      ensures errorCount == old(errorCount) + (if level == Error then 1 else 0)
      ensures warningCount == old(warningCount) + (if level == Warn then 1 else 0)
      ensures executionTimes == old(executionTimes) && callCounts == old(callCounts)
      ensures totalExecutionTimeMs == old(totalExecutionTimeMs)
    {
      if level == Error {
        errorCount := errorCount + 1;
      } else if level == Warn {
        warningCount := warningCount + 1;
      }
    }

    /** `avg_execution_time(function)`: nothing for a function never recorded, zero for an empty
        list, and otherwise the mean. */
    function AvgExecutionTime(f: string): (r: Option<real>)
      reads this
      ensures r.None? <==> f !in executionTimes
      ensures r.Some? && executionTimes[f] == [] ==> r.value == 0.0
      ensures r.Some? && executionTimes[f] != [] ==> r.value * (|executionTimes[f]| as real) == Sum(executionTimes[f])
    {
      if f !in executionTimes then None
      else
        var times := executionTimes[f];
        if times == [] then Some(0.0) else Some(Sum(times) / (|times| as real))
    }

    /** `total_execution_time(function)`. */
    function TotalExecutionTime(f: string): (r: Option<real>)
      reads this
      ensures r.None? <==> f !in executionTimes
      ensures r.Some? ==> r.value == Sum(executionTimes[f])
    {
      if f in executionTimes then Some(Sum(executionTimes[f])) else None
    }

    /** `max_execution_time(function)`: the longest recorded duration, if any. */
    function MaxExecutionTime(f: string): (r: Option<real>)
      reads this
      ensures r.Some? <==> f in executionTimes && executionTimes[f] != []
      ensures r.Some? ==> r.value in executionTimes[f]
      ensures r.Some? ==> forall i :: 0 <= i < |executionTimes[f]| ==> executionTimes[f][i] <= r.value
    {
      if f in executionTimes && executionTimes[f] != [] then Some(MaxOf(executionTimes[f])) else None
    }
  }

  /** `n` recordings of the same duration average to that duration. */
  lemma AverageOfEqual(times: seq<real>, d: real)
    requires times != [] && forall i :: 0 <= i < |times| ==> times[i] == d
    ensures Sum(times) / (|times| as real) == d
  {
    SumConstant(times, d);
  }

  /** `PerformanceTimer::finish`: with a function name set, records the elapsed seconds as
      milliseconds; without one, records nothing. */
  method FinishTimer(metrics: PerformanceMetrics, functionName: Option<string>, elapsedSecs: real)
    requires metrics.Valid()
    modifies metrics
    ensures metrics.Valid()
    ensures functionName.None? ==> unchanged(metrics)
    ensures functionName.Some? ==>
      var f, d := functionName.value, elapsedSecs * 1000.0;
      && metrics.executionTimes == old(metrics.executionTimes)[f := (if f in old(metrics.executionTimes) then old(metrics.executionTimes)[f] else []) + [d]]
      && metrics.callCounts == old(metrics.callCounts)[f := (if f in old(metrics.callCounts) then old(metrics.callCounts)[f] else 0) + 1]
      && metrics.totalExecutionTimeMs == old(metrics.totalExecutionTimeMs) + d
      && metrics.errorCount == old(metrics.errorCount) && metrics.warningCount == old(metrics.warningCount)
  {
    if functionName.Some? {
      metrics.RecordExecution(functionName.value, elapsedSecs * 1000.0);
    }
  }

  // ---------------------------------------------------------------------------------------
  // Variables

  /** `DebugVariable`. */
  datatype DebugVariable = DebugVariable(name: string, value: Json, varType: string, timestamp: int)

  /** The kind name `set_variable` records for a JSON value. */
  function TypeName(v: Json): (t: string)
    ensures t in {"null", "boolean", "number", "string", "array", "object"}
  {
    match v
      case JNull => "null"
      case JBool(_) => "boolean"
      case JNum(_) => "number"
      case JStr(_) => "string"
      case JArr(_) => "array"
      case JObj(_) => "object"
  }

  /** Two values get the same kind name exactly when they are of the same kind. */
  lemma TypeNameByKind(a: Json, b: Json)
    ensures TypeName(a) == TypeName(b) <==>
      (a.JNull? && b.JNull?) || (a.JBool? && b.JBool?) || (a.JNum? && b.JNum?) ||
      (a.JStr? && b.JStr?) || (a.JArr? && b.JArr?) || (a.JObj? && b.JObj?)
  {
  }

  // ---------------------------------------------------------------------------------------
  // The debug context

  /** `DebugContext`. */
  class DebugContext {
    var logs: seq<DebugLog>
    var variables: map<string, DebugVariable>
    const metrics: PerformanceMetrics
    var minLogLevel: LogLevel
    var enabled: bool

    /** The metrics keep their invariant, and the warning and error counters cover at least the
        stored entries of their level (clearing the store keeps the counters). */
    predicate Valid()
      reads this, metrics
    {
      && metrics.Valid()
      && CountLevel(logs, Error) <= metrics.errorCount
      && CountLevel(logs, Warn) <= metrics.warningCount
    }

    /** `new()`: no entries, no variables, no metrics, the information minimum, enabled. */
    constructor ()
      ensures Valid() && fresh(metrics)
      ensures logs == [] && variables == map[] && minLogLevel == Info && enabled
      ensures metrics.executionTimes == map[] && metrics.errorCount == 0 && metrics.warningCount == 0
    {
      logs := [];
      variables := map[];
      metrics := new PerformanceMetrics();
      minLogLevel := Info;
      enabled := true;
    }

    /** `log(level, message)`: stores the entry, stamped `now`, when enabled and shown at the
        minimum level; a stored error or warning bumps its counter. */
    method Log(level: LogLevel, message: string, now: int)
      requires Valid()
      modifies this, metrics
      ensures Valid()
      ensures logs == Logged(old(logs), enabled, minLogLevel, level, message, now)
      ensures var stored := logs != old(logs);
        && metrics.errorCount == old(metrics.errorCount) + (if stored && level == Error then 1 else 0)
        && metrics.warningCount == old(metrics.warningCount) + (if stored && level == Warn then 1 else 0)
      ensures enabled == old(enabled) && minLogLevel == old(minLogLevel) && variables == old(variables)
      ensures metrics.executionTimes == old(metrics.executionTimes) && metrics.callCounts == old(metrics.callCounts)
      ensures metrics.totalExecutionTimeMs == old(metrics.totalExecutionTimeMs)
    {
      if !enabled {
        return;
      }
      if !ShouldDisplay(level, minLogLevel) {
        return;
      }
      var entry := NewLog(level, message, now);
      CountLevelSnoc(logs, entry, Error);
      CountLevelSnoc(logs, entry, Warn);
      assert |logs + [entry]| == |logs| + 1;
      logs := logs + [entry];
      metrics.CountLogged(level);
    }

    /** `set_variable(name, value)`: records the value with its kind name, stamped `now`,
        replacing an earlier one of the same name. */
    method SetVariable(name: string, value: Json, now: int)
      requires Valid()
      modifies this
      ensures Valid()
      ensures variables == old(variables)[name := DebugVariable(name, value, TypeName(value), now)]
      ensures logs == old(logs) && minLogLevel == old(minLogLevel) && enabled == old(enabled)
    {
      variables := variables[name := DebugVariable(name, value, TypeName(value), now)];
    }

    /** `get_variable(name)`. */
    function GetVariable(name: string): (r: Option<DebugVariable>)
      reads this
      ensures r.Some? <==> name in variables
      ensures r.Some? ==> r.value == variables[name]
    {
      if name in variables then Some(variables[name]) else None
    }

    /** `clear_logs()`: empties the store; the counters, variables and settings stay. */
    method ClearLogs()
      requires Valid()
      modifies this
      ensures Valid()
      ensures logs == [] && variables == old(variables)
      ensures minLogLevel == old(minLogLevel) && enabled == old(enabled)
    {
      logs := [];
    }

    /** `set_min_log_level(level)`. */
    method SetMinLogLevel(level: LogLevel)
      requires Valid()
      modifies this
      ensures Valid()
      ensures minLogLevel == level && logs == old(logs) && variables == old(variables) && enabled == old(enabled)
    {
      minLogLevel := level;
    }

    /** `set_enabled(enabled)`. */
    method SetEnabled(on: bool)
      requires Valid()
      modifies this
      ensures Valid()
      ensures enabled == on && logs == old(logs) && variables == old(variables) && minLogLevel == old(minLogLevel)
    {
      enabled := on;
    }
  }

  /** A variable set twice holds the second value. */
  lemma LaterSetOverwrites(vars: map<string, DebugVariable>, name: string, a: Json, b: Json, t1: int, t2: int)
    ensures var after := vars[name := DebugVariable(name, a, TypeName(a), t1)][name := DebugVariable(name, b, TypeName(b), t2)];
      after[name].value == b && after[name].varType == TypeName(b) && after.Keys == vars.Keys + {name}
  {
  }

  /** `get_debug_context(instance_id)`: a new context every time, whatever the instance. */
  method GetDebugContext(instanceId: string) returns (ctx: DebugContext)
    ensures fresh(ctx) && fresh(ctx.metrics) && ctx.Valid()
    ensures ctx.logs == [] && ctx.variables == map[] && ctx.minLogLevel == Info && ctx.enabled
  {
    ctx := new DebugContext();
  }
}
