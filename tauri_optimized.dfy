/** The front end's optimised Tauri wrapper: a TTL request cache keyed by command and JSON
    arguments, a retry loop that races each call against a timer, and the conversion of every
    failure into an `ApiError`. The transport and the clock are inputs. */
module TauriOptimized {
  import opened Wrappers
  import opened Text
  import opened JsValues

  /** `ApiError`; `code`, `details` and `requestId` keep whatever value the envelope held. */
  datatype ApiError = ApiError(message: string, code: Option<Json>, details: Option<Json>, requestId: Option<Json>)

  /** `new Error(message)` turns its argument into the message text; `undefined` gives "". */
  function ErrorMessage(v: Option<Json>): (m: string)
    ensures v.None? ==> m == ""
    ensures v.Some? && v.value.JStr? ==> m == v.value.s
  {
    if v.None? then "" else ToText(v)
  }

  function FieldOf(v: Option<Json>, key: string): Option<Json> {
    if v.Some? then Field(v.value, key) else None
  }

  /** `ApiError.fromResponse`: no error when `success` is truthy or `error` is falsy; otherwise
      the envelope's message, code, details and `request_id`. */
  function FromResponse(response: Json): (r: Option<ApiError>)
    ensures r.None? <==> Truthy(Field(response, "success")) || !Truthy(Field(response, "error"))
    ensures r.Some? ==>
      var error := Field(response, "error");
      r.value == ApiError(ErrorMessage(FieldOf(error, "message")), FieldOf(error, "code"),
                          FieldOf(error, "details"), Field(response, "request_id"))
  {
    if Truthy(Field(response, "success")) || !Truthy(Field(response, "error")) then None
    else
      var error := Field(response, "error");
      Some(ApiError(ErrorMessage(FieldOf(error, "message")), FieldOf(error, "code"),
                    FieldOf(error, "details"), Field(response, "request_id")))
  }

  /** `getCacheKey`: the command, a colon, and the JSON text of the arguments when given. */
  function CacheKey(cmd: string, args: Option<Json>): (key: string)
    ensures StartsWith(key, cmd + ":")
    ensures !Truthy(args) ==> key == cmd + ":"
    ensures Truthy(args) ==> key[|cmd| + 1..] == Stringify(args.value)
  {
    if Truthy(args) then cmd + ":" + Stringify(args.value) else cmd + ":"
  }

  /** For one command, two argument objects share a cache key exactly when they list the same
      fields with the same values in the same order. */
  lemma CacheKeyDeterminesArgs(cmd: string, a: seq<(string, Json)>, b: seq<(string, Json)>)
    ensures CacheKey(cmd, Some(JObj(a))) == CacheKey(cmd, Some(JObj(b))) <==> a == b
  {
    var ka, kb := CacheKey(cmd, Some(JObj(a))), CacheKey(cmd, Some(JObj(b)));
    if ka == kb {
      assert Stringify(JObj(a)) == ka[|cmd| + 1..] == kb[|cmd| + 1..] == Stringify(JObj(b));
      StringifyInjective(JObj(a), JObj(b));
    }
  }

  /** Hence the key depends on the order in which the fields were written. */
  lemma CacheKeyOrderSensitive(cmd: string, x: Json, y: Json)
    ensures CacheKey(cmd, Some(JObj([("a", x), ("b", y)]))) != CacheKey(cmd, Some(JObj([("b", y), ("a", x)])))
  {
    CacheKeyDeterminesArgs(cmd, [("a", x), ("b", y)], [("b", y), ("a", x)]);
  }

  datatype CacheEntry = CacheEntry(data: Json, timestamp: int)

  /** `RequestCache`: a map from keys to data and the time it was stored. */
  class RequestCache {
    var cache: map<string, CacheEntry>
    const enableCache: bool
    const cacheTimeout: int

    constructor (enableCache: bool, cacheTimeout: int)
      ensures cache == map[] && this.enableCache == enableCache && this.cacheTimeout == cacheTimeout
    {
      cache := map[];
      this.enableCache := enableCache;
      this.cacheTimeout := cacheTimeout;
    }

    /** Whether the entry for `key` is older than the timeout at `now`. */
    predicate Expired(key: string, now: int)
      reads this
      requires key in cache
    {
      now - cache[key].timestamp > cacheTimeout
    }

    /** What `get(key)` returns at `now`: `null` when caching is off, the key is absent or its
        entry has expired. */
    function Lookup(key: string, now: int): (r: Json)
      reads this
      ensures !enableCache || key !in cache ==> r == JNull
      ensures r != JNull ==> enableCache && key in cache && now - cache[key].timestamp <= cacheTimeout &&
                             r == cache[key].data
      ensures enableCache && key in cache && now - cache[key].timestamp <= cacheTimeout ==> r == cache[key].data
    {
      if !enableCache || key !in cache then JNull
      else if now - cache[key].timestamp > cacheTimeout then JNull
      else cache[key].data
    }

    /** `get(key)`: also deletes an expired entry. */
    method Get(key: string, now: int) returns (r: Json)
      modifies this
      ensures r == old(Lookup(key, now))
      ensures cache == if enableCache && key in old(cache) && old(Expired(key, now))
                       then old(cache) - {key} else old(cache)
    {
      if !enableCache {
        return JNull;
      }
      if key !in cache {
        return JNull;
      }
      var age := now - cache[key].timestamp;
      if age > cacheTimeout {
        cache := cache - {key};
        return JNull;
      }
      return cache[key].data;
    }

    /** `set(key, data)`: stores the data with the current time, without any capacity bound;
        nothing happens when caching is off. */
    method Set(key: string, data: Json, now: int)
      modifies this
      ensures cache == if enableCache then old(cache)[key := CacheEntry(data, now)] else old(cache)
    {
      if !enableCache {
        return;
      }
      cache := cache[key := CacheEntry(data, now)];
    }

    /** `invalidate(pattern)`: with no (or an empty) pattern everything goes; otherwise exactly
        the keys the regular expression accepts. `test` stands for `new RegExp(pattern).test`. */
    method Invalidate(pattern: Option<string>, test: string -> bool)
      modifies this
      ensures pattern.None? || pattern.value == "" ==> cache == map[]
      ensures pattern.Some? && pattern.value != "" ==>
        cache == map k | k in old(cache) && !test(k) :: old(cache)[k]
    {
      if pattern.None? || pattern.value == "" {
        cache := map[];
        return;
      }
      var keys := cache.Keys;
      var kept := cache;
      while keys != {}
        invariant keys <= old(cache).Keys
        invariant kept.Keys <= old(cache).Keys
        invariant forall k :: k in old(cache) && k !in keys ==> (k in kept <==> !test(k))
        invariant forall k :: k in keys ==> k in kept
        invariant forall k :: k in kept ==> kept[k] == old(cache)[k]
        decreases keys
      {
        var k :| k in keys;
        if test(k) {
          kept := kept - {k};
        }
        keys := keys - {k};
      }
      cache := kept;
    }

    /** `clear()`. */
    method Clear()
      modifies this
      ensures cache == map[]
    {
      cache := map[];
    }
  }

  /** What a `catch` in `invokeCore` can receive. */
  datatype Failure =
    | Api(err: ApiError)
    | OtherError(message: string, stack: Option<string>)   // any other `Error`
    | NonError(value: Option<Json>)                         // a thrown non-`Error` value

  /** What `Promise.race([tauriInvoke(...), timer])` settles to on one attempt; `at` is the
      time it settles. */
  datatype Outcome =
    | Resolved(response: Json, at: int)
    | Rejected(reason: Failure)
    | TimedOut(stack: Option<string>)

  /** The `Error` the timer rejects with. */
  function TimeoutError(timeout: int, stack: Option<string>): (f: Failure)
    ensures f.OtherError? && Contains(f.message, "Timeout")
  {
    assert StartsWith("Timeout after " + NumText(timeout) + "ms", "Timeout");
    OtherError("Timeout after " + NumText(timeout) + "ms", stack)
  }

  /** `lastError.message.includes('Timeout')`: a string message is searched, an array message
      is asked whether it holds the string `Timeout`; on any other thrown value V8 raises the
      `TypeError` given as the error. */
  function MentionsTimeout(f: Failure): (r: Result<bool, Failure>)
    ensures f.Api? ==> r == Ok(Contains(f.err.message, "Timeout"))
    ensures f.OtherError? ==> r == Ok(Contains(f.message, "Timeout"))
    ensures r.Err? ==> f.NonError? && r.error.OtherError?
  {
    match f
    case Api(e) => Ok(Contains(e.message, "Timeout"))
    case OtherError(m, _) => Ok(Contains(m, "Timeout"))
    case NonError(v) =>
      if v.None? then Err(OtherError("Cannot read properties of undefined (reading 'message')", None))
      else if v.value.JNull? then Err(OtherError("Cannot read properties of null (reading 'message')", None))
      else
        match FieldOf(v, "message")
        case None => Err(OtherError("Cannot read properties of undefined (reading 'includes')", None))
        case Some(JNull) => Err(OtherError("Cannot read properties of null (reading 'includes')", None))
        case Some(JStr(m)) => Ok(Contains(m, "Timeout"))
        case Some(JArr(items)) => Ok(JStr("Timeout") in items)
        case Some(_) => Err(OtherError("lastError.message.includes is not a function", None))
  }

  /** JavaScript truthiness of a caught value: errors are objects, hence truthy. */
  predicate FailureTruthy(f: Failure) {
    match f
    case NonError(v) => Truthy(v)
    case _ => true
  }

  /** The result of one `invokeCore` run after the cache lookup missed: its result, the data to
      store in the cache and when, the number of transport calls and the delays waited. */
  datatype CoreRun = CoreRun(result: Result<Option<Json>, Failure>, store: Option<(Json, int)>,
                             calls: nat, waits: seq<int>)

  /** One pass of the loop body of `invokeCore` on attempt `k` of `budget`: it finishes with
      the result and the data to cache, or waits and goes on to the next attempt. */
  datatype Step =
    | Finish(result: Result<Option<Json>, Failure>, store: Option<(Json, int)>)
    | Next(wait: int, failure: Failure)

  function Decide(retry: bool, timeout: int, budget: int, k: nat, o: Outcome): (s: Step)
    ensures s.Next? ==> retry && k < budget && s.wait == 1000 * k && MentionsTimeout(s.failure) == Ok(true)
    ensures s.Next? && o.Rejected? ==> s.failure == o.reason
    ensures s.Next? && o.TimedOut? ==> s.failure == TimeoutError(timeout, o.stack)
    ensures s.Next? && o.Resolved? ==> FromResponse(o.response).Some? && s.failure == Api(FromResponse(o.response).value)
    ensures s.Finish? && s.result.Ok? ==> o.Resolved?
    ensures s.Finish? && s.store.Some? ==> s.result == Ok(Some(s.store.value.0))
  {
    var caught: Option<Failure> :=
      match o
      case Resolved(response, _) =>
        if response.JObj? && HasKey(response, "success") && !Truthy(Field(response, "success")) &&
           FromResponse(response).Some?
        then Some(Api(FromResponse(response).value)) else None
      case Rejected(reason) => Some(reason)
      case TimedOut(stack) => Some(TimeoutError(timeout, stack));
    if caught.None? then
      // `o` resolved and was not a failure envelope.
      var response := o.response;
      if response.JObj? && HasKey(response, "success") then
        var data := Field(response, "data");
        Finish(Ok(data), if data.Some? then Some((data.value, o.at)) else None)
      else Finish(Ok(Some(response)), Some((response, o.at)))
    else
      var f := caught.value;
      var thrown := Finish(Err(if FailureTruthy(f) then f else OtherError("Unknown error", None)), None);
      if retry && k < budget then
        match MentionsTimeout(f)
        case Err(typeError) => Finish(Err(typeError), None)
        case Ok(timedOut) => if timedOut then Next(1000 * k, f) else thrown
      else thrown
  }

  /** The loop of `invokeCore` from attempt `k` on. */
  function CoreLoop(retry: bool, timeout: int, env: nat -> Outcome, k: nat): (run: CoreRun)
    requires k >= 1
    ensures run.store.Some? ==> run.result == Ok(Some(run.store.value.0))
    ensures |run.waits| <= run.calls
    decreases if k <= Budget(retry) then Budget(retry) - k + 1 else 0
  {
    if k > Budget(retry) then CoreRun(Err(OtherError("Unknown error", None)), None, 0, [])
    else match Decide(retry, timeout, Budget(retry), k, env(k))
      case Finish(result, store) => CoreRun(result, store, 1, [])
      case Next(wait, _) =>
        var rest := CoreLoop(retry, timeout, env, k + 1);
        rest.(calls := rest.calls + 1, waits := [wait] + rest.waits)
  }

  /** `retry ? DEFAULT_CONFIG.retryAttempts : 1`. */
  function Budget(retry: bool): int { if retry then 3 else 1 }

  /** At most three calls (one without retrying), and a wait of `1000 * k` separates attempt
      `k` from the next. */
  lemma {:induction false} CoreLoopBounds(retry: bool, timeout: int, env: nat -> Outcome, k: nat)
    requires 1 <= k
    ensures var run := CoreLoop(retry, timeout, env, k);
      k <= Budget(retry) ==> 1 <= run.calls <= Budget(retry) - k + 1 && |run.waits| == run.calls - 1
    ensures forall i :: 0 <= i < |CoreLoop(retry, timeout, env, k).waits| ==>
      CoreLoop(retry, timeout, env, k).waits[i] == 1000 * (k + i)
    decreases if k <= Budget(retry) then Budget(retry) - k + 1 else 0
  {
    if k <= Budget(retry) {
      CoreLoopBounds(retry, timeout, env, k + 1);
    }
  }

  /** A timeout on an attempt that is not the last is retried when retrying is on. */
  lemma TimeoutRetried(timeout: int, env: nat -> Outcome, k: nat)
    requires 1 <= k < 3 && env(k).TimedOut?
    ensures Decide(true, timeout, 3, k, env(k)) == Next(1000 * k, TimeoutError(timeout, env(k).stack))
  {
  }

  /** A `success:false` envelope without `error` is not a failure: its `data` is returned. */
  lemma FailureEnvelopeWithoutError(retry: bool, timeout: int, budget: int, k: nat, response: Json, at: int)
    requires response.JObj? && Field(response, "success") == Some(JBool(false))
    requires Field(response, "error").None?
    ensures Decide(retry, timeout, budget, k, Resolved(response, at)).result == Ok(Field(response, "data"))
  {
  }

  /** `invokeCore(cmd, args, options)` against the module's cache instance. A cache hit returns
      without any call; otherwise the loop runs as `CoreLoop` describes and its data, if any, is
      stored. */
  method InvokeCore(cache: RequestCache, cmd: string, args: Option<Json>, retry: Option<bool>,
                    useCache: Option<bool>, timeout: Option<int>, start: int, env: nat -> Outcome)
    returns (result: Result<Option<Json>, Failure>, calls: nat, waits: seq<int>)
    modifies cache
    ensures var key := CacheKey(cmd, args);
      var hit := useCache.GetOr(true) && old(cache.Lookup(key, start)) != JNull;
      var afterGet := if useCache.GetOr(true) && cache.enableCache && key in old(cache.cache) &&
                          old(cache.Expired(key, start))
                       then old(cache.cache) - {key} else old(cache.cache);
      var run := CoreLoop(retry.GetOr(true), timeout.GetOr(30000), env, 1);
      if hit then result == Ok(Some(old(cache.Lookup(key, start)))) && calls == 0 && waits == [] &&
                  cache.cache == old(cache.cache)
      else result == run.result && calls == run.calls && waits == run.waits &&
           cache.cache == if run.store.Some? && cache.enableCache
                          then afterGet[key := CacheEntry(run.store.value.0, run.store.value.1)]
                          else afterGet
  {
    var doRetry := retry.GetOr(true);
    var doCache := useCache.GetOr(true);
    var ms := timeout.GetOr(30000);
    var cacheKey := CacheKey(cmd, args);
    if doCache {
      var cached := cache.Get(cacheKey, start);
      if cached != JNull {
        return Ok(Some(cached)), 0, [];
      }
    }
    result, calls, waits := Attempts(cache, cacheKey, doRetry, ms, env);
  }

  /** The retry loop of `invokeCore` after the cache lookup missed: it runs as `CoreLoop`
      describes and stores the data it returns, if any, under `key`. */
  method Attempts(cache: RequestCache, key: string, doRetry: bool, ms: int, env: nat -> Outcome)
    returns (result: Result<Option<Json>, Failure>, calls: nat, waits: seq<int>)
    modifies cache
    ensures var run := CoreLoop(doRetry, ms, env, 1);
      result == run.result && calls == run.calls && waits == run.waits &&
      cache.cache == if run.store.Some? && cache.enableCache
                     then old(cache.cache)[key := CacheEntry(run.store.value.0, run.store.value.1)]
                     else old(cache.cache)
  {
    var retryAttempts := Budget(doRetry);
    calls, waits := 0, [];
    var attempt := 1;
    while attempt <= retryAttempts
      invariant 1 <= attempt <= retryAttempts + 1
      invariant cache.cache == old(cache.cache)
      invariant calls == attempt - 1 && |waits| == calls
      invariant var rest := CoreLoop(doRetry, ms, env, attempt);
        CoreLoop(doRetry, ms, env, 1) == rest.(calls := calls + rest.calls, waits := waits + rest.waits)
      decreases retryAttempts - attempt + 1
    {
      var step := Decide(doRetry, ms, retryAttempts, attempt, env(attempt));
      calls := calls + 1;
      match step
      case Finish(r, store) =>
        if store.Some? {
          cache.Set(key, store.value.0, store.value.1);
        }
        return r, calls, waits;
      case Next(wait, _) =>
        var rest := CoreLoop(doRetry, ms, env, attempt + 1);
        assert waits + ([wait] + rest.waits) == (waits + [wait]) + rest.waits;
        waits := waits + [wait];
        attempt := attempt + 1;
    }
    result := Err(OtherError("Unknown error", None));
  }

  /** `invoke`: an `ApiError` passes through, another `Error` becomes `NETWORK_ERROR` with its
      message (or `请求失败`) and stack, anything else `UNKNOWN_ERROR` with its text. */
  function ToApiError(f: Failure): (e: ApiError)
    ensures f.Api? ==> e == f.err
    ensures f.OtherError? ==>
              e.code == Some(JStr("NETWORK_ERROR")) && e.message == (if f.message != "" then f.message else "请求失败")
    ensures f.NonError? ==> e == ApiError("未知错误", Some(JStr("UNKNOWN_ERROR")), Some(JStr(ToText(f.value))), None)
  {
    match f
    case Api(e) => e
    case OtherError(m, stack) =>
      ApiError(if m != "" then m else "请求失败", Some(JStr("NETWORK_ERROR")),
               if stack.Some? then Some(JStr(stack.value)) else None, None)
    case NonError(v) => ApiError("未知错误", Some(JStr("UNKNOWN_ERROR")), Some(JStr(ToText(v))), None)
  }

  method Invoke(cache: RequestCache, cmd: string, args: Option<Json>, retry: Option<bool>,
                useCache: Option<bool>, timeout: Option<int>, start: int, env: nat -> Outcome)
    returns (result: Result<Option<Json>, ApiError>)
    modifies cache
    ensures var key := CacheKey(cmd, args);
      var hit := useCache.GetOr(true) && old(cache.Lookup(key, start)) != JNull;
      var run := CoreLoop(retry.GetOr(true), timeout.GetOr(30000), env, 1);
      result == if hit then Ok(Some(old(cache.Lookup(key, start))))
                else if run.result.Ok? then Ok(run.result.value) else Err(ToApiError(run.result.error))
  {
    var r, _, _ := InvokeCore(cache, cmd, args, retry, useCache, timeout, start, env);
    match r
    case Ok(v) => result := Ok(v);
    case Err(f) => result := Err(ToApiError(f));
  }
}
