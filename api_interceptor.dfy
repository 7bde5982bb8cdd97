/** The front end's `ApiInterceptor`: calls a Tauri command with a counted retry loop, unwraps
    the `{success, data, error}` envelope, injects the access token and refreshes it once on an
    authentication failure through a single-flight flag. The transport, the token store and
    the refresh call are inputs: `env(k)` says what each of them does on attempt `k`. */
module ApiInterceptor {
  import opened Wrappers
  import opened Text
  import opened JsValues

  /** `ApiInterceptorError`; `code` holds the text of whatever the envelope carried. */
  datatype InterceptorError = InterceptorError(message: string, code: string, details: Option<Json>, isAuthError: bool)

  /** `new ApiInterceptorError(message, code, details)`. */
  function NewError(message: string, code: string, details: Option<Json>): (e: InterceptorError)
    ensures e.message == message && e.code == code && e.details == details
    ensures e.isAuthError <==> code == "UNAUTHORIZED" || code == "TOKEN_EXPIRED"
  {
    InterceptorError(message, code, details, code == "UNAUTHORIZED" || code == "TOKEN_EXPIRED")
  }

  /** What a `catch` in `request` can receive. */
  datatype Failure =
    | Interceptor(err: InterceptorError)
    | OtherError(message: string, stack: Option<string>)   // any other `Error`
    | NonError(value: Option<Json>)                         // a thrown non-`Error` value

  datatype Config = Config(retryAttempts: int, retryDelay: int, enableAuth: bool, enableRetry: bool)

  const DefaultConfig := Config(3, 1000, true, true)

  /** `{ ...DEFAULT_CONFIG, ...config }`. */
  function MergeConfig(retryAttempts: Option<int>, retryDelay: Option<int>,
                       enableAuth: Option<bool>, enableRetry: Option<bool>): (c: Config)
    ensures c.retryAttempts == retryAttempts.GetOr(3) && c.retryDelay == retryDelay.GetOr(1000)
    ensures c.enableAuth == enableAuth.GetOr(true) && c.enableRetry == enableRetry.GetOr(true)
  {
    Config(retryAttempts.GetOr(DefaultConfig.retryAttempts), retryDelay.GetOr(DefaultConfig.retryDelay),
           enableAuth.GetOr(DefaultConfig.enableAuth), enableRetry.GetOr(DefaultConfig.enableRetry))
  }

  /** The number of attempts `request` allows: `retryAttempts` with retrying on, one without. */
  function AttemptBudget(c: Config): (n: int)
    ensures c.enableRetry ==> n == c.retryAttempts
    ensures !c.enableRetry ==> n == 1
  {
    if c.enableRetry then c.retryAttempts else 1
  }

  /** What `getAccessToken()` does on one attempt. */
  datatype TokenLookup = Token(value: string) | NoToken | LookupThrows

  /** What `userStore.refreshAccessToken()` does when a refresh is started. */
  datatype RefreshCall = Refreshed | NotRefreshed | RefreshThrows

  /** What `tauriInvoke` does on one attempt. */
  datatype Outcome = Resolved(response: Json) | Rejected(reason: Failure)

  datatype Attempt = Attempt(token: TokenLookup, outcome: Outcome, refresh: RefreshCall)

  type Args = seq<(string, Json)>

  /** `injectAuth`: the arguments (or `{}`) unchanged when auth is disabled, no token is stored
      or the lookup throws; otherwise the arguments with `_auth` set to the token. */
  function InjectAuth(c: Config, args: Option<Args>, token: TokenLookup): (r: Args)
    ensures !c.enableAuth || !token.Token? || token.value == "" ==> r == args.GetOr([])
    ensures c.enableAuth && token.Token? && token.value != "" ==>
      FieldIn(r, "_auth") == Some(JStr(token.value)) &&
      forall k :: k != "_auth" ==> FieldIn(r, k) == FieldIn(args.GetOr([]), k)
  {
    if !c.enableAuth then args.GetOr([])
    else match token
      case Token(t) => if t == "" then args.GetOr([]) else SetField(args.GetOr([]), "_auth", JStr(t))
      case _ => args.GetOr([])
  }

  /** `doTokenRefresh`: a thrown error counts as a failed refresh. */
  function DoRefresh(r: RefreshCall): (ok: bool)
    ensures ok <==> r == Refreshed
  {
    match r
    case Refreshed => true
    case _ => false
  }

  /** The body of the `try` after the call resolved: a `success:false` envelope becomes an
      `ApiInterceptorError`, a `success:true` envelope yields `data`, anything else is returned
      unchanged. `None` in the result stands for `undefined`. */
  function HandleResponse(response: Json): (r: Result<Option<Json>, Failure>)
    ensures !(response.JObj? && HasKey(response, "success")) ==> r == Ok(Some(response))
    ensures response.JObj? && HasKey(response, "success") && Truthy(Field(response, "success")) ==>
      r == Ok(Field(response, "data"))
    ensures response.JObj? && HasKey(response, "success") && !Truthy(Field(response, "success")) ==>
      var error := Field(response, "error");
      var message := if error.Some? then Field(error.value, "message") else None;
      var code := if error.Some? then Field(error.value, "code") else None;
      r.Err? && r.error.Interceptor? &&
      r.error.err.message == (if Truthy(message) then ToText(message) else "Operation failed") &&
      r.error.err.code == (if Truthy(code) then ToText(code) else "UNKNOWN_ERROR") &&
      r.error.err.details == (if error.Some? then Field(error.value, "details") else None)
  {
    if response.JObj? && HasKey(response, "success") then
      if !Truthy(Field(response, "success")) then
        var error := Field(response, "error");
        var message := if error.Some? then Field(error.value, "message") else None;
        var code := if error.Some? then Field(error.value, "code") else None;
        var details := if error.Some? then Field(error.value, "details") else None;
        Err(Interceptor(NewError(if Truthy(message) then ToText(message) else "Operation failed",
                                 if Truthy(code) then ToText(code) else "UNKNOWN_ERROR", details)))
      else Ok(Field(response, "data"))
    else Ok(Some(response))
  }

  /** `isRetryableError`: authentication errors and thrown non-`Error` values are never
      retried. */
  predicate IsRetryable(f: Failure)
    ensures IsRetryable(f) ==> !f.NonError?
    ensures f.Interceptor? && f.err.isAuthError ==> !IsRetryable(f)
  {
    match f
    case Interceptor(e) => !e.isAuthError && (e.code == "NETWORK_ERROR" || e.code == "TIMEOUT")
    case OtherError(m, _) =>
      var lower := Lower(m);
      Contains(lower, "timeout") || Contains(lower, "network") || Contains(lower, "fetch")
    case NonError(_) => false
  }

  /** The conversion after the loop: an `ApiInterceptorError` is rethrown, another `Error`
      becomes `NETWORK_ERROR` with its message and stack, anything else `UNKNOWN_ERROR`. */
  function FinalError(last: Option<Failure>): (e: InterceptorError)
    ensures last.Some? && last.value.Interceptor? ==> e == last.value.err
    ensures last.Some? && last.value.OtherError? ==>
      e.code == "NETWORK_ERROR" && !e.isAuthError &&
      e.message == (if last.value.message != "" then last.value.message else "请求失败")
    ensures last.None? || last.value.NonError? ==> e.code == "UNKNOWN_ERROR" && e.message == "未知错误"
  {
    match last
    case Some(Interceptor(err)) => err
    case Some(OtherError(m, stack)) =>
      NewError(if m != "" then m else "请求失败", "NETWORK_ERROR",
               if stack.Some? then Some(JStr(stack.value)) else None)
    case Some(NonError(v)) => NewError("未知错误", "UNKNOWN_ERROR", Some(JStr(ToText(v))))
    case None => NewError("未知错误", "UNKNOWN_ERROR", Some(JStr("null")))
  }

  /** One run of `request`: its result, the arguments sent on each call of the transport, the
      delays waited between attempts and whether the session ended in `handleAuthFailure`. */
  datatype Run = Run(result: Result<Option<Json>, InterceptorError>, sent: seq<Args>, waits: seq<int>,
                     loggedOut: bool)

  function Continue(sent: Args, wait: seq<int>, rest: Run): Run {
    rest.(sent := [sent] + rest.sent, waits := wait + rest.waits)
  }

  /** The caught failure of attempt `k`, if any. */
  function AttemptResult(a: Attempt): Result<Option<Json>, Failure> {
    match a.outcome
    case Resolved(response) => HandleResponse(response)
    case Rejected(reason) => Err(reason)
  }

  /** What `request` does with the outcome of attempt `k`: finish with a result (a `break`
      finishes with the converted error), or go on to attempt `k + 1` after waiting `wait`. */
  datatype Step =
    | Finish(result: Result<Option<Json>, InterceptorError>, loggedOut: bool)
    | Next(wait: seq<int>, failure: Failure)

  /** One pass of the loop body, with `shared` the result of a refresh another caller already
      has in flight (`isRefreshing && refreshPromise`). */
  function Decide(c: Config, shared: Option<bool>, k: nat, a: Attempt): (s: Step)
    ensures s.Finish? ==> (s.result.Ok? <==> AttemptResult(a).Ok?)
    ensures s.Finish? && s.loggedOut ==> s.result.Err? && s.result.error.isAuthError
    ensures s.Next? ==> AttemptResult(a) == Err(s.failure)
    ensures s.Next? ==> (s.wait == [] <==> s.failure.Interceptor? && s.failure.err.isAuthError)
    ensures s.Next? && s.wait != [] ==>
      c.enableRetry && k < AttemptBudget(c) && IsRetryable(s.failure) && s.wait == [c.retryDelay * k]
  {
    match AttemptResult(a)
    case Ok(data) => Finish(Ok(data), false)
    case Err(f) =>
      if f.Interceptor? && f.err.isAuthError then
        var refreshed := if shared.Some? then shared.value else DoRefresh(a.refresh);
        if refreshed then Next([], f) else Finish(Err(f.err), true)
      else if c.enableRetry && k < AttemptBudget(c) && IsRetryable(f) then Next([c.retryDelay * k], f)
      else Finish(Err(FinalError(Some(f))), false)
  }

  /** The loop of `request` from attempt `k` on. */
  function Loop(c: Config, shared: Option<bool>, args: Option<Args>, env: nat -> Attempt,
                k: nat, last: Option<Failure>): (run: Run)
    requires k >= 1
    ensures run.loggedOut ==> run.result.Err? && run.result.error.isAuthError
    ensures k <= AttemptBudget(c) <==> run.sent != []
    ensures run.result.Ok? ==> k <= AttemptBudget(c)
    decreases if k <= AttemptBudget(c) then AttemptBudget(c) - k + 1 else 0
  {
    if k > AttemptBudget(c) then Run(Err(FinalError(last)), [], [], false)
    else
      var sent := InjectAuth(c, args, env(k).token);
      match Decide(c, shared, k, env(k))
      case Finish(result, loggedOut) => Run(result, [sent], [], loggedOut)
      case Next(wait, f) => Continue(sent, wait, Loop(c, shared, args, env, k + 1, Some(f)))
  }

  /** The transport is called at most once per attempt of the budget, and never more often
      than `retryAttempts` (once when retrying is disabled). */
  lemma {:induction false} LoopCallsBounded(c: Config, shared: Option<bool>, args: Option<Args>,
                                            env: nat -> Attempt, k: nat, last: Option<Failure>)
    requires k >= 1
    ensures var run := Loop(c, shared, args, env, k, last);
      |run.sent| <= (if k <= AttemptBudget(c) then AttemptBudget(c) - k + 1 else 0)
    ensures var run := Loop(c, shared, args, env, k, last);
      |run.waits| <= |run.sent|
    decreases if k <= AttemptBudget(c) then AttemptBudget(c) - k + 1 else 0
  {
    if k <= AttemptBudget(c) {
      var d := Decide(c, shared, k, env(k));
      if d.Next? {
        LoopContinues(c, shared, args, env, k, last);
        LoopCallsBounded(c, shared, args, env, k + 1, Some(d.failure));
        assert |d.wait| <= 1;
      }
    }
  }

  /** Whole-request bounds: at most `retryAttempts` calls (exactly one call when retrying is
      disabled), one wait fewer than calls, and every wait is `retryDelay * k` for an attempt
      `k` before the last. */
  lemma RequestCallsBounded(c: Config, shared: Option<bool>, args: Option<Args>, env: nat -> Attempt)
    ensures var run := Loop(c, shared, args, env, 1, None);
      |run.sent| <= (if AttemptBudget(c) >= 1 then AttemptBudget(c) else 0) &&
      (!c.enableRetry ==> |run.sent| == 1 && run.waits == [])
  {
    LoopCallsBounded(c, shared, args, env, 1, None);
    if !c.enableRetry {
      var run := Loop(c, shared, args, env, 1, None);
      match AttemptResult(env(1))
      case Ok(_) =>
      case Err(f) =>
        assert Loop(c, shared, args, env, 2, Some(f)).sent == [];
    }
  }

  /** Every wait is `retryDelay * k` for an attempt `k` that is not the last one. */
  lemma {:induction false} LoopWaits(c: Config, shared: Option<bool>, args: Option<Args>,
                                     env: nat -> Attempt, k: nat, last: Option<Failure>)
    requires k >= 1
    ensures forall w :: w in Loop(c, shared, args, env, k, last).waits ==>
      exists j :: k <= j < AttemptBudget(c) && w == c.retryDelay * j
    decreases if k <= AttemptBudget(c) then AttemptBudget(c) - k + 1 else 0
  {
    if k <= AttemptBudget(c) {
      match AttemptResult(env(k))
      case Ok(_) =>
      case Err(f) =>
        LoopWaits(c, shared, args, env, k + 1, Some(f));
    }
  }

  /** An authentication failure whose refresh succeeds on the last attempt still fails the
      request with that authentication error: the refresh used up the last slot. */
  lemma RefreshOnLastAttemptThrows(c: Config, shared: Option<bool>, args: Option<Args>,
                                   env: nat -> Attempt, last: Option<Failure>, e: InterceptorError)
    requires AttemptBudget(c) >= 1 && e.isAuthError
    requires env(AttemptBudget(c)).outcome == Rejected(Interceptor(e))
    requires shared == Some(true) || (shared.None? && env(AttemptBudget(c)).refresh == Refreshed)
    ensures Loop(c, shared, args, env, AttemptBudget(c), last).result == Err(e)
  {
  }

  /** A failed refresh ends the request at once with the authentication error and a logout. */
  lemma RefreshFailureLogsOut(c: Config, shared: Option<bool>, args: Option<Args>,
                              env: nat -> Attempt, k: nat, last: Option<Failure>, e: InterceptorError)
    requires 1 <= k <= AttemptBudget(c) && e.isAuthError
    requires env(k).outcome == Rejected(Interceptor(e))
    requires shared == Some(false) || (shared.None? && env(k).refresh != Refreshed)
    ensures var run := Loop(c, shared, args, env, k, last);
      run.result == Err(e) && run.loggedOut && |run.sent| == 1
  {
  }

  /** A failure that is not an authentication error is retried exactly when retrying is on,
      attempts remain and `isRetryableError` holds; otherwise it ends the request. */
  lemma {:induction false} NonAuthFailureRetry(c: Config, shared: Option<bool>, args: Option<Args>,
                                               env: nat -> Attempt, k: nat, last: Option<Failure>)
    requires 1 <= k <= AttemptBudget(c)
    requires AttemptResult(env(k)).Err?
    requires var f := AttemptResult(env(k)).error; !(f.Interceptor? && f.err.isAuthError)
    ensures var f := AttemptResult(env(k)).error;
      var run := Loop(c, shared, args, env, k, last);
      if c.enableRetry && k < AttemptBudget(c) && IsRetryable(f) then
        |run.sent| >= 2 && run.waits != [] && run.waits[0] == c.retryDelay * k
      else run == Run(Err(FinalError(Some(f))), [InjectAuth(c, args, env(k).token)], [], false)
  {
    var f := AttemptResult(env(k)).error;
    if c.enableRetry && k < AttemptBudget(c) && IsRetryable(f) {
      var rest := Loop(c, shared, args, env, k + 1, Some(f));
      assert |rest.sent| >= 1 by {
        match AttemptResult(env(k + 1))
        case Ok(_) =>
        case Err(g) =>
      }
    }
  }

  /** The run that results when the attempts so far sent `sent` and waited `waits`, and the
      rest of the loop runs as `rest`. */
  function After(sent: seq<Args>, waits: seq<int>, rest: Run): Run {
    rest.(sent := sent + rest.sent, waits := waits + rest.waits)
  }

  lemma AfterNothing(run: Run)
    ensures After([], [], run) == run
  {
    assert [] + run.sent == run.sent;
    assert [] + run.waits == run.waits;
  }

  lemma AfterContinue(sent: seq<Args>, waits: seq<int>, one: Args, wait: seq<int>, rest: Run)
    ensures After(sent, waits, Continue(one, wait, rest)) == After(sent + [one], waits + wait, rest)
  {
    assert sent + ([one] + rest.sent) == sent + [one] + rest.sent;
    assert waits + (wait + rest.waits) == waits + wait + rest.waits;
  }

  /** An attempt that finishes the loop is the last one sent, and nothing is waited after it. */
  lemma LoopFinishes(c: Config, shared: Option<bool>, args: Option<Args>, env: nat -> Attempt,
                     k: nat, last: Option<Failure>, sent: seq<Args>, waits: seq<int>)
    requires 1 <= k <= AttemptBudget(c) && Decide(c, shared, k, env(k)).Finish?
    ensures var d := Decide(c, shared, k, env(k));
      After(sent, waits, Loop(c, shared, args, env, k, last)) ==
      Run(d.result, sent + [InjectAuth(c, args, env(k).token)], waits, d.loggedOut)
  {
    assert waits + [] == waits;
  }

  /** An attempt that goes on sends its request, waits, and leaves the rest to attempt `k + 1`. */
  lemma LoopContinues(c: Config, shared: Option<bool>, args: Option<Args>, env: nat -> Attempt,
                      k: nat, last: Option<Failure>)
    requires 1 <= k <= AttemptBudget(c) && Decide(c, shared, k, env(k)).Next?
    ensures var d := Decide(c, shared, k, env(k));
      Loop(c, shared, args, env, k, last) ==
      Continue(InjectAuth(c, args, env(k).token), d.wait, Loop(c, shared, args, env, k + 1, Some(d.failure)))
  {
  }

  /** Past the budget the loop sends nothing more and fails with the last error. */
  lemma LoopExhausted(c: Config, shared: Option<bool>, args: Option<Args>, env: nat -> Attempt,
                      k: nat, last: Option<Failure>, sent: seq<Args>, waits: seq<int>)
    requires 1 <= k && k > AttemptBudget(c)
    ensures After(sent, waits, Loop(c, shared, args, env, k, last)) == Run(Err(FinalError(last)), sent, waits, false)
  {
    assert sent + [] == sent && waits + [] == waits;
  }

  /** An authentication error is never retried as a failure, and an error built by the
      interceptor is retried exactly for the codes `NETWORK_ERROR` and `TIMEOUT`. */
  lemma RetryableCodes(message: string, code: string, details: Option<Json>)
    ensures IsRetryable(Interceptor(NewError(message, code, details))) <==>
      code == "NETWORK_ERROR" || code == "TIMEOUT"
  {
  }

  /** Another `Error` is classified by its lower-cased message: messages differing only in
      case are retried alike, whatever their stacks. */
  lemma RetryIgnoresCase(m1: string, m2: string, s1: Option<string>, s2: Option<string>)
    requires Lower(m1) == Lower(m2)
    ensures IsRetryable(OtherError(m1, s1)) == IsRetryable(OtherError(m2, s2))
  {
  }

  /** A budget below one (retrying on with `retryAttempts <= 0`) never calls the transport and
      fails with the unknown error. */
  lemma NoBudgetNoCall(c: Config, shared: Option<bool>, args: Option<Args>, env: nat -> Attempt)
    requires AttemptBudget(c) < 1
    ensures var run := Loop(c, shared, args, env, 1, None);
      run.sent == [] && run.waits == [] && run.result.Err? && run.result.error.code == "UNKNOWN_ERROR"
  {
  }

  /** A refresh promise, identified by the value it settles to. */
  datatype RefreshPromise = RefreshPromise(result: bool)

  class Interceptor {
    var config: Config
    var isRefreshing: bool
    var refreshPromise: Option<RefreshPromise>
    /** Events dispatched on `window`. */
    var dispatched: seq<string>

    /** The single-flight flags agree: a promise is stored exactly while a refresh runs. */
    predicate Valid()
      reads this
    {
      isRefreshing == refreshPromise.Some?
    }

    constructor (retryAttempts: Option<int>, retryDelay: Option<int>,
                 enableAuth: Option<bool>, enableRetry: Option<bool>)
      ensures Valid() && !isRefreshing && dispatched == []
      ensures config == MergeConfig(retryAttempts, retryDelay, enableAuth, enableRetry)
    {
      config := MergeConfig(retryAttempts, retryDelay, enableAuth, enableRetry);
      isRefreshing := false;
      refreshPromise := None;
      dispatched := [];
    }

    /** `withoutAuth()`: a fresh interceptor with the same settings and auth disabled. */
    method WithoutAuth() returns (r: Interceptor)
      ensures fresh(r) && r.Valid() && !r.isRefreshing && r.dispatched == []
      ensures r.config == config.(enableAuth := false)
    {
      r := new Interceptor(Some(config.retryAttempts), Some(config.retryDelay), Some(false),
                           Some(config.enableRetry));
    }

    /** `withoutRetry()`: a fresh interceptor with the same settings and retrying disabled. */
    method WithoutRetry() returns (r: Interceptor)
      ensures fresh(r) && r.Valid() && !r.isRefreshing && r.dispatched == []
      ensures r.config == config.(enableRetry := false)
    {
      r := new Interceptor(Some(config.retryAttempts), Some(config.retryDelay), Some(config.enableAuth),
                           Some(false));
    }

    /** The result of the refresh another caller has in flight, if any. */
    function Shared(): Option<bool>
      reads this
    {
      if isRefreshing && refreshPromise.Some? then Some(refreshPromise.value.result) else None
    }

    /** `handleTokenRefresh`: joins a refresh in flight, or starts one and resets both flags in
        `finally`. */
    method HandleTokenRefresh(call: RefreshCall) returns (refreshed: bool)
      requires Valid()
      modifies this
      ensures Valid() && config == old(config) && dispatched == old(dispatched)
      ensures old(Shared()).Some? ==>
                refreshed == old(Shared()).value &&
                isRefreshing == old(isRefreshing) && refreshPromise == old(refreshPromise)
      ensures old(Shared()).None? ==> refreshed == DoRefresh(call) && !isRefreshing && refreshPromise.None?
    {
      if isRefreshing && refreshPromise.Some? {
        return refreshPromise.value.result;
      }
      isRefreshing := true;
      refreshPromise := Some(RefreshPromise(DoRefresh(call)));
      refreshed := refreshPromise.value.result;
      isRefreshing := false;
      refreshPromise := None;
    }

    /** `handleAuthFailure`: logs out and dispatches `auth:logout`. */
    method HandleAuthFailure()
      modifies this
      ensures dispatched == old(dispatched) + ["auth:logout"]
      ensures config == old(config) && isRefreshing == old(isRefreshing) && refreshPromise == old(refreshPromise)
    {
      dispatched := dispatched + ["auth:logout"];
    }

    /** The body of the loop for attempt `attempt`: the `try` block after the transport
        answered, and the `catch` block. */
    method TryAttempt(attempt: nat, a: Attempt) returns (step: Step)
      requires Valid() && attempt >= 1
      modifies this
      ensures step == Decide(old(config), old(Shared()), attempt, a)
      ensures Valid() && config == old(config)
      ensures isRefreshing == old(isRefreshing) && refreshPromise == old(refreshPromise)
      ensures dispatched == old(dispatched) + (if step.Finish? && step.loggedOut then ["auth:logout"] else [])
    {
      var outcome := AttemptResult(a);
      if outcome.Ok? {
        return Finish(Ok(outcome.value), false);
      }
      var error := outcome.error;
      if error.Interceptor? && error.err.isAuthError {
        var refreshed := HandleTokenRefresh(a.refresh);
        if refreshed {
          return Next([], error);
        }
        HandleAuthFailure();
        return Finish(Err(error.err), true);
      }
      var shouldRetry := config.enableRetry && attempt < AttemptBudget(config) && IsRetryable(error);
      if shouldRetry {
        return Next([config.retryDelay * attempt], error);
      }
      return Finish(Err(FinalError(Some(error))), false);
    }

    /** `request(cmd, args)`: returns exactly what `Loop` describes from attempt 1, and leaves
        the refresh flags as it found them. */
    method Request(args: Option<Args>, env: nat -> Attempt)
      returns (result: Result<Option<Json>, InterceptorError>, sent: seq<Args>, waits: seq<int>)
      requires Valid()
      modifies this
      ensures var run := Loop(old(config), old(Shared()), args, env, 1, None);
        result == run.result && sent == run.sent && waits == run.waits &&
        dispatched == old(dispatched) + (if run.loggedOut then ["auth:logout"] else [])
      ensures Valid() && config == old(config)
      ensures isRefreshing == old(isRefreshing) && refreshPromise == old(refreshPromise)
    {
      var lastError: Option<Failure> := None;
      var budget := AttemptBudget(config);
      ghost var shared := Shared();
      sent, waits := [], [];
      var attempt := 1;
      AfterNothing(Loop(config, shared, args, env, 1, None));
      while attempt <= budget
        invariant 1 <= attempt
        invariant Valid() && config == old(config) && Shared() == shared && dispatched == old(dispatched)
        invariant isRefreshing == old(isRefreshing) && refreshPromise == old(refreshPromise)
        invariant Loop(config, shared, args, env, 1, None) ==
                  After(sent, waits, Loop(config, shared, args, env, attempt, lastError))
        decreases budget - attempt + 1
      {
        var enhanced := InjectAuth(config, args, env(attempt).token);
        var step := TryAttempt(attempt, env(attempt));
        match step
        case Finish(r, _) =>
          LoopFinishes(config, shared, args, env, attempt, lastError, sent, waits);
          sent := sent + [enhanced];
          return r, sent, waits;
        case Next(wait, error) =>
          LoopContinues(config, shared, args, env, attempt, lastError);
          AfterContinue(sent, waits, enhanced, wait, Loop(config, shared, args, env, attempt + 1, Some(error)));
          sent := sent + [enhanced];
          waits := waits + wait;
          lastError := Some(error);
          attempt := attempt + 1;
      }
      LoopExhausted(config, shared, args, env, attempt, lastError, sent, waits);
      result := Err(FinalError(lastError));
    }
  }
}
