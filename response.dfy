/** The back end's response envelope (`ApiResponse`) and its error type (`ApiError`). */
module Response {
  import opened Wrappers
  import opened Text

  datatype ErrorDetail = ErrorDetail(code: string, message: string, details: Option<string>)

  datatype ApiError = ApiError(code: string, message: string, details: Option<string>)

  /** `{success, data, error, request_id, timestamp}`; `timestamp` is the clock reading
      passed in by the caller. */
  datatype ApiResponse<T> = ApiResponse(
    success: bool,
    data: Option<T>,
    error: Option<ErrorDetail>,
    requestId: Option<string>,
    timestamp: Option<int>)

  /** `ApiResponse::into_result`: a success yields its data (or an internal error when the data
      is missing); a failure yields its error detail, or `UNKNOWN_ERROR` when it has none. */
  function IntoResult<T>(r: ApiResponse<T>): (res: Result<T, ApiError>)
    ensures r.success && r.data.Some? ==> res == Ok(r.data.value)
    ensures !r.success ==> res.Err?
    ensures !r.success && r.error.Some? ==>
      res.error == ApiError(r.error.value.code, r.error.value.message, r.error.value.details)
    ensures !r.success && r.error.None? ==> res.error.code == "UNKNOWN_ERROR"
  {
    if r.success then
      match r.data
      case Some(d) => Ok(d)
      case None => Err(InternalError("Missing data in success response"))
    else
      var detail := r.error.GetOr(ErrorDetail("UNKNOWN_ERROR", "Unknown error", None));
      Err(ApiError(detail.code, detail.message, detail.details))
  }

  /** `ApiResponse::success`: converting it back yields exactly the data. */
  function Success<T>(data: T, now: int): (r: ApiResponse<T>)
    ensures r.success && r.error.None? && r.requestId.None? && r.timestamp == Some(now)
    ensures IntoResult(r) == Ok(data)
  {
    ApiResponse(true, Some(data), None, None, Some(now))
  }

  /** `ApiResponse::success_empty`: a success without data, which `into_result` turns into an
      `INTERNAL_ERROR`. */
  function SuccessEmpty<T>(now: int): (r: ApiResponse<T>)
    ensures r.success && r.data.None? && r.timestamp == Some(now)
    ensures IntoResult(r).Err? && IntoResult(r).error.code == "INTERNAL_ERROR"
  {
    ApiResponse(true, None, None, None, Some(now))
  }

  /** `ApiResponse::error`: converting it back yields the same code, message and details. */
  function ErrorResponse<T>(e: ApiError, now: int): (r: ApiResponse<T>)
    ensures !r.success && r.data.None? && r.timestamp == Some(now)
    ensures IntoResult(r) == Err(e)
  {
    ApiResponse(false, None, Some(ErrorDetail(e.code, e.message, e.details)), None, Some(now))
  }

  /** `with_request_id`: only `request_id` changes, so the converted result is the same. */
  function WithRequestId<T>(r: ApiResponse<T>, id: string): (r': ApiResponse<T>)
    ensures r'.requestId == Some(id)
    ensures r'.success == r.success && r'.data == r.data && r'.error == r.error
    ensures r'.timestamp == r.timestamp
    ensures IntoResult(r') == IntoResult(r)
  {
    r.(requestId := Some(id))
  }

  // Constructors that put the caller's text in the message and leave `details` empty.

  function Unauthorized(message: string): ApiError { ApiError("UNAUTHORIZED", message, None) }
  function Forbidden(message: string): ApiError { ApiError("FORBIDDEN", message, None) }
  function InvalidCredentials(): ApiError { ApiError("INVALID_CREDENTIALS", "用户名或密码错误", None) }
  function TokenExpired(): ApiError { ApiError("TOKEN_EXPIRED", "登录已过期，请重新登录", None) }
  function ValidationFailed(field: string, reason: string): ApiError {
    ApiError("VALIDATION_FAILED", field + ": " + reason, None)
  }
  function InvalidParameter(param: string): ApiError { ApiError("INVALID_PARAMETER", "参数无效: " + param, None) }
  function MissingParameter(param: string): ApiError { ApiError("MISSING_PARAMETER", "缺少必需参数: " + param, None) }
  function NotFound(resource: string): ApiError { ApiError("NOT_FOUND", resource + "不存在", None) }
  function AlreadyExists(resource: string): ApiError { ApiError("ALREADY_EXISTS", resource + "已存在", None) }
  function BusinessError(message: string): ApiError { ApiError("BUSINESS_ERROR", message, None) }
  function OperationFailed(message: string): ApiError { ApiError("OPERATION_FAILED", message, None) }

  // Constructors that hide the caller's text in `details` behind a fixed message.

  function InternalError(message: string): ApiError { ApiError("INTERNAL_ERROR", "系统错误，请稍后重试", Some(message)) }
  function DatabaseError(message: string): ApiError { ApiError("DATABASE_ERROR", "数据库操作失败", Some(message)) }
  function NetworkError(message: string): ApiError { ApiError("NETWORK_ERROR", "网络请求失败", Some(message)) }

  /** `ApiError::from_anyhow`: an internal error whose details are the error's text. */
  function FromAnyhow(text: string): (e: ApiError)
    ensures e.code == "INTERNAL_ERROR" && e.details == Some(text)
  {
    InternalError(text)
  }

  /** `with_details`: replaces the details only. */
  function WithDetails(e: ApiError, details: string): (e': ApiError)
    ensures e'.code == e.code && e'.message == e.message && e'.details == Some(details)
  {
    e.(details := Some(details))
  }

  /** `impl Display for ApiError`: `"[code] message"`. */
  function Display(e: ApiError): (s: string)
    ensures StartsWith(s, "[" + e.code + "] ") && s[|e.code| + 3..] == e.message
  {
    "[" + e.code + "] " + e.message
  }

  /** The system-error constructors show a fixed message whatever the caller passed and keep
      the caller's text in `details`; the others carry the text in the message and no details. */
  lemma ConstructorsPlaceCallerText(x: string, y: string)
    ensures InternalError(x).message == InternalError(y).message && InternalError(x).details == Some(x)
    ensures DatabaseError(x).message == DatabaseError(y).message && DatabaseError(x).details == Some(x)
    ensures NetworkError(x).message == NetworkError(y).message && NetworkError(x).details == Some(x)
    ensures Unauthorized(x).message == x && Forbidden(x).message == x
    ensures BusinessError(x).message == x && OperationFailed(x).message == x
    ensures EndsWith(InvalidParameter(x).message, x) && EndsWith(MissingParameter(x).message, x)
    ensures StartsWith(NotFound(x).message, x) && StartsWith(AlreadyExists(x).message, x)
    ensures StartsWith(ValidationFailed(x, y).message, x + ": ")
    ensures Unauthorized(x).details.None? && Forbidden(x).details.None? && BusinessError(x).details.None?
    ensures OperationFailed(x).details.None? && InvalidParameter(x).details.None?
    ensures MissingParameter(x).details.None? && NotFound(x).details.None?
    ensures AlreadyExists(x).details.None? && ValidationFailed(x, y).details.None?
  {
  }
}
