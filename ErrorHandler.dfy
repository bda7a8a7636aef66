/** The uniform API error handling of lib/error-handler.ts: error types and
    their HTTP statuses, the error and success envelopes, the classification
    of thrown errors, the route wrapper, and the parameter validators.
    The clock is the `now` parameter (the ISO timestamp) and `NODE_ENV` is the
    `development` flag; console output is left out except its prefix. */
module ErrorHandler {
  import opened Common
  import opened Text
  import DbRetry

  /** `enum ErrorType` */
  datatype ErrorType =
    | BadRequest | Unauthorized | Forbidden | NotFound | Conflict | ValidationError
    | InternalError | DatabaseError | DatabaseBusy | Timeout

  /** The string value of each member, sent as the response's `code`. */
  function Code(t: ErrorType): string {
    match t
    case BadRequest => "BAD_REQUEST"
    case Unauthorized => "UNAUTHORIZED"
    case Forbidden => "FORBIDDEN"
    case NotFound => "NOT_FOUND"
    case Conflict => "CONFLICT"
    case ValidationError => "VALIDATION_ERROR"
    case InternalError => "INTERNAL_ERROR"
    case DatabaseError => "DATABASE_ERROR"
    case DatabaseBusy => "DATABASE_BUSY"
    case Timeout => "TIMEOUT"
  }

  /** The client-side types, listed under "4xx" in the enum. */
  predicate IsClientError(t: ErrorType) {
    t.BadRequest? || t.Unauthorized? || t.Forbidden? || t.NotFound? || t.Conflict? || t.ValidationError?
  }

  /** `errorStatusMap[type] || 500`: every type is in the map with a non-zero
      status, so the fallback is never taken. Client types get a 4xx status,
      the others a 5xx one. */
  function StatusOf(t: ErrorType): (r: int)
    ensures 400 <= r < 500 <==> IsClientError(t)
    ensures 500 <= r < 600 <==> !IsClientError(t)
  {
    match t
    case BadRequest => 400
    case Unauthorized => 401
    case Forbidden => 403
    case NotFound => 404
    case Conflict => 409
    case ValidationError => 422
    case InternalError => 500
    case DatabaseError => 500
    case DatabaseBusy => 503
    case Timeout => 504
  }

  /** Distinct types get distinct codes, so a response's `code` names its type. */
  lemma CodeInjective(a: ErrorType, b: ErrorType)
    ensures Code(a) == Code(b) ==> a == b
  {
    if Code(a) == Code(b) {
      var ca := Code(a);
      var cb := Code(b);
      assert |ca| == |cb| && ca[0] == cb[0] && ca[|ca| - 1] == cb[|cb| - 1];
    }
  }

  /** Only the internal and the database error share a status; every other
      status identifies its type. */
  lemma StatusSharedOnlyBy500(a: ErrorType, b: ErrorType)
    ensures StatusOf(a) == StatusOf(b) && a != b ==> StatusOf(a) == 500 && {a, b} == {InternalError, DatabaseError}
  {
  }

  /** `getLogPrefix`: a warning sign for 4xx types, a cross otherwise. */
  function LogPrefix(t: ErrorType): (r: string)
    ensures r == "⚠️ " <==> IsClientError(t)
    ensures r == "❌" <==> !IsClientError(t)
  {
    if 400 <= StatusOf(t) < 500 then "⚠️ " else "❌"
  }

  /** The first line `logError` prints; a missing message prints as "undefined". */
  function LogLine(t: ErrorType, message: Option<string>, now: string): string {
    LogPrefix(t) + " [" + now + "] " + Code(t) + ": " + message.GetOr("undefined")
  }

  // ---------------------------------------------------------------- envelopes

  /** The `details` that `parseError` extracts. */
  datatype Details = Details(code: Option<string>, errno: Option<int>)

  /** `string | Error` */
  datatype ErrorInput = Text(text: string) | Thrown(error: JsError)

  /** `ApiErrorResponse` and `ApiSuccessResponse<T>`; `None` is an absent property. */
  datatype ApiBody<T> =
    | ErrorBody(error: Option<string>, code: string, details: Option<Details>, timestamp: string)
    | SuccessBody(data: Option<T>, message: Option<string>, timestamp: string)

  datatype ApiResponse<T> = ApiResponse(status: int, body: ApiBody<T>)

  function MessageOf(error: ErrorInput): Option<string> {
    match error
    case Text(s) => Some(s)
    case Thrown(e) => e.message
  }

  /** `createErrorResponse`: the status of the type, the message of the
      error, the type's code, and the details only in development. */
  function CreateErrorResponse<T>(error: ErrorInput, t: ErrorType, details: Option<Details>, development: bool, now: string)
    : (r: ApiResponse<T>)
    ensures r.status == StatusOf(t) && r.body.ErrorBody? && r.body.code == Code(t) && r.body.timestamp == now
    ensures r.body.error == MessageOf(error)
    ensures r.body.details.Some? <==> details.Some? && development
    ensures r.body.details.Some? ==> r.body.details == details
  {
    ApiResponse(StatusOf(t), ErrorBody(MessageOf(error), Code(t), if development then details else None, now))
  }

  /** `createSuccessResponse`: status 200; the data when it is not
      `undefined`, the message when it is a non-empty string. */
  function CreateSuccessResponse<T>(data: Option<T>, message: Option<string>, now: string): (r: ApiResponse<T>)
    ensures r.status == 200 && r.body.SuccessBody? && r.body.data == data && r.body.timestamp == now
    ensures r.body.message.Some? <==> message.Some? && message.value != ""
    ensures r.body.message.Some? ==> r.body.message == message
  {
    ApiResponse(200, SuccessBody(data, if message.Some? && message.value != "" then message else None, now))
  }

  // ---------------------------------------------------------------- classification

  datatype ParsedError = ParsedError(errorType: ErrorType, details: Option<Details>)

  predicate HasSqlitePrefix(e: JsError) {
    e.code.Some? && StartsWith(e.code.value, "SQLITE_")
  }

  predicate IsValidationFailure(e: JsError) {
    e.name == "ValidationError" || (e.message.Some? && Contains(e.message.value, "验证失败"))
  }

  predicate IsTimeout(e: JsError) {
    e.name == "TimeoutError" || e.code == Some("ETIMEDOUT")
  }

  /** `parseError`: the first matching rule wins, in the order busy, other
      SQLite errors, validation failures, timeouts, and everything else.
      Busy detection is the same test the retry wrapper uses. Only the
      SQLite rules carry details. */
  function ParseError(e: JsError): (r: ParsedError)
    ensures r.errorType == DatabaseBusy <==> DbRetry.IsSqliteBusyError(e)
    ensures r.details.Some? <==> r.errorType == DatabaseBusy || r.errorType == DatabaseError
    ensures r.details.Some? ==> r.details.value == Details(e.code, e.errno)
  {
    if DbRetry.IsSqliteBusyError(e) then ParsedError(DatabaseBusy, Some(Details(e.code, e.errno)))
    else if HasSqlitePrefix(e) then ParsedError(DatabaseError, Some(Details(e.code, e.errno)))
    else if IsValidationFailure(e) then ParsedError(ValidationError, None)
    else if IsTimeout(e) then ParsedError(Timeout, None)
    else ParsedError(InternalError, None)
  }

  /** What status a thrown error answers with. 503 means busy and nothing
      else; an error with a `SQLITE_` code is always a server error, whatever
      its name or message says; a validation failure or a timeout is reported
      as such only when the error is not a SQLite one. */
  lemma ParsedStatus(e: JsError)
    ensures StatusOf(ParseError(e).errorType) == 503 <==> DbRetry.IsSqliteBusyError(e)
    ensures HasSqlitePrefix(e) ==> StatusOf(ParseError(e).errorType) >= 500
    ensures StatusOf(ParseError(e).errorType) == 422 <==>
      !DbRetry.IsSqliteBusyError(e) && !HasSqlitePrefix(e) && IsValidationFailure(e)
    ensures StatusOf(ParseError(e).errorType) == 504 <==>
      !DbRetry.IsSqliteBusyError(e) && !HasSqlitePrefix(e) && !IsValidationFailure(e) && IsTimeout(e)
    ensures IsClientError(ParseError(e).errorType) ==> ParseError(e).errorType == ValidationError
  {
  }

  /** A plain `Error` whose message has none of the characters that start the
      markers (`S` of SQLITE_BUSY, `d` of "database is locked", `验` of
      "验证失败") is an internal error. */
  lemma PlainErrorIsInternal(m: string)
    requires 'S' !in m && 'd' !in m && '验' !in m
    ensures ParseError(PlainError(m)) == ParsedError(InternalError, None)
  {
    if Contains(m, "SQLITE_BUSY") {
      ContainsFirstChar(m, "SQLITE_BUSY");
    }
    if Contains(m, "database is locked") {
      ContainsFirstChar(m, "database is locked");
    }
    if Contains(m, "验证失败") {
      ContainsFirstChar(m, "验证失败");
    }
  }

  /** When every retry of a busy database failed, the wrapper's own error
      replaces the busy one: it has no code and a message without the busy
      markers, so the route answers 500 INTERNAL_ERROR, not 503 DATABASE_BUSY. */
  lemma ExhaustedRetriesAreInternal(calls: nat)
    ensures ParseError(DbRetry.ExhaustedError(calls)) == ParsedError(InternalError, None)
    ensures StatusOf(ParseError(DbRetry.ExhaustedError(calls)).errorType) == 500
  {
    var head := "数据库繁忙,请稍后重试 (尝试 ";
    var digits := ShowNat(calls);
    var tail := " 次)";
    var m := head + digits + tail;
    assert DbRetry.ExhaustedError(calls) == PlainError(m);
    forall i | 0 <= i < |m| ensures m[i] != 'S' && m[i] != 'd' && m[i] != '验' {
      if i < |head| {
        assert m[i] == head[i];
      } else if i < |head| + |digits| {
        assert m[i] == digits[i - |head|];
      } else {
        assert m[i] == tail[i - |head| - |digits|];
      }
    }
    PlainErrorIsInternal(m);
  }

  // ---------------------------------------------------------------- the route wrapper

  /** `withErrorHandler(handler)` applied to a request: what the handler
      returned, or the error response for what it threw. */
  function WithErrorHandler<T>(outcome: Result<ApiResponse<T>, JsError>, development: bool, now: string): (r: ApiResponse<T>)
    ensures outcome.Ok? ==> r == outcome.value
    ensures outcome.Err? ==> r == CreateErrorResponse(Thrown(outcome.error), ParseError(outcome.error).errorType,
                                                      ParseError(outcome.error).details, development, now)
  {
    match outcome
    case Ok(response) => response
    case Err(e) =>
      var parsed := ParseError(e);
      CreateErrorResponse(Thrown(e), parsed.errorType, parsed.details, development, now)
  }

  /** A thrown error never escapes the wrapper: it becomes a 4xx or 5xx error
      body with the type's code, carrying the SQLite code and errno only for
      SQLite errors in development. */
  lemma WrappedErrorResponse<T>(e: JsError, development: bool, now: string)
    ensures var r: ApiResponse<T> := WithErrorHandler(Err(e), development, now);
      r.body.ErrorBody? && 400 <= r.status < 600 && r.body.error == e.message
      && r.body.code == Code(ParseError(e).errorType)
      && (r.body.details.Some? <==> development && (DbRetry.IsSqliteBusyError(e) || HasSqlitePrefix(e)))
      && (r.body.details.Some? ==> r.body.details.value == Details(e.code, e.errno))
  {
  }

  // ---------------------------------------------------------------- validators

  /** `params[key]`, `undefined` when the key is absent. */
  function Lookup(params: map<string, JsValue>, key: string): JsValue {
    if key in params then params[key] else Undefined
  }

  /** `required.filter(key => !params[key])` */
  function Missing(params: map<string, JsValue>, required: seq<string>): (r: seq<string>)
    ensures |r| <= |required|
  {
    if required == [] then []
    else
      var rest := Missing(params, required[1..]);
      if !Truthy(Lookup(params, required[0])) then [required[0]] + rest else rest
  }

  /** The missing keys are exactly the required keys whose value is falsy. */
  lemma {:induction false} MissingMembers(params: map<string, JsValue>, required: seq<string>)
    ensures forall k :: k in Missing(params, required) <==> k in required && !Truthy(Lookup(params, k))
  {
    if required != [] {
      MissingMembers(params, required[1..]);
      assert required == [required[0]] + required[1..];
    }
  }

  /** The missing keys keep the order of the required list. */
  lemma {:induction false} MissingInOrder(params: map<string, JsValue>, required: seq<string>)
    ensures Subsequence(Missing(params, required), required)
  {
    if required != [] {
      MissingInOrder(params, required[1..]);
      var rest := Missing(params, required[1..]);
      if Truthy(Lookup(params, required[0])) {
        SubsequenceSkip(rest, required[0], required[1..]);
      }
    }
  }

  /** Each required key with a falsy value is listed as often as it is required. */
  lemma {:induction false} MissingCounts(params: map<string, JsValue>, required: seq<string>)
    ensures forall k :: multiset(Missing(params, required))[k] == if Truthy(Lookup(params, k)) then 0 else multiset(required)[k]
  {
    if required != [] {
      assert required == [required[0]] + required[1..];
      MissingCounts(params, required[1..]);
      assert multiset(required) == multiset{required[0]} + multiset(required[1..]);
    }
  }

  /** `validateParams`: throws, listing the missing keys in order, exactly
      when some required key has a falsy value. */
  function ValidateParams(params: map<string, JsValue>, required: seq<string>): (r: Result<(), JsError>)
    ensures r.Err? <==> Missing(params, required) != []
    ensures r.Err? ==> r.error == PlainError("缺少必需参数: " + Join(Missing(params, required), ", "))
  {
    var missing := Missing(params, required);
    if |missing| > 0 then Err(PlainError("缺少必需参数: " + Join(missing, ", "))) else Ok(())
  }

  /** The validation passes exactly when every required key has a truthy value. */
  lemma ValidateParamsOk(params: map<string, JsValue>, required: seq<string>)
    ensures ValidateParams(params, required).Ok? <==> forall k :: k in required ==> Truthy(Lookup(params, k))
  {
    MissingMembers(params, required);
    var missing := Missing(params, required);
    if missing != [] {
      assert missing[0] in missing;
    }
  }

  /** `String(v)`, as a template literal writes a value. */
  function JsString(v: JsValue): string {
    match v
    case Undefined => "undefined"
    case Null => "null"
    case Bool(b) => if b then "true" else "false"
    case Num(n) => ShowInt(n)
    case NaN => "NaN"
    case Str(s) => s
    case Obj => "[object Object]"
  }

  /** `validateId`: `parseInt(id, 10)`, rejected when it is `NaN` or not positive. */
  function ValidateId(id: JsValue, paramName: string): (r: Result<int, JsError>)
    ensures r.Ok? <==> ParseInt(JsString(id)).Some? && ParseInt(JsString(id)).value > 0
    ensures r.Ok? ==> Some(r.value) == ParseInt(JsString(id)) && r.value > 0
    ensures r.Err? ==> r.error == PlainError("无效的 " + paramName + ": " + JsString(id))
  {
    match ParseInt(JsString(id))
    case None => Err(PlainError("无效的 " + paramName + ": " + JsString(id)))
    case Some(n) => if n <= 0 then Err(PlainError("无效的 " + paramName + ": " + JsString(id))) else Ok(n)
  }

  /** Every positive number, and its decimal text, is accepted as itself;
      zero and negative numbers are rejected. */
  lemma ValidateIdNumbers(n: int, paramName: string)
    ensures n > 0 ==> ValidateId(Num(n), paramName) == Ok(n) && ValidateId(Str(ShowInt(n)), paramName) == Ok(n)
    ensures n <= 0 ==> ValidateId(Num(n), paramName).Err? && ValidateId(Str(ShowInt(n)), paramName).Err?
  {
    ParseIntShowInt(n);
  }

  /** `parseInt` stops at the first non-digit, so an id with trailing text
      ("12abc") is accepted as its leading number. */
  lemma ValidateIdTrailingText(n: nat, tail: string, paramName: string)
    requires n > 0 && (tail == [] || !IsDigit(tail[0]))
    ensures ValidateId(Str(ShowNat(n) + tail), paramName) == Ok(n)
  {
    ParseIntDigitsThen(ShowNat(n), tail);
    DecimalValueShowNat(n);
    assert JsString(Str(ShowNat(n) + tail)) == ShowNat(n) + tail;
  }

  /** A digit run followed by a non-digit parses to the run's value. */
  lemma ParseIntDigitsThen(d: string, tail: string)
    requires d != [] && AllDigits(d) && (tail == [] || !IsDigit(tail[0]))
    ensures ParseInt(d + tail) == Some(DecimalValue(d))
  {
    var s := d + tail;
    assert s[0] == d[0];
    DigitPrefixOfDigitsThen(d, tail);
    ParseIntOfDigitStart(s);
  }

  lemma ParseIntOfDigitStart(s: string)
    requires s != [] && IsDigit(s[0])
    ensures ParseInt(s) == Some(DecimalValue(DigitPrefix(s)))
  {
    assert TrimStart(s) == s;
    assert Unsigned(s) == s && Sign(s) == 1;
  }

  /** The digit prefix of a digit run followed by a non-digit is the run. */
  lemma {:induction false} DigitPrefixOfDigitsThen(d: string, tail: string)
    requires AllDigits(d) && (tail == [] || !IsDigit(tail[0]))
    ensures DigitPrefix(d + tail) == d
  {
    if d != [] {
      assert (d + tail)[0] == d[0] && (d + tail)[1..] == d[1..] + tail;
      DigitPrefixOfDigitsThen(d[1..], tail);
    } else {
      assert d + tail == tail;
    }
  }
}
