/** `GET /api/search` (app/api/search/route.ts): the checks on `q` and
    `limit`, the full-text search run under the busy-retry wrapper, and the
    success envelope, all inside the uniform error handler. What the FTS
    statement does on each call is the `engine` parameter; the elapsed time is
    a parameter too. */
module SearchRoute {
  import opened Common
  import opened Text
  import opened Db
  import DbRetry
  import opened ErrorHandler
  import opened Sorting

  /** The limit used when the request names none, and the largest one accepted. */
  const DefaultLimit := 20
  const MaxLimit := 100

  /** The retry settings the route leaves at their defaults. */
  const Retries := 5
  const RetryDelay := 100

  /** The `data` of a successful search. */
  datatype SearchPayload = SearchPayload(query: string, total: nat, searchTime: string, results: seq<ToolRow>)

  /** Why the checks refused a request. */
  datatype Rejection = Rejection(message: string, errorType: ErrorType)

  /** `!query || query.trim() === ''`; `None` is a parameter that is absent. */
  predicate QueryMissing(q: Option<string>) {
    q.None? || Trim(q.value) == ""
  }

  /** `if (limitParam)`: a limit that is present and not empty. */
  predicate LimitGiven(limitParam: Option<string>) {
    limitParam.Some? && limitParam.value != ""
  }

  /** The query check, then the limit check when a limit is given; on success
      the query and the limit the search runs with. */
  function Checked(q: Option<string>, limitParam: Option<string>): (r: Result<(string, int), Rejection>)
    ensures r.Ok? ==> q == Some(r.value.0) && 1 <= r.value.1 <= MaxLimit
    ensures r.Ok? && !LimitGiven(limitParam) ==> r.value.1 == DefaultLimit
    ensures r.Ok? && LimitGiven(limitParam) ==> ParseInt(limitParam.value) == Some(r.value.1)
    ensures r.Err? ==> r.error.errorType == if QueryMissing(q) then BadRequest else ValidationError
  {
    if q.None? || q.value == "" || Trim(q.value) == "" then Err(Rejection("缺少搜索关键词", BadRequest))
    else if !LimitGiven(limitParam) then Ok((q.value, DefaultLimit))
    else
      match ParseInt(limitParam.value)
      case None => Err(Rejection("无效的 limit 参数", ValidationError))
      case Some(n) =>
        if n <= 0 then Err(Rejection("无效的 limit 参数", ValidationError))
        else if n > MaxLimit then Err(Rejection("limit 不能超过 100", ValidationError))
        else Ok((q.value, n))
  }

  /** Every way the checks can end: a missing query is a bad request whatever
      the limit; a given limit that does not parse or is not positive is
      invalid; one above 100 is too large; everything else is accepted. */
  lemma CheckedOutcomes(q: Option<string>, limitParam: Option<string>)
    ensures QueryMissing(q) <==> Checked(q, limitParam) == Err(Rejection("缺少搜索关键词", BadRequest))
    ensures Checked(q, limitParam) == Err(Rejection("无效的 limit 参数", ValidationError)) <==>
      !QueryMissing(q) && LimitGiven(limitParam)
      && (ParseInt(limitParam.value).None? || ParseInt(limitParam.value).value <= 0)
    ensures Checked(q, limitParam) == Err(Rejection("limit 不能超过 100", ValidationError)) <==>
      !QueryMissing(q) && LimitGiven(limitParam)
      && ParseInt(limitParam.value).Some? && ParseInt(limitParam.value).value > MaxLimit
    ensures Checked(q, limitParam).Ok? <==>
      !QueryMissing(q)
      && (!LimitGiven(limitParam) || (ParseInt(limitParam.value).Some? && 1 <= ParseInt(limitParam.value).value <= MaxLimit))
  {
  }

  /** One call of `searchTools` under the wrapper, given what the FTS statement does on it. */
  function SearchAttempt(s: Snapshot, query: string, limit: int, engine: FtsOutcome): DbRetry.Attempt<seq<ToolRow>> {
    match SearchTools(s, query, limit, engine)
    case Ok(rows) => DbRetry.Returned(rows)
    case Err(e) => DbRetry.Threw(e)
  }

  /** The wrapped operation: call `k` meets the statement as `engine(k)`. */
  function SearchOp(s: Snapshot, query: string, limit: int, engine: nat -> FtsOutcome): nat -> DbRetry.Attempt<seq<ToolRow>> {
    (k: nat) => SearchAttempt(s, query, limit, engine(k))
  }

  /** `withRetrySync(() => dbHelpers.searchTools(query, limit))` */
  function SearchRun(s: Snapshot, query: string, limit: int, engine: nat -> FtsOutcome): DbRetry.RetryRun<seq<ToolRow>> {
    DbRetry.WithRetry(SearchOp(s, query, limit, engine), Retries, RetryDelay)
  }

  /** The handler inside the wrapper: the refusal, the success envelope, or
      the error the retried search threw. */
  function Handler(s: Snapshot, q: Option<string>, limitParam: Option<string>, engine: nat -> FtsOutcome,
                   elapsed: nat, development: bool, now: string): Result<ApiResponse<SearchPayload>, JsError>
  {
    match Checked(q, limitParam)
    case Err(rejection) => Ok(CreateErrorResponse(ErrorInput.Text(rejection.message), rejection.errorType, None, development, now))
    case Ok((query, limit)) =>
      var run := SearchRun(s, query, limit, engine);
      match run.outcome
      case Ok(results) =>
        Ok(CreateSuccessResponse(Some(SearchPayload(query, |results|, ShowNat(elapsed) + "ms", results)), None, now))
      case Err(thrown) => Err(thrown.error)
  }

  /** `GET = withErrorHandler(...)` */
  function Get(s: Snapshot, q: Option<string>, limitParam: Option<string>, engine: nat -> FtsOutcome,
               elapsed: nat, development: bool, now: string): ApiResponse<SearchPayload>
  {
    WithErrorHandler(Handler(s, q, limitParam, engine, elapsed, development, now), development, now)
  }

  /** A refused request is answered before any search: the answer depends on
      neither the store, the engine nor the clock, and carries the refusal's
      status, code and message. A missing query is a 400. */
  lemma RefusedBeforeSearch(s1: Snapshot, s2: Snapshot, q: Option<string>, limitParam: Option<string>,
                            engine1: nat -> FtsOutcome, engine2: nat -> FtsOutcome, elapsed1: nat, elapsed2: nat,
                            development: bool, now: string)
    requires Checked(q, limitParam).Err?
    ensures Get(s1, q, limitParam, engine1, elapsed1, development, now) == Get(s2, q, limitParam, engine2, elapsed2, development, now)
    ensures var r := Get(s1, q, limitParam, engine1, elapsed1, development, now);
      var rejection := Checked(q, limitParam).error;
      r.status == StatusOf(rejection.errorType) && r.body.ErrorBody?
      && r.body.code == Code(rejection.errorType) && r.body.error == Some(rejection.message) && r.body.details.None?
    ensures QueryMissing(q) ==> Get(s1, q, limitParam, engine1, elapsed1, development, now).status == 400
    ensures !QueryMissing(q) ==> Get(s1, q, limitParam, engine1, elapsed1, development, now).status == 422
  {
    RefusedAnswer(s1, q, limitParam, engine1, elapsed1, development, now);
    RefusedAnswer(s2, q, limitParam, engine2, elapsed2, development, now);
    RefusalResponse(Checked(q, limitParam).error, development, now);
  }

  /** The error response of a refusal: its status, code and message and no
      details; a bad request is a 400 and a validation error a 422. */
  lemma RefusalResponse(rejection: Rejection, development: bool, now: string)
    ensures var r: ApiResponse<SearchPayload> := CreateErrorResponse(ErrorInput.Text(rejection.message), rejection.errorType, None, development, now);
      r.status == StatusOf(rejection.errorType) && r.body.ErrorBody?
      && r.body.code == Code(rejection.errorType) && r.body.error == Some(rejection.message) && r.body.details.None?
      && (rejection.errorType == BadRequest ==> r.status == 400)
      && (rejection.errorType == ValidationError ==> r.status == 422)
  {
  }

  /** A refused request is answered with the error response of its refusal. */
  lemma RefusedAnswer(s: Snapshot, q: Option<string>, limitParam: Option<string>, engine: nat -> FtsOutcome,
                      elapsed: nat, development: bool, now: string)
    requires Checked(q, limitParam).Err?
    ensures var rejection := Checked(q, limitParam).error;
      Get(s, q, limitParam, engine, elapsed, development, now)
        == CreateErrorResponse(ErrorInput.Text(rejection.message), rejection.errorType, None, development, now)
  {
    var rejection := Checked(q, limitParam).error;
    var resp: ApiResponse<SearchPayload> := CreateErrorResponse(ErrorInput.Text(rejection.message), rejection.errorType, None, development, now);
    assert Handler(s, q, limitParam, engine, elapsed, development, now) == Ok(resp);
  }

  /** A successful answer echoes the query, counts its results, stays within
      the limit and lists only tools the listing shows, each as its listing row. */
  lemma SuccessEnvelope(s: Snapshot, q: Option<string>, limitParam: Option<string>, engine: nat -> FtsOutcome,
                        elapsed: nat, development: bool, now: string)
    requires Get(s, q, limitParam, engine, elapsed, development, now).status == 200
    ensures var r := Get(s, q, limitParam, engine, elapsed, development, now);
      Checked(q, limitParam).Ok? && r.body.SuccessBody? && r.body.data.Some? && r.body.message.None?
      && (var p := r.body.data.value;
          Some(p.query) == q && p.total == |p.results| && p.total <= Checked(q, limitParam).value.1 <= MaxLimit
          && p.searchTime == ShowNat(elapsed) + "ms"
          && (forall i :: 0 <= i < |p.results| ==> IsListedTool(s, p.results[i].id) && p.results[i] == ListedRow(s, p.results[i].id)))
  {
    match Checked(q, limitParam)
    case Err(rejection) =>
      CheckedOutcomes(q, limitParam);
    case Ok((query, limit)) =>
      match SearchRun(s, query, limit, engine).outcome
      case Ok(results) =>
        SearchRunRows(s, query, limit, engine);
      case Err(thrown) =>
        ParsedStatus(thrown.error);
  }

  /** The rows a retried search returns are what one call returned: at most
      `limit` of them, each a listed tool as its listing row. */
  lemma SearchRunRows(s: Snapshot, query: string, limit: int, engine: nat -> FtsOutcome)
    requires SearchRun(s, query, limit, engine).outcome.Ok?
    ensures var rows := SearchRun(s, query, limit, engine).outcome.value;
      (0 <= limit ==> |rows| <= limit)
      && forall i :: 0 <= i < |rows| ==> IsListedTool(s, rows[i].id) && rows[i] == ListedRow(s, rows[i].id)
  {
    var op := SearchOp(s, query, limit, engine);
    var results := SearchRun(s, query, limit, engine).outcome.value;
    RetryResult(op, Retries, RetryDelay, 0);
    var k :| 0 <= k <= Retries && op(k) == DbRetry.Returned(results);
    assert SearchTools(s, query, limit, engine(k)) == Ok(results);
  }

  /** Whatever a run of the wrapper returns is what some call returned. */
  lemma {:induction false} RetryResult<T>(op: nat -> DbRetry.Attempt<T>, maxRetries: int, retryDelay: int, attempt: nat)
    requires attempt <= maxRetries
    ensures var r := DbRetry.RetryFrom(op, maxRetries, retryDelay, attempt);
      r.outcome.Ok? ==> exists k :: attempt <= k <= maxRetries && op(k) == DbRetry.Returned(r.outcome.value)
    decreases maxRetries - attempt
  {
    if op(attempt).Threw? && DbRetry.IsSqliteBusyError(op(attempt).error) && attempt < maxRetries {
      RetryResult(op, maxRetries, retryDelay, attempt + 1);
    }
  }

  /** A first call that finds hits answers with the listed hits in rank order,
      cut to the limit; with no limit given that is 20. */
  lemma HitsAnswered(s: Snapshot, q: Option<string>, limitParam: Option<string>, engine: nat -> FtsOutcome,
                     elapsed: nat, development: bool, now: string)
    requires Checked(q, limitParam).Ok? && engine(0).Hits?
    ensures var r := Get(s, q, limitParam, engine, elapsed, development, now);
      var limit := Checked(q, limitParam).value.1;
      r.status == 200 && r.body.SuccessBody? && r.body.data.Some?
      && r.body.data.value.results == Take(ListedHits(s, engine(0).rowids), limit)
      && (!LimitGiven(limitParam) ==> r.body.data.value.results == Take(ListedHits(s, engine(0).rowids), DefaultLimit))
  {
    var (query, limit) := Checked(q, limitParam).value;
    var op := SearchOp(s, query, limit, engine);
    assert op(0) == DbRetry.Returned(Take(ListedHits(s, engine(0).rowids), limit));
  }

  /** An FTS error mentioning `fts5` on the first call is an empty success, not an error. */
  lemma FtsErrorAnsweredEmpty(s: Snapshot, q: Option<string>, limitParam: Option<string>, engine: nat -> FtsOutcome,
                              elapsed: nat, development: bool, now: string)
    requires Checked(q, limitParam).Ok? && engine(0).EngineError?
    requires engine(0).error.message.Some? && Contains(engine(0).error.message.value, "fts5")
    ensures var r := Get(s, q, limitParam, engine, elapsed, development, now);
      r.status == 200 && r.body.SuccessBody? && r.body.data.Some?
      && r.body.data.value.results == [] && r.body.data.value.total == 0
  {
    var (query, limit) := Checked(q, limitParam).value;
    var op := SearchOp(s, query, limit, engine);
    assert op(0) == DbRetry.Returned([]);
  }

  /** Any other error of the first call that is not a busy error is answered
      as the error handler classifies it. */
  lemma OtherErrorClassified(s: Snapshot, q: Option<string>, limitParam: Option<string>, engine: nat -> FtsOutcome,
                             elapsed: nat, development: bool, now: string)
    requires Checked(q, limitParam).Ok? && engine(0).EngineError?
    requires !(engine(0).error.message.Some? && Contains(engine(0).error.message.value, "fts5"))
    requires !DbRetry.IsSqliteBusyError(engine(0).error)
    ensures Get(s, q, limitParam, engine, elapsed, development, now) == WithErrorHandler(Err(engine(0).error), development, now)
  {
    var (query, limit) := Checked(q, limitParam).value;
    var op := SearchOp(s, query, limit, engine);
    assert op(0) == DbRetry.Threw(engine(0).error);
  }

  /** When the database stays busy for all six calls, the answer is a 500
      INTERNAL_ERROR carrying the wrapper's message, not a 503: the error the
      wrapper throws in the end no longer looks busy. */
  lemma BusyThroughoutIsInternal(s: Snapshot, q: Option<string>, limitParam: Option<string>, engine: nat -> FtsOutcome,
                                 elapsed: nat, development: bool, now: string)
    requires Checked(q, limitParam).Ok?
    requires forall k: nat :: k <= Retries ==>
      engine(k).EngineError? && DbRetry.IsSqliteBusyError(engine(k).error)
      && !(engine(k).error.message.Some? && Contains(engine(k).error.message.value, "fts5"))
    ensures var r := Get(s, q, limitParam, engine, elapsed, development, now);
      r.status == 500 && r.body.ErrorBody? && r.body.code == "INTERNAL_ERROR"
      && r.body.error == DbRetry.ExhaustedError(Retries + 1).message
  {
    var (query, limit) := Checked(q, limitParam).value;
    BusySearchExhausted(s, query, limit, engine);
    var e := DbRetry.ExhaustedError(Retries + 1);
    assert Handler(s, q, limitParam, engine, elapsed, development, now) == Err(e);
    ExhaustedRetriesAreInternal(Retries + 1);
  }

  /** Six busy calls end the retried search with the wrapper's exhaustion error. */
  lemma BusySearchExhausted(s: Snapshot, query: string, limit: int, engine: nat -> FtsOutcome)
    requires Trim(query) != ""
    requires forall k: nat :: k <= Retries ==>
      engine(k).EngineError? && DbRetry.IsSqliteBusyError(engine(k).error)
      && !(engine(k).error.message.Some? && Contains(engine(k).error.message.value, "fts5"))
    ensures SearchRun(s, query, limit, engine).outcome == Err(DbRetry.ThrownError(DbRetry.ExhaustedError(Retries + 1)))
  {
    var op := SearchOp(s, query, limit, engine);
    forall k | 0 <= k <= Retries ensures DbRetry.BusyThrow(op(k)) {
      assert op(k) == DbRetry.Threw(engine(k).error);
    }
    DbRetry.RetryCharacterised(op, Retries, RetryDelay);
  }
}
