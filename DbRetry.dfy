/** The busy-retry wrapper of the data layer (`withRetry` / `withRetrySync` in
    lib/db.ts). The wrapped operation is a function from the attempt number to
    what that call does: return a value or throw an error. Waiting is not
    modelled as time; the wrapper reports the delays it would wait. */
module DbRetry {
  import opened Common
  import opened Text

  /** `isSqliteBusyError`: the code is `SQLITE_BUSY`, or the message mentions
      `SQLITE_BUSY` or `database is locked`. */
  predicate IsSqliteBusyError(e: JsError) {
    e.code == Some("SQLITE_BUSY") ||
    (e.message.Some? && (Contains(e.message.value, "SQLITE_BUSY") || Contains(e.message.value, "database is locked")))
  }

  /** What one call of the wrapped operation does. */
  datatype Attempt<T> = Returned(value: T) | Threw(error: JsError)

  /** What the wrapper throws: an error, or `undefined` (the initial `lastError`). */
  datatype Thrown = ThrownError(error: JsError) | ThrownUndefined

  /** The outcome of a wrapped run, the delays waited between calls, and the number of calls. */
  datatype RetryRun<T> = RetryRun(outcome: Result<T, Thrown>, delays: seq<int>, calls: nat)

  predicate BusyThrow<T>(a: Attempt<T>) {
    a.Threw? && IsSqliteBusyError(a.error)
  }

  function Pow2(n: nat): (r: nat)
    ensures r >= 1
  {
    if n == 0 then 1 else 2 * Pow2(n - 1)
  }

  /** The exponential back-off schedule: `retryDelay * 2^k` before call `k + 1`. */
  function Delays(retryDelay: int, n: nat): (r: seq<int>)
    ensures |r| == n
    ensures forall k :: 0 <= k < n ==> r[k] == retryDelay * Pow2(k)
  {
    if n == 0 then [] else Delays(retryDelay, n - 1) + [retryDelay * Pow2(n - 1)]
  }

  /** The error thrown once every allowed call was busy; it reports the number of calls. */
  function ExhaustedError(calls: nat): JsError {
    PlainError("数据库繁忙,请稍后重试 (尝试 " + ShowNat(calls) + " 次)")
  }

  /** The wrapper continued from call number `attempt`. */
  function RetryFrom<T>(op: nat -> Attempt<T>, maxRetries: int, retryDelay: int, attempt: nat): (r: RetryRun<T>)
    requires attempt <= maxRetries
    ensures 1 <= r.calls <= maxRetries - attempt + 1
    ensures r.outcome.Err? ==> r.outcome.error.ThrownError?
    decreases maxRetries - attempt
  {
    match op(attempt)
    case Returned(v) => RetryRun(Ok(v), [], 1)
    case Threw(e) =>
      if !IsSqliteBusyError(e) then RetryRun(Err(ThrownError(e)), [], 1)
      else if attempt == maxRetries then RetryRun(Err(ThrownError(ExhaustedError(maxRetries + 1))), [], 1)
      else
        var rest := RetryFrom(op, maxRetries, retryDelay, attempt + 1);
        RetryRun(rest.outcome, [retryDelay * Pow2(attempt)] + rest.delays, rest.calls + 1)
  }

  /** `withRetrySync(operation, maxRetries, retryDelay)` as a value. With a
      negative `maxRetries` the loop never runs and `undefined` is thrown. */
  function WithRetry<T>(op: nat -> Attempt<T>, maxRetries: int, retryDelay: int): RetryRun<T> {
    if maxRetries < 0 then RetryRun(Err(ThrownUndefined), [], 0)
    else RetryFrom(op, maxRetries, retryDelay, 0)
  }

  /** What the wrapper does with the first call that is not a busy error. */
  function Propagated<T>(a: Attempt<T>): Result<T, Thrown> {
    match a
    case Returned(v) => Ok(v)
    case Threw(e) => Err(ThrownError(e))
  }

  /** Unfolding the first `attempt` calls, all of them busy. */
  lemma {:induction false} RetryAfterBusyPrefix<T>(op: nat -> Attempt<T>, maxRetries: int, retryDelay: int, attempt: nat)
    requires attempt <= maxRetries
    requires forall k :: 0 <= k < attempt ==> BusyThrow(op(k))
    ensures var rest := RetryFrom(op, maxRetries, retryDelay, attempt);
            RetryFrom(op, maxRetries, retryDelay, 0)
              == RetryRun(rest.outcome, Delays(retryDelay, attempt) + rest.delays, attempt + rest.calls)
  {
    if attempt > 0 {
      RetryAfterBusyPrefix(op, maxRetries, retryDelay, attempt - 1);
      var rest := RetryFrom(op, maxRetries, retryDelay, attempt);
      assert BusyThrow(op(attempt - 1));
      assert RetryFrom(op, maxRetries, retryDelay, attempt - 1)
        == RetryRun(rest.outcome, [retryDelay * Pow2(attempt - 1)] + rest.delays, rest.calls + 1);
      assert Delays(retryDelay, attempt - 1) + ([retryDelay * Pow2(attempt - 1)] + rest.delays)
        == Delays(retryDelay, attempt) + rest.delays;
    }
  }

  /** The whole behaviour of the wrapper. The first call that is not a busy error
      decides the outcome after exactly that many calls, with the back-off delays
      before each retry. When all `maxRetries + 1` calls are busy, the exhaustion
      error is thrown, reporting `maxRetries + 1` calls. */
  lemma RetryCharacterised<T>(op: nat -> Attempt<T>, maxRetries: nat, retryDelay: int)
    ensures (forall k :: 0 <= k <= maxRetries ==> BusyThrow(op(k))) ==>
      WithRetry(op, maxRetries, retryDelay)
        == RetryRun(Err(ThrownError(ExhaustedError(maxRetries + 1))), Delays(retryDelay, maxRetries), maxRetries + 1)
    ensures forall k :: 0 <= k <= maxRetries && !BusyThrow(op(k)) && (forall j :: 0 <= j < k ==> BusyThrow(op(j))) ==>
      WithRetry(op, maxRetries, retryDelay) == RetryRun(Propagated(op(k)), Delays(retryDelay, k), k + 1)
  {
    if forall k :: 0 <= k <= maxRetries ==> BusyThrow(op(k)) {
      RetryAfterBusyPrefix(op, maxRetries, retryDelay, maxRetries);
    }
    forall k | 0 <= k <= maxRetries && !BusyThrow(op(k)) && (forall j :: 0 <= j < k ==> BusyThrow(op(j)))
      ensures WithRetry(op, maxRetries, retryDelay) == RetryRun(Propagated(op(k)), Delays(retryDelay, k), k + 1)
    {
      RetryAfterBusyPrefix(op, maxRetries, retryDelay, k);
    }
  }

  /** A retried call never makes more than `maxRetries + 1` calls and waits
      once between consecutive calls. */
  lemma RetryBounds<T>(op: nat -> Attempt<T>, maxRetries: int, retryDelay: int)
    ensures WithRetry(op, maxRetries, retryDelay).calls <= if maxRetries < 0 then 0 else maxRetries + 1
    ensures maxRetries >= 0 ==> |WithRetry(op, maxRetries, retryDelay).delays| == WithRetry(op, maxRetries, retryDelay).calls - 1
  {
    if maxRetries >= 0 {
      DelaysPerCall(op, maxRetries, retryDelay, 0);
    }
  }

  lemma {:induction false} DelaysPerCall<T>(op: nat -> Attempt<T>, maxRetries: int, retryDelay: int, attempt: nat)
    requires attempt <= maxRetries
    ensures |RetryFrom(op, maxRetries, retryDelay, attempt).delays| == RetryFrom(op, maxRetries, retryDelay, attempt).calls - 1
    decreases maxRetries - attempt
  {
    if op(attempt).Threw? && IsSqliteBusyError(op(attempt).error) && attempt < maxRetries {
      DelaysPerCall(op, maxRetries, retryDelay, attempt + 1);
    }
  }

  /** The exhaustion error is not itself a busy error: it has no code, and its
      message mentions neither `SQLITE_BUSY` nor `database is locked`. */
  lemma ExhaustedErrorNotBusy(calls: nat)
    ensures !IsSqliteBusyError(ExhaustedError(calls))
  {
    var head := "数据库繁忙,请稍后重试 (尝试 ";
    var digits := ShowNat(calls);
    var tail := " 次)";
    var m := head + digits + tail;
    assert ExhaustedError(calls).message == Some(m);
    assert 'S' !in head && 'S' !in tail && 'd' !in head && 'd' !in tail;
    assert 'S' !in m && 'd' !in m by {
      forall i | 0 <= i < |m| ensures m[i] != 'S' && m[i] != 'd' {
        if i < |head| {
          assert m[i] == head[i];
        } else if i < |head| + |digits| {
          assert m[i] == digits[i - |head|];
        } else {
          assert m[i] == tail[i - |head| - |digits|];
        }
      }
    }
    if Contains(m, "SQLITE_BUSY") {
      ContainsFirstChar(m, "SQLITE_BUSY");
    }
    if Contains(m, "database is locked") {
      ContainsFirstChar(m, "database is locked");
    }
  }

  /** `withRetrySync`: the retry loop, proved to behave as `WithRetry`. */
  method WithRetrySync<T>(op: nat -> Attempt<T>, maxRetries: int, retryDelay: int) returns (run: RetryRun<T>)
    ensures run == WithRetry(op, maxRetries, retryDelay)
  {
    var delays: seq<int> := [];
    var attempt: nat := 0;
    while attempt <= maxRetries
      invariant attempt <= maxRetries + 1 || maxRetries < 0
      invariant forall k :: 0 <= k < attempt ==> BusyThrow(op(k))
      invariant delays == Delays(retryDelay, attempt)
      invariant attempt > 0 ==> attempt <= maxRetries
      decreases maxRetries - attempt
    {
      RetryAfterBusyPrefix(op, maxRetries, retryDelay, attempt);
      match op(attempt)
      case Returned(v) =>
        return RetryRun(Ok(v), delays, attempt + 1);
      case Threw(e) =>
        if !IsSqliteBusyError(e) {
          return RetryRun(Err(ThrownError(e)), delays, attempt + 1);
        }
        if attempt == maxRetries {
          return RetryRun(Err(ThrownError(ExhaustedError(maxRetries + 1))), delays, attempt + 1);
        }
        delays := delays + [retryDelay * Pow2(attempt)];
        attempt := attempt + 1;
    }
    run := RetryRun(Err(ThrownUndefined), [], 0);
  }
}
