/** backend/src/publishing/publish-retry.policy.ts and publish-failure.ts. */
module RetryPolicy {
  import opened Wrappers
  import opened PostEntity

  const PUBLISH_RETRY_DELAYS_MS: seq<nat> := [30_000, 120_000, 600_000]
  const PUBLISH_MAX_ATTEMPTS: nat := |PUBLISH_RETRY_DELAYS_MS| + 1

  datatype PublishFailure = PublishFailure(code: ErrorCode, retryable: bool, ambiguous: bool, message: string)

  // What `catch (error)` can hold, as far as the classification looks at it.
  datatype ThrownError =
    | HttpStatus(status: nat, message: string)   // an error carrying a numeric provider status
    | TransportError(message: string)            // a TypeError, or an error with a network code
    | OtherError(message: string)

  /** None stands for the RangeError. */
  function RetryDelayForFailure(failureCount: nat): (delay: Option<nat>)
    ensures failureCount == 1 ==> delay == Some(30_000)
    ensures failureCount == 2 ==> delay == Some(120_000)
    ensures failureCount == 3 ==> delay == Some(600_000)
    ensures delay.None? <==> failureCount == 0 || failureCount > 3
  {
    if 1 <= failureCount <= |PUBLISH_RETRY_DELAYS_MS|
    then Some(PUBLISH_RETRY_DELAYS_MS[failureCount - 1])
    else None
  }

  function RetryDelayForBullMq(attemptsMade: int): (delay: Option<nat>)
    ensures attemptsMade <= 1 ==> delay == Some(30_000)
    ensures attemptsMade == 2 ==> delay == Some(120_000)
    ensures attemptsMade >= 3 ==> delay == Some(600_000)
  {
    var atLeastOne := if attemptsMade < 1 then 1 else attemptsMade;
    RetryDelayForFailure(if atLeastOne > 3 then 3 else atLeastOne)
  }

  predicate ShouldRetryPublish(failure: PublishFailure, failureCount: nat) {
    failure.retryable && failureCount <= |PUBLISH_RETRY_DELAYS_MS|
  }

  function ClassifyPublishFailure(error: ThrownError): (failure: PublishFailure)
    ensures failure.ambiguous ==> failure.retryable
    ensures !failure.ambiguous <==> error.HttpStatus? && 400 <= error.status < 500
    ensures failure.retryable && !failure.ambiguous <==> error.HttpStatus? && error.status == 429
    ensures failure.message == error.message
    ensures failure.code == TokenExpired <==> error.HttpStatus? && error.status == 401
    ensures failure.code == PermissionDenied <==> error.HttpStatus? && error.status == 403
    ensures failure.code == RateLimited <==> error.HttpStatus? && error.status == 429
    ensures failure.code == InvalidRequest <==>
              error.HttpStatus? && 400 <= error.status < 500 && error.status !in {401, 403, 429}
    ensures failure.code == UpstreamServerError <==> error.HttpStatus? && error.status >= 500
    ensures failure.code == NetworkError <==> error.TransportError?
    ensures failure.code == UnknownError <==> error.OtherError? || (error.HttpStatus? && error.status < 400)
  {
    match error
    case HttpStatus(status, message) =>
      if status == 401 then PublishFailure(TokenExpired, false, false, message)
      else if status == 403 then PublishFailure(PermissionDenied, false, false, message)
      else if status == 429 then PublishFailure(RateLimited, true, false, message)
      else if status >= 500 then PublishFailure(UpstreamServerError, true, true, message)
      else if status >= 400 then PublishFailure(InvalidRequest, false, false, message)
      else PublishFailure(UnknownError, true, true, message)
    case TransportError(message) => PublishFailure(NetworkError, true, true, message)
    case OtherError(message) => PublishFailure(UnknownError, true, true, message)
  }
}
