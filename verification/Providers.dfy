/** Provider errors and the policy attached to each kind. */
module Providers {
  import opened Common

  datatype ErrorKind =
    | AuthError | RateLimited | ClientError | ModelUnavailable | QuotaExhausted
    | ServerError | NetworkError | ParsingError | EmptyResponse | ContentFiltered | UnknownError

  /** `retryAfter` is the delay-seconds form of Retry-After (section 10.2.3 of RFC 9110). */
  datatype ProviderError = ProviderError(
    provider: string, kind: ErrorKind, status: Option<int>, retryAfter: Option<real>)

  predicate IsTransient(e: ProviderError) {
    e.kind in {ServerError, NetworkError}
  }

  predicate TryNextModel(e: ProviderError) {
    e.kind in {EmptyResponse, ContentFiltered}
  }

  /** Kinds that never feed the circuit breaker. */
  predicate IsBenign(kind: ErrorKind) {
    kind in {RateLimited, ClientError, ContentFiltered, AuthError, QuotaExhausted, ModelUnavailable}
  }

  const RATE_LIMIT_DEFAULT_QUARANTINE_S := 60.0
  const DAILY_QUOTA_QUARANTINE_S := 3600.0
  const BILLING_QUOTA_QUARANTINE_S := 21600.0
  const AUTH_QUARANTINE_S := 86400.0
  const MODEL_UNAVAILABLE_QUARANTINE_S := 3600.0
  const DEFAULT_RESET_S := 60.0

  /** A hint of `None` or zero counts as absent. */
  predicate Truthy(hint: Option<real>) {
    hint.Some? && hint.value != 0.0
  }

  function QuarantineSecondsFor(e: ProviderError, allModelsUnavailable: bool): Option<real> {
    match e.kind
    case RateLimited => if Truthy(e.retryAfter) then e.retryAfter else Some(RATE_LIMIT_DEFAULT_QUARANTINE_S)
    case QuotaExhausted =>
      if Truthy(e.retryAfter) then e.retryAfter
      else if e.status == Some(402) then Some(BILLING_QUOTA_QUARANTINE_S)
      else Some(DAILY_QUOTA_QUARANTINE_S)
    case AuthError => Some(AUTH_QUARANTINE_S)
    case ModelUnavailable => if allModelsUnavailable then Some(MODEL_UNAVAILABLE_QUARANTINE_S) else None
    case _ => None
  }

  /** Quota left, as reported in the headers of a response. */
  datatype RateLimitInfo = RateLimitInfo(
    remainingRequests: Option<int>, resetRequestsS: Option<real>,
    remainingTokens: Option<int>, resetTokensS: Option<real>)

  /** Only an explicit zero (or less) counts as an empty bucket. */
  predicate Empty(remaining: Option<int>) {
    remaining.Some? && remaining.value <= 0
  }

  function ResetWait(reset: Option<real>): real {
    if Truthy(reset) then reset.value else DEFAULT_RESET_S
  }

  function WaitFor(remaining: Option<int>, reset: Option<real>): Option<real> {
    if Empty(remaining) then Some(ResetWait(reset)) else None
  }

  /** Seconds to stop sending traffic: the longest wait of the empty buckets, if any is empty. */
  function ExhaustedFor(i: RateLimitInfo): Option<real> {
    match (WaitFor(i.remainingRequests, i.resetRequestsS), WaitFor(i.remainingTokens, i.resetTokensS))
    case (Some(a), Some(b)) => Some(MaxReal(a, b))
    case (Some(a), None) => Some(a)
    case (None, b) => b
  }

  /** `exhausted_for`. */
  method SecondsExhausted(i: RateLimitInfo) returns (wait: Option<real>)
    ensures wait == ExhaustedFor(i)
    ensures wait.None? <==> !Empty(i.remainingRequests) && !Empty(i.remainingTokens)
    ensures wait.Some? ==>
      && (Empty(i.remainingRequests) ==> wait.value >= ResetWait(i.resetRequestsS))
      && (Empty(i.remainingTokens) ==> wait.value >= ResetWait(i.resetTokensS))
      && ((Empty(i.remainingRequests) && wait.value == ResetWait(i.resetRequestsS))
          || (Empty(i.remainingTokens) && wait.value == ResetWait(i.resetTokensS)))
  {
    var waits: seq<real> := [];
    var requests, tokens := WaitFor(i.remainingRequests, i.resetRequestsS), WaitFor(i.remainingTokens, i.resetTokensS);
    if requests.Some? {
      waits := waits + [requests.value];
    }
    if tokens.Some? {
      waits := waits + [tokens.value];
    }
    if waits == [] {
      return None;
    }
    var longest := waits[0];
    for k := 1 to |waits|
      invariant exists j :: 0 <= j < k && longest == waits[j]
      invariant forall j | 0 <= j < k :: waits[j] <= longest
    {
      if waits[k] > longest {
        longest := waits[k];
      }
    }
    assert waits[0] <= longest && (|waits| > 1 ==> waits[1] <= longest);
    wait := Some(longest);
  }

  /** Only benign kinds are ever given an explicit quarantine: the policy and the breaker never
      both act on the same error. */
  lemma QuarantineOnlyForBenign(e: ProviderError, allModelsUnavailable: bool)
    ensures QuarantineSecondsFor(e, allModelsUnavailable).Some? ==> IsBenign(e.kind) && !IsTransient(e)
  {
  }
}
