/** What each way a call can fail means for the next call, the next model and the models' memory, kind by
    kind. */
module ModelOutcomes {
  import opened Common
  import opened Providers
  import opened ModelCooldowns
  import opened Upstream

  // ---------- retries ----------

  /** Call `i` failed with a server or a network error, and the request was not cancelled in the pause. */
  predicate WorthRetrying(calls: Calls, i: nat) {
    match calls.attempt(i)
    case Failed(e) => (e.kind == ServerError || e.kind == NetworkError) && !calls.cancelledInPause(i)
    case _ => false
  }

  /** Calls are made until one is not worth retrying or the budget is spent, and no longer; the last one
      decides, a cancellation in the pause after it included. */
  lemma {:induction false} RetriesWhileWorthIt(provider: string, calls: Calls, budget: nat, k: nat)
    requires k <= budget
    ensures var (result, made) := RetryFrom(provider, calls, budget, k);
      var last := made - 1;
      && k <= last <= budget && (forall i | k <= i < last :: WorthRetrying(calls, i))
      && (WorthRetrying(calls, last) ==> last == budget)
      && result == match calls.attempt(last)
                   case Answered(r) => Got(r)
                   case Crashed => Lost(ProviderError(provider, UnknownError, None, None))
                   case Cancelled => Aborted
                   case Failed(e) =>
                     if (e.kind == ServerError || e.kind == NetworkError) && last < budget then Aborted else Lost(e)
    decreases budget - k
  {
    if k < budget && WorthRetrying(calls, k) {
      RetriesWhileWorthIt(provider, calls, budget, k + 1);
    }
  }

  // ---------- the next model ----------

  /** The error is the model's, so another model of the provider may do better: it is gone; it has a quota
      of its own, and that is used up (an empty account, status 402, is not the model's); or its answer
      was empty or filtered. */
  predicate IsTheModels(perModelQuota: bool, e: ProviderError) {
    || e.kind == ModelUnavailable || e.kind == EmptyResponse || e.kind == ContentFiltered
    || (perModelQuota && (e.kind == RateLimited || e.kind == QuotaExhausted) && e.status != Some(402))
  }

  lemma GoesOnMeans(perModelQuota: bool, e: ProviderError)
    ensures GoesOn(perModelQuota, e) <==> IsTheModels(perModelQuota, e)
  {
  }

  /** The models are tried in order, each error of a model's own leading to the next one; an answer, an
      abort, or any other error ends the loop. */
  lemma TriedWhileModelsFail(c: Candidate)
    requires c.models != []
    ensures var t := ModelsFrom(c, 0, 0, []);
      && 1 <= t.upto <= |c.models| && t.result == ModelResult(c, t.upto - 1).0
      && (forall j | 0 <= j < t.upto - 1 ::
            ModelResult(c, j).0.Lost? && IsTheModels(c.perModelQuota, ModelResult(c, j).0.error))
      && (t.result.Lost? && IsTheModels(c.perModelQuota, t.result.error) ==> t.upto == |c.models|)
  {
    hide IsTheModels, GoesOn;
    ModelsInOrder(c, 0, 0, []);
    forall e: ProviderError ensures GoesOn(c.perModelQuota, e) <==> IsTheModels(c.perModelQuota, e) {
      GoesOnMeans(c.perModelQuota, e);
    }
  }

  /** Calls made by the first `n` models. */
  function CallsOf(c: Candidate, n: nat): nat
    requires n <= |c.models|
  {
    if n == 0 then 0 else CallsOf(c, n - 1) + ModelResult(c, n - 1).1
  }

  // ---------- what is remembered ----------

  /** The wait a limit error asks for: the provider's hint, or a default. */
  function HintOr(e: ProviderError, default: real): real {
    if e.retryAfter.Some? && e.retryAfter.value != 0.0 then e.retryAfter.value else default
  }

  /** How long the model is put aside, and why. */
  function PutAside(perModelQuota: bool, e: ProviderError): Option<(real, Reason)> {
    if e.kind == ModelUnavailable then Some((21600.0, Unavailable))
    else if perModelQuota && e.kind == RateLimited && e.status != Some(402) then
      Some((HintOr(e, 60.0), ModelRateLimited))
    else if perModelQuota && e.kind == QuotaExhausted && e.status != Some(402) then
      Some((HintOr(e, 3600.0), ModelQuota))
    else None
  }

  /** The answer says that a quota is used up, and for how long the longest one stays so. */
  ghost predicate ReportsEmptyFor(info: Option<RateLimitInfo>, wait: real) {
    info.Some? &&
    var requests, tokens := info.value.remainingRequests, info.value.remainingTokens;
    var noRequests, noTokens := requests.Some? && requests.value <= 0, tokens.Some? && tokens.value <= 0;
    var forRequests, forTokens := HintedReset(info.value.resetRequestsS), HintedReset(info.value.resetTokensS);
    && (noRequests || noTokens)
    && (noRequests ==> wait >= forRequests) && (noTokens ==> wait >= forTokens)
    && ((noRequests && wait == forRequests) || (noTokens && wait == forTokens))
  }

  function HintedReset(reset: Option<real>): real {
    if reset.Some? && reset.value != 0.0 then reset.value else 60.0
  }

  /** Where an empty quota is remembered: at the model, if quotas are per model, else for the provider. */
  function EmptyTarget(perModelQuota: bool, model: Option<string>, answered: string): string {
    if !perModelQuota then "*"
    else if model.Some? && model.value != "" then model.value
    else if answered != "" then answered
    else "*"
  }

  lemma HeadersMean(perModelQuota: bool, model: Option<string>, answered: string, info: Option<RateLimitInfo>)
    ensures var cools := NoteRateLimit(perModelQuota, model, answered, info);
      && (forall wait :: ReportsEmptyFor(info, wait) ==>
            wait != 0.0 && cools == [CoolRequest(EmptyTarget(perModelQuota, model, answered), wait, HeadersEmpty)])
      && ((forall wait :: !ReportsEmptyFor(info, wait)) ==> cools == [])
  {
    if info.Some? {
      var wait := ExhaustedFor(info.value);
      if wait.Some? {
        assert ReportsEmptyFor(info, wait.value);
      }
    }
  }

  lemma SkipMeans(perModelQuota: bool, e: ProviderError)
    ensures ModelSkip(perModelQuota, e) == PutAside(perModelQuota, e)
  {
  }

  /** What model `j` puts into the memory. */
  function OwnCools(c: Candidate, j: nat): seq<CoolRequest>
    requires j < |c.models|
  {
    match ModelResult(c, j).0
    case Aborted => []
    case Lost(e) =>
      (match (PutAside(c.perModelQuota, e), c.models[j])
       case (Some((seconds, reason)), Some(model)) => [CoolRequest(model, seconds, reason)]
       case _ => [])
    case Got(r) => NoteRateLimit(c.perModelQuota, c.models[j], r.model, r.rateLimit)
  }

  function AllCools(c: Candidate, i: nat, n: nat): seq<CoolRequest>
    requires i <= n <= |c.models|
    decreases n - i
  {
    if i == n then [] else OwnCools(c, i) + AllCools(c, i + 1, n)
  }

  /** One model's part of the loop. */
  lemma OneModel(c: Candidate, i: nat, calls: nat, cooled: seq<CoolRequest>)
    requires i < |c.models|
    ensures var (result, made) := ModelResult(c, i);
      ModelsFrom(c, i, calls, cooled) ==
        if result.Lost? && GoesOn(c.perModelQuota, result.error) && i + 1 < |c.models|
        then ModelsFrom(c, i + 1, calls + made, cooled + OwnCools(c, i))
        else Tried(result, i + 1, calls + made, cooled + OwnCools(c, i))
  {
    hide RetryFrom, NoteRateLimit;
    assert cooled + [] == cooled;
  }

  /** The memory is given exactly what the models tried ask for, in order. */
  lemma {:induction false} EachModelIsRemembered(c: Candidate, i: nat, calls: nat, cooled: seq<CoolRequest>)
    requires i < |c.models|
    ensures var t := ModelsFrom(c, i, calls, cooled);
      i < t.upto <= |c.models| && t.cooled == cooled + AllCools(c, i, t.upto)
    decreases |c.models| - i
  {
    hide ModelsFrom, ModelResult, OwnCools, GoesOn;
    OneModel(c, i, calls, cooled);
    var (result, made) := ModelResult(c, i);
    var own := OwnCools(c, i);
    assert own + [] == own;
    if result.Lost? && GoesOn(c.perModelQuota, result.error) && i + 1 < |c.models| {
      EachModelIsRemembered(c, i + 1, calls + made, cooled + own);
      var upto := ModelsFrom(c, i, calls, cooled).upto;
      assert (cooled + own) + AllCools(c, i + 1, upto) == cooled + (own + AllCools(c, i + 1, upto));
    }
  }

  /** And makes exactly the calls that the models tried make. */
  lemma {:induction false} EachModelIsCharged(c: Candidate, i: nat, calls: nat, cooled: seq<CoolRequest>)
    requires i < |c.models|
    ensures var t := ModelsFrom(c, i, calls, cooled);
      i < t.upto <= |c.models| && t.calls == calls + CallsOf(c, t.upto) - CallsOf(c, i)
    decreases |c.models| - i
  {
    hide ModelsFrom, ModelResult, OwnCools, GoesOn;
    OneModel(c, i, calls, cooled);
    var (result, made) := ModelResult(c, i);
    if result.Lost? && GoesOn(c.perModelQuota, result.error) && i + 1 < |c.models| {
      EachModelIsCharged(c, i + 1, calls + made, cooled + OwnCools(c, i));
    }
  }
}
