/** Trying one candidate: retries of one model, then the candidate's further models. The upstream
    is an oracle that says how each call ends. */
module Upstream {
  import opened Common
  import opened Providers
  import opened ModelCooldowns

  datatype Response = Response(
    content: string, model: string, promptTokens: nat, completionTokens: nat,
    rateLimit: Option<RateLimitInfo>)

  /** How one upstream call ends. `Crashed` is any exception that is not a provider error;
      `Cancelled` is the request being cancelled while it waits. */
  datatype Attempt = Answered(response: Response) | Failed(error: ProviderError) | Crashed | Cancelled

  /** One model's calls in order, and whether the request is cancelled in the pause after each. */
  datatype Calls = Calls(attempt: nat -> Attempt, cancelledInPause: nat -> bool)

  datatype Result = Got(response: Response) | Lost(error: ProviderError) | Aborted

  function UnknownErrorOf(provider: string): ProviderError {
    ProviderError(provider, UnknownError, None, None)
  }

  function BudgetOf(maxRetries: int): nat {
    MaxInt(0, maxRetries)
  }

  // ---------- one model ----------

  /** Retries from call number `k` on; with the number of calls made in all. */
  function RetryFrom(provider: string, calls: Calls, budget: nat, k: nat): (Result, nat)
    requires k <= budget
    decreases budget - k
  {
    match calls.attempt(k)
    case Answered(r) => (Got(r), k + 1)
    case Crashed => (Lost(UnknownErrorOf(provider)), k + 1)
    case Cancelled => (Aborted, k + 1)
    case Failed(e) =>
      if IsTransient(e) && k < budget then
        if calls.cancelledInPause(k) then (Aborted, k + 1) else RetryFrom(provider, calls, budget, k + 1)
      else (Lost(e), k + 1)
  }

  method TryWithRetry(provider: string, calls: Calls, maxRetries: int) returns (result: Result, made: nat)
    ensures (result, made) == RetryFrom(provider, calls, BudgetOf(maxRetries), 0)
  {
    var budget := BudgetOf(maxRetries);
    var lastError := UnknownErrorOf(provider);
    made := 0;
    while made <= budget
      invariant made <= budget
      invariant RetryFrom(provider, calls, budget, 0) == RetryFrom(provider, calls, budget, made)
      decreases budget - made
    {
      match calls.attempt(made) {
        case Answered(r) => return Got(r), made + 1;
        case Crashed => return Lost(UnknownErrorOf(provider)), made + 1;
        case Cancelled => return Aborted, made + 1;
        case Failed(e) =>
          if IsTransient(e) && made < budget {
            if calls.cancelledInPause(made) {
              return Aborted, made + 1;
            }
          } else {
            return Lost(e), made + 1;
          }
      }
      made := made + 1;
    }
    assert false;
  }

  /** At most max_retries + 1 calls; every call but the last failed transiently; the verdict is the
      last call's; and a transient failure is only reported once the budget is spent. */
  lemma {:induction false} RetriesAreBounded(provider: string, calls: Calls, budget: nat, k: nat)
    requires k <= budget
    ensures var (result, made) := RetryFrom(provider, calls, budget, k);
      && k < made <= budget + 1
      && (forall i | k <= i < made - 1 ::
            calls.attempt(i).Failed? && IsTransient(calls.attempt(i).error) && !calls.cancelledInPause(i))
      && (result.Got? <==> calls.attempt(made - 1).Answered?)
      && (result.Got? ==> calls.attempt(made - 1) == Answered(result.response))
      && (result.Lost? && calls.attempt(made - 1).Failed? ==> result.error == calls.attempt(made - 1).error)
      && (result.Lost? && calls.attempt(made - 1).Failed? && IsTransient(result.error) ==> made == budget + 1)
    decreases budget - k
  {
    if k < budget && calls.attempt(k).Failed? && IsTransient(calls.attempt(k).error) && !calls.cancelledInPause(k) {
      RetriesAreBounded(provider, calls, budget, k + 1);
    }
  }

  // ---------- a candidate's models ----------

  /** A ranked candidate as the loop meets it: the models `_models_for` yields, whether the
      reservation is granted, and its calls per model. */
  datatype Candidate = Candidate(
    name: string, models: seq<Option<string>>, granted: bool, maxRetries: int, perModelQuota: bool,
    upstream: nat -> Calls)

  /** A request to cool `target` for `seconds`. */
  datatype CoolRequest = CoolRequest(target: string, seconds: real, reason: Reason)

  function Asks(user: int, provider: string, cooled: seq<CoolRequest>): (asks: seq<Ask>)
    ensures |asks| == |cooled|
  {
    seq(|cooled|, i requires 0 <= i < |cooled| =>
      Ask(Slot(user, provider, cooled[i].target), cooled[i].seconds, cooled[i].reason))
  }

  lemma AsksAppend(user: int, provider: string, a: seq<CoolRequest>, b: seq<CoolRequest>)
    ensures Asks(user, provider, a + b) == Asks(user, provider, a) + Asks(user, provider, b)
  {
  }

  /** Cools what one model's outcome asks for, after `before` was asked for since `since`. */
  method CoolMore(memory: Cooldowns, clock: Clock, user: int, provider: string, more: seq<CoolRequest>,
                  ghost before: seq<CoolRequest>, ghost ever0: seq<Cooling>, ghost lost0: nat, ghost since: real)
    requires Ready(memory, clock) && clock.now >= since
    requires Grown(ever0, lost0, since, Asks(user, provider, before), memory.ever, memory.lost)
    modifies memory, clock
    ensures Ready(memory, clock) && clock.now >= since
    ensures Grown(ever0, lost0, since, Asks(user, provider, before + more), memory.ever, memory.lost)
  {
    hide Grown, Ready;
    ghost var ever1, lost1, later := memory.ever, memory.lost, clock.now;
    Remember(memory, clock, Asks(user, provider, more));
    GrownThen(ever0, lost0, since, Asks(user, provider, before), ever1, lost1,
              later, Asks(user, provider, more), memory.ever, memory.lost);
    AsksAppend(user, provider, before, more);
  }

  /** The error belongs to the model just tried, so the provider's next model is worth trying. */
  function ModelSkip(perModelQuota: bool, e: ProviderError): Option<(real, Reason)> {
    if e.kind == ModelUnavailable then Some((UNAVAILABLE_COOLDOWN_S, Unavailable))
    else if e.kind in {RateLimited, QuotaExhausted} && e.status != Some(402) && perModelQuota then
      var hint := QuarantineSecondsFor(e, false);
      Some((if Truthy(hint) then hint.value else RATE_LIMIT_DEFAULT_QUARANTINE_S,
            if e.kind == RateLimited then ModelRateLimited else ModelQuota))
    else None
  }

  function CoolModel(model: Option<string>, skip: (real, Reason)): seq<CoolRequest> {
    if model.None? then [] else [CoolRequest(model.value, skip.0, skip.1)]
  }

  /** A response that reports an empty quota cools its model, or the whole provider. */
  function NoteRateLimit(perModelQuota: bool, model: Option<string>, answered: string, info: Option<RateLimitInfo>)
    : seq<CoolRequest>
  {
    if info.None? || !Truthy(ExhaustedFor(info.value)) then []
    else
      var name := if model.Some? && model.value != "" then model.value else answered;
      [CoolRequest(if perModelQuota && name != "" then name else PROVIDER_WIDE,
                   ExhaustedFor(info.value).value, HeadersEmpty)]
  }

  /** After this error the loop goes on to the next model, if there is one. */
  predicate GoesOn(perModelQuota: bool, e: ProviderError) {
    ModelSkip(perModelQuota, e).Some? || TryNextModel(e)
  }

  datatype Tried = Tried(result: Result, upto: nat, calls: nat, cooled: seq<CoolRequest>)

  function ModelResult(c: Candidate, i: nat): (Result, nat) {
    RetryFrom(c.name, c.upstream(i), BudgetOf(c.maxRetries), 0)
  }

  /** The models from number `i` on; `upto` counts the models tried in all. */
  function ModelsFrom(c: Candidate, i: nat, calls: nat, cooled: seq<CoolRequest>): Tried
    requires i < |c.models|
    decreases |c.models| - i
  {
    var (result, made) := ModelResult(c, i);
    match result
    case Got(r) =>
      Tried(result, i + 1, calls + made, cooled + NoteRateLimit(c.perModelQuota, c.models[i], r.model, r.rateLimit))
    case Aborted => Tried(result, i + 1, calls + made, cooled)
    case Lost(e) =>
      var skip := ModelSkip(c.perModelQuota, e);
      var cooled' := if skip.Some? then cooled + CoolModel(c.models[i], skip.value) else cooled;
      if GoesOn(c.perModelQuota, e) && i + 1 < |c.models| then ModelsFrom(c, i + 1, calls + made, cooled')
      else Tried(result, i + 1, calls + made, cooled')
  }

  /** `_try_models`: the models in turn, cooling as it goes. */
  method TryModels(c: Candidate, user: int, memory: Cooldowns, clock: Clock) returns (tried: Tried)
    requires c.models != [] && Ready(memory, clock)
    modifies memory, clock
    ensures tried == ModelsFrom(c, 0, 0, [])
    ensures Ready(memory, clock) && clock.now >= old(clock.now)
    ensures Grown(old(memory.ever), old(memory.lost), old(clock.now), Asks(user, c.name, tried.cooled),
                  memory.ever, memory.lost)
  {
    hide Grown, Ready, NoteRateLimit, ModelSkip, CoolModel, RetryFrom;
    ghost var ever0, lost0, since := memory.ever, memory.lost, clock.now;
    var calls, cooled: seq<CoolRequest>, i := 0, [], 0;
    NothingAsked(ever0, lost0, since);
    var result := Aborted;
    while i < |c.models|
      invariant i < |c.models|
      invariant ModelsFrom(c, 0, 0, []) == ModelsFrom(c, i, calls, cooled)
      invariant Ready(memory, clock) && clock.now >= since
      invariant Grown(ever0, lost0, since, Asks(user, c.name, cooled), memory.ever, memory.lost)
      decreases |c.models| - i
    {
      var made;
      result, made := TryWithRetry(c.name, c.upstream(i), c.maxRetries);
      calls := calls + made;
      match result {
        case Aborted => return Tried(result, i + 1, calls, cooled);
        case Got(r) =>
          var noted := NoteRateLimit(c.perModelQuota, c.models[i], r.model, r.rateLimit);
          CoolMore(memory, clock, user, c.name, noted, cooled, ever0, lost0, since);
          return Tried(result, i + 1, calls, cooled + noted);
        case Lost(e) =>
          var skip := ModelSkip(c.perModelQuota, e);
          if skip.None? {
            if !(TryNextModel(e) && i + 1 < |c.models|) {
              return Tried(result, i + 1, calls, cooled);
            }
          } else {
            CoolMore(memory, clock, user, c.name, CoolModel(c.models[i], skip.value), cooled, ever0, lost0, since);
            cooled := cooled + CoolModel(c.models[i], skip.value);
          }
      }
      if i + 1 == |c.models| {
        return Tried(result, i + 1, calls, cooled);
      }
      i := i + 1;
    }
    assert false;
  }

  /** The verdict is the last tried model's; every earlier model failed with an error that belongs
      to the model; and the loop stops early only on an answer, a cancellation, or an error of the
      provider. */
  lemma {:induction false} ModelsInOrder(c: Candidate, i: nat, calls: nat, cooled: seq<CoolRequest>)
    requires i < |c.models|
    ensures var t := ModelsFrom(c, i, calls, cooled);
      && i < t.upto <= |c.models|
      && t.result == ModelResult(c, t.upto - 1).0
      && (forall j | i <= j < t.upto - 1 ::
            ModelResult(c, j).0.Lost? && GoesOn(c.perModelQuota, ModelResult(c, j).0.error))
      && (t.result.Lost? && GoesOn(c.perModelQuota, t.result.error) ==> t.upto == |c.models|)
    decreases |c.models| - i
  {
    var (result, made) := ModelResult(c, i);
    if result.Lost? && GoesOn(c.perModelQuota, result.error) && i + 1 < |c.models| {
      var skip := ModelSkip(c.perModelQuota, result.error);
      var cooled' := if skip.Some? then cooled + CoolModel(c.models[i], skip.value) else cooled;
      ModelsInOrder(c, i + 1, calls + made, cooled');
    }
  }

  /** At most (max_retries + 1) calls per model tried. */
  lemma {:induction false} ModelCallsBounded(c: Candidate, i: nat, calls: nat, cooled: seq<CoolRequest>)
    requires i < |c.models|
    ensures var t := ModelsFrom(c, i, calls, cooled);
      i < t.upto <= |c.models| && t.calls <= calls + (t.upto - i) * (BudgetOf(c.maxRetries) + 1)
    decreases |c.models| - i
  {
    hide RetryFrom, NoteRateLimit, GoesOn;
    var (result, made) := ModelResult(c, i);
    RetriesAreBounded(c.name, c.upstream(i), BudgetOf(c.maxRetries), 0);
    var b := BudgetOf(c.maxRetries) + 1;
    if result.Lost? && GoesOn(c.perModelQuota, result.error) && i + 1 < |c.models| {
      var skip := ModelSkip(c.perModelQuota, result.error);
      var cooled' := if skip.Some? then cooled + CoolModel(c.models[i], skip.value) else cooled;
      ModelCallsBounded(c, i + 1, calls + made, cooled');
      OneMoreTerm(ModelsFrom(c, i, calls, cooled).upto - i - 1, b);
    }
  }

  /** Every model tried that answered "unavailable" is cooled for six hours. */
  lemma {:induction false} UnavailableModelsAreCooled(
    c: Candidate, i: nat, calls: nat, cooled: seq<CoolRequest>, j: nat)
    requires i <= j < |c.models|
    requires var r := ModelResult(c, j).0; r.Lost? && r.error.kind == ModelUnavailable
    requires c.models[j].Some?
    ensures var t := ModelsFrom(c, i, calls, cooled);
      && cooled <= t.cooled
      && (j < t.upto ==> CoolRequest(c.models[j].value, UNAVAILABLE_COOLDOWN_S, Unavailable) in t.cooled)
    decreases |c.models| - i
  {
    var (result, made) := ModelResult(c, i);
    if result.Lost? {
      var skip := ModelSkip(c.perModelQuota, result.error);
      var cooled' := if skip.Some? then cooled + CoolModel(c.models[i], skip.value) else cooled;
      if i == j {
        assert cooled'[|cooled|] == CoolRequest(c.models[j].value, UNAVAILABLE_COOLDOWN_S, Unavailable);
      }
      if GoesOn(c.perModelQuota, result.error) && i + 1 < |c.models| {
        if i < j {
          UnavailableModelsAreCooled(c, i + 1, calls + made, cooled', j);
        } else {
          CooledGrows(c, i + 1, calls + made, cooled');
        }
      }
    }
  }

  lemma {:induction false} CooledGrows(c: Candidate, i: nat, calls: nat, cooled: seq<CoolRequest>)
    requires i < |c.models|
    ensures cooled <= ModelsFrom(c, i, calls, cooled).cooled
    decreases |c.models| - i
  {
    var (result, made) := ModelResult(c, i);
    if result.Lost? && GoesOn(c.perModelQuota, result.error) && i + 1 < |c.models| {
      var skip := ModelSkip(c.perModelQuota, result.error);
      var cooled' := if skip.Some? then cooled + CoolModel(c.models[i], skip.value) else cooled;
      CooledGrows(c, i + 1, calls + made, cooled');
    }
  }

  lemma OneMoreTerm(n: int, b: int)
    ensures (n + 1) * b == n * b + b
  {
  }

  /** Upstream calls one candidate may cost. */
  function CallBudget(c: Candidate): nat {
    |c.models| * (BudgetOf(c.maxRetries) + 1)
  }

  lemma ModelsWithinBudget(c: Candidate)
    requires c.models != []
    ensures ModelsFrom(c, 0, 0, []).calls <= CallBudget(c)
    ensures CallBudget(c) == |c.models| * (1 + if c.maxRetries > 0 then c.maxRetries else 0)
  {
    ModelCallsBounded(c, 0, 0, []);
  }
}
