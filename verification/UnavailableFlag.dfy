/** The flag that quarantines a whole provider is documented as "every model tried came back as
    unavailable"; the code sets it by the last error alone. Where the two differ, and exactly when
    they cannot. */
module UnavailableFlag {
  import opened Common
  import opened Providers
  import opened ModelCooldowns
  import opened Upstream
  import opened InFlight
  import Dispatch
  import Streaming

  // ---------- chat ----------

  /** The dispatch ends with the flag set. */
  predicate FlagSet(c: Candidate, explicitModel: bool)
    requires c.models != []
  {
    var r := ModelsFrom(c, 0, 0, []).result;
    r.Lost? && r.error.kind == ModelUnavailable && !explicitModel
  }

  predicate AnsweredUnavailable(c: Candidate, j: nat) {
    ModelResult(c, j).0.Lost? && ModelResult(c, j).0.error.kind == ModelUnavailable
  }

  /** What the flag is documented to mean. */
  predicate EveryTriedUnavailable(c: Candidate)
    requires c.models != []
  {
    forall j | 0 <= j < ModelsFrom(c, 0, 0, []).upto :: AnsweredUnavailable(c, j)
  }

  /** The loop left model `j` behind for another reason: its own rate limit or quota, an empty answer,
      or filtered content. */
  predicate LeftForAnotherReason(c: Candidate, j: nat) {
    ModelResult(c, j).0.Lost? &&
    ModelResult(c, j).0.error.kind in {RateLimited, QuotaExhausted, EmptyResponse, ContentFiltered}
  }

  /** The flag is the predicate the orchestrator quarantines by. */
  lemma FlagIsTheOrchestrators(c: Candidate, req: Dispatch.Request)
    requires c.models != []
    ensures var r := ModelsFrom(c, 0, 0, []).result;
      FlagSet(c, req.explicitModel) <==> r.Lost? && Dispatch.AllModelsUnavailable(req, r.error)
  {
  }

  /** In one run a set flag means what it says if and only if no model before the last was left behind
      for another reason. */
  lemma FlagHoldsInRunIff(c: Candidate, explicitModel: bool)
    requires c.models != [] && FlagSet(c, explicitModel)
    ensures EveryTriedUnavailable(c) <==>
      forall j | 0 <= j < ModelsFrom(c, 0, 0, []).upto - 1 :: !LeftForAnotherReason(c, j)
  {
    ModelsInOrder(c, 0, 0, []);
    hide ModelsFrom, ModelResult;
    var upto := ModelsFrom(c, 0, 0, []).upto;
    forall j | 0 <= j < upto - 1 ensures AnsweredUnavailable(c, j) <==> !LeftForAnotherReason(c, j) {
    }
    assert AnsweredUnavailable(c, upto - 1);
  }

  function WithUpstream(c: Candidate, upstream: nat -> Calls): Candidate {
    c.(upstream := upstream)
  }

  function AlwaysFails(e: ProviderError): Calls {
    Calls(k => Failed(e), k => false)
  }

  function ErrorOf(provider: string, kind: ErrorKind): ProviderError {
    ProviderError(provider, kind, None, None)
  }

  /** The first model fails with `first`, every other one is unavailable. */
  function FirstThenGone(provider: string, first: ErrorKind): nat -> Calls {
    (i: nat) => AlwaysFails(ErrorOf(provider, if i == 0 then first else ModelUnavailable))
  }

  lemma {:induction false} RestAreGone(c: Candidate, first: ErrorKind, i: nat, calls: nat, cooled: seq<CoolRequest>)
    requires c.upstream == FirstThenGone(c.name, first) && 1 <= i < |c.models|
    ensures var t := ModelsFrom(c, i, calls, cooled);
      t.result == Lost(ErrorOf(c.name, ModelUnavailable)) && t.upto == |c.models| && cooled <= t.cooled
    decreases |c.models| - i
  {
    var e := ErrorOf(c.name, ModelUnavailable);
    assert c.upstream(i) == AlwaysFails(e);
    if i + 1 < |c.models| {
      RestAreGone(c, first, i + 1, calls + 1, cooled + CoolModel(c.models[i], ModelSkip(c.perModelQuota, e).value));
    }
  }

  /** The input: the first model gives an empty answer, the others are gone. */
  lemma EmptyThenGoneSetsFlag(c: Candidate)
    requires |c.models| >= 2
    ensures var d := WithUpstream(c, FirstThenGone(c.name, EmptyResponse));
      FlagSet(d, false) && !EveryTriedUnavailable(d)
  {
    var d := WithUpstream(c, FirstThenGone(c.name, EmptyResponse));
    assert d.upstream(0) == AlwaysFails(ErrorOf(c.name, EmptyResponse));
    RestAreGone(d, EmptyResponse, 1, 1, []);
    assert !AnsweredUnavailable(d, 0);
  }

  /** Exactly when the flag means what it says whatever upstream answers: the caller named the model,
      in which case it is never set, or there is only one model to try. */
  lemma FlagHoldsAlwaysIff(c: Candidate, explicitModel: bool)
    requires c.models != []
    ensures (forall u: nat -> Calls ::
               FlagSet(WithUpstream(c, u), explicitModel) ==> EveryTriedUnavailable(WithUpstream(c, u)))
      <==> explicitModel || |c.models| <= 1
  {
    if explicitModel || |c.models| <= 1 {
      forall u: nat -> Calls | FlagSet(WithUpstream(c, u), explicitModel)
        ensures EveryTriedUnavailable(WithUpstream(c, u))
      {
        ModelsInOrder(WithUpstream(c, u), 0, 0, []);
      }
    } else {
      EmptyThenGoneSetsFlag(c);
    }
  }

  /** The costly case: on a provider with per-model quotas the first model only waits a minute for its
      own quota, the second one is gone, and the whole provider is quarantined for an hour. */
  lemma QuotaThenGoneQuarantines(c: Candidate, streaks: map<Key, nat>, key: Key)
    requires |c.models| == 2 && c.models[0].Some? && c.perModelQuota
    ensures var d := WithUpstream(c, FirstThenGone(c.name, RateLimited));
      var t := ModelsFrom(d, 0, 0, []);
      && FlagSet(d, false) && !EveryTriedUnavailable(d)
      && t.result == Lost(ErrorOf(c.name, ModelUnavailable))
      && CoolRequest(c.models[0].value, 60.0, ModelRateLimited) in t.cooled
      && Quarantine(streaks, key, t.result.error, true).0 == Some(3600.0)
  {
    var d := WithUpstream(c, FirstThenGone(c.name, RateLimited));
    var e := ErrorOf(c.name, RateLimited);
    assert d.upstream(0) == AlwaysFails(e);
    var cooled := [CoolRequest(c.models[0].value, 60.0, ModelRateLimited)];
    assert [] + CoolModel(c.models[0], ModelSkip(true, e).value) == cooled;
    RestAreGone(d, RateLimited, 1, 1, cooled);
    assert cooled[0] in ModelsFrom(d, 0, 0, []).cooled;
    assert !AnsweredUnavailable(d, 0);
  }

  // ---------- streams ----------

  predicate StreamFlagSet(c: Streaming.Candidate, req: Streaming.Request)
    requires c.models != []
  {
    var end := Streaming.ModelsFrom(c, 0, req).end;
    end.Failed? && end.allModelsUnavailable
  }

  /** The stream of model `j` failed as unavailable before any text. */
  predicate StreamUnavailable(c: Streaming.Candidate, j: nat, req: Streaming.Request) {
    var end := Streaming.PumpEndOf(c.name, c.streams(j), req.patience);
    end.Raised? && end.error.kind == ModelUnavailable && !Streaming.HasText(c.streams(j).chunks)
  }

  predicate EveryStreamUnavailable(c: Streaming.Candidate, req: Streaming.Request)
    requires c.models != []
  {
    forall j | 0 <= j < Streaming.ModelsFrom(c, 0, req).upto :: StreamUnavailable(c, j, req)
  }

  predicate StreamLeftForAnotherReason(c: Streaming.Candidate, j: nat, req: Streaming.Request) {
    var end := Streaming.PumpEndOf(c.name, c.streams(j), req.patience);
    end.Raised? && end.error.kind in {RateLimited, QuotaExhausted, EmptyResponse, ContentFiltered}
  }

  /** Why each model of the loop was left, and what a set flag says of the last one. */
  lemma {:induction false} StreamsInOrder(c: Streaming.Candidate, i: nat, req: Streaming.Request)
    requires i < |c.models|
    ensures var t := Streaming.ModelsFrom(c, i, req);
      && (forall j | i <= j < t.upto - 1 ::
            (StreamUnavailable(c, j, req) || StreamLeftForAnotherReason(c, j, req))
            && !(StreamUnavailable(c, j, req) && StreamLeftForAnotherReason(c, j, req)))
      && (t.end.Failed? && t.end.allModelsUnavailable ==> StreamUnavailable(c, t.upto - 1, req) && !req.explicitModel)
    decreases |c.models| - i
  {
    if Streaming.ModelsFrom(c, i, req).upto != i + 1 {
      StreamsInOrder(c, i + 1, req);
    }
  }

  lemma StreamFlagHoldsInRunIff(c: Streaming.Candidate, req: Streaming.Request)
    requires c.models != [] && StreamFlagSet(c, req)
    ensures EveryStreamUnavailable(c, req) <==>
      forall j | 0 <= j < Streaming.ModelsFrom(c, 0, req).upto - 1 :: !StreamLeftForAnotherReason(c, j, req)
  {
    StreamsInOrder(c, 0, req);
    hide Streaming.ModelsFrom, StreamUnavailable, StreamLeftForAnotherReason;
    var upto := Streaming.ModelsFrom(c, 0, req).upto;
    assert StreamUnavailable(c, upto - 1, req);
  }

  function WithStreams(c: Streaming.Candidate, streams: nat -> Streaming.AdapterStream): Streaming.Candidate {
    c.(streams := streams)
  }

  function EmptyStreamThenGone(provider: string): nat -> Streaming.AdapterStream {
    (i: nat) => Streaming.AdapterStream([],
      if i == 0 then Streaming.EndsNormally else Streaming.FailsWith(ErrorOf(provider, ModelUnavailable)))
  }

  lemma {:induction false} OtherStreamsAreGone(c: Streaming.Candidate, req: Streaming.Request, i: nat)
    requires c.streams == EmptyStreamThenGone(c.name) && 1 <= i < |c.models| && !req.explicitModel
    ensures Streaming.ModelsFrom(c, i, req).end
      == Streaming.Failed(ErrorOf(c.name, ModelUnavailable), false, true)
    decreases |c.models| - i
  {
    if i + 1 < |c.models| {
      OtherStreamsAreGone(c, req, i + 1);
    }
  }

  lemma EmptyStreamThenGoneSetsFlag(c: Streaming.Candidate, req: Streaming.Request)
    requires |c.models| >= 2 && !req.explicitModel
    ensures var d := WithStreams(c, EmptyStreamThenGone(c.name));
      StreamFlagSet(d, req) && !EveryStreamUnavailable(d, req)
  {
    var d := WithStreams(c, EmptyStreamThenGone(c.name));
    OtherStreamsAreGone(d, req, 1);
    assert !StreamUnavailable(d, 0, req);
  }

  lemma StreamFlagHoldsAlwaysIff(c: Streaming.Candidate, req: Streaming.Request)
    requires c.models != []
    ensures (forall u: nat -> Streaming.AdapterStream ::
               StreamFlagSet(WithStreams(c, u), req) ==> EveryStreamUnavailable(WithStreams(c, u), req))
      <==> req.explicitModel || |c.models| <= 1
  {
    if req.explicitModel || |c.models| <= 1 {
      forall u: nat -> Streaming.AdapterStream | StreamFlagSet(WithStreams(c, u), req)
        ensures EveryStreamUnavailable(WithStreams(c, u), req)
      {
        StreamsInOrder(WithStreams(c, u), 0, req);
      }
    } else {
      EmptyStreamThenGoneSetsFlag(c, req);
    }
  }
}
