/** What the client of a stream sees, over every run. */
module StreamingProperties {
  import opened Common
  import opened Providers
  import opened InFlight
  import opened Dispatch
  import opened DispatchProperties
  import opened Streaming
  import opened ModelCooldowns
  import Upstream

  /** Within a candidate only the last model tried sends anything, and only a candidate that is not
      given up for the next one. */
  lemma {:induction false} OnlyLastModelSends(c: Streaming.Candidate, i: nat, req: Streaming.Request)
    requires i < |c.models|
    ensures var t := Streaming.ModelsFrom(c, i, req);
      && t.out == Sent(c, t.upto - 1, req)
      && (forall j | i <= j < t.upto - 1 :: Sent(c, j, req) == [])
      && (t.end.Failed? && !t.end.midway ==> t.out == [])
      && (t.end.Played? ==> t.end.model == t.upto - 1)
      && (t.end.Played? ==> PumpEndOf(c.name, c.streams(t.upto - 1), req.patience) == Finished)
    decreases |c.models| - i
  {
    var s := c.streams(i);
    if Streaming.ModelsFrom(c, i, req).upto != i + 1 {
      assert !HasText(s.chunks);
      OnlyLastModelSends(c, i + 1, req);
    }
  }

  /** Where the output of a run comes from. */
  ghost predicate FromOneStream(req: Streaming.Request, r: Run) {
    var cs := Streaming.Attempts(req);
    if r.last.None? then r.out == [] && !r.end.Completed?
    else
      var (i, m) := r.last.value;
      && i < |cs| && m < |cs[i].models|
      && r.out == Sent(cs[i], m, req) + (if r.end.Completed? then [Done(cs[i].name)] else [])
      && (r.end.Completed? ==>
            r.end == Completed(i, m) && PumpEndOf(cs[i].name, cs[i].streams(m), req.patience) == Finished)
  }

  /** What one turn sends and where it leaves the run. */
  lemma TurnOutput(req: Streaming.Request, i: nat, r: Run)
    requires i < |Streaming.Attempts(req)| && Dispatchable(Streaming.Attempts(req)[i])
    ensures var c := Streaming.Attempts(req)[i];
      var t, u := Streaming.ModelsFrom(c, 0, req), Streaming.Turn(req, i, r);
      && u.last == Some((i, t.upto - 1))
      && u.out == r.out + t.out + (if t.end.Played? then [Done(c.name)] else [])
      && (t.end.Played? ==> u.end == Completed(i, t.end.model))
      && (!t.end.Played? ==> !u.end.Completed? || u.end == r.end)
      && (u.end.Open? ==> t.end.Failed? && !t.end.midway)
      && (u.end.GaveUp? ==> r.end.GaveUp?)
  {
    var t := Streaming.ModelsFrom(Streaming.Attempts(req)[i], 0, req);
    assert r.out + t.out + [] == r.out + t.out;
  }

  lemma TurnSends(req: Streaming.Request, i: nat, r: Run)
    requires i < |Streaming.Attempts(req)| && r.end.Open? && r.out == [] && FromOneStream(req, r)
    ensures FromOneStream(req, Streaming.Turn(req, i, r))
    ensures var t := Streaming.Turn(req, i, r);
      (t.end.Open? ==> t.out == []) && !t.end.GaveUp?
  {
    hide Streaming.Turn, Streaming.ModelsFrom, PumpEndOf, Delivered;
    var c := Streaming.Attempts(req)[i];
    if Dispatchable(c) {
      OnlyLastModelSends(c, 0, req);
      TurnOutput(req, i, r);
      var t := Streaming.ModelsFrom(c, 0, req);
      assert [] + t.out == t.out;
    } else {
      Streaming.SkippingTurn(req, i, r);
    }
  }

  lemma {:induction false} SentAfter(req: Streaming.Request, streaks: map<Key, nat>, n: nat)
    requires n <= |Streaming.Attempts(req)|
    ensures var r := Streaming.After(req, streaks, n);
      FromOneStream(req, r) && (r.end.Open? ==> r.out == []) && !r.end.GaveUp?
  {
    hide Streaming.Turn, FromOneStream;
    if n > 0 {
      SentAfter(req, streaks, n - 1);
      var r := Streaming.After(req, streaks, n - 1);
      if !Streaming.Stops(r) {
        TurnSends(req, n - 1, r);
      }
    } else {
      NothingSent(req, streaks);
    }
  }

  lemma NothingSent(req: Streaming.Request, streaks: map<Key, nat>)
    ensures FromOneStream(req, Streaming.Fresh(streaks))
  {
  }

  lemma GivingUpSendsNothing(req: Streaming.Request, r: Run, kind: ErrorKind)
    requires FromOneStream(req, r) && r.end.Open?
    ensures FromOneStream(req, r.(end := GaveUp(kind)))
  {
  }

  /** The client of one run receives the formatted prefix of exactly one adapter stream, that of the
      last attempt: nothing is sent from an attempt that is later given up. A run that gives up has
      sent nothing. */
  lemma ClientSeesOneStream(req: Streaming.Request, streaks: map<Key, nat>)
    ensures var r := StreamOnce(req, streaks);
      FromOneStream(req, r) && (r.end.GaveUp? ==> r.out == []) && !r.end.Open?
  {
    hide FromOneStream, Streaming.Turn;
    var n := |Streaming.Attempts(req)|;
    SentAfter(req, streaks, n);
    NothingSent(req, streaks);
    GivingUpSendsNothing(req, Streaming.Fresh(streaks), NoCandidatesKind(req.unhealthy));
    var r := Streaming.After(req, streaks, n);
    if r.end.Open? {
      GivingUpSendsNothing(req, r, ExhaustedKind(r.lastKind, r.skipped));
    }
  }

  /** The reservation of the candidate that completed was committed as a success. */
  lemma {:induction false} CompletedIsCommitted(req: Streaming.Request, streaks: map<Key, nat>, n: nat)
    requires n <= |Streaming.Attempts(req)|
    ensures var r := Streaming.After(req, streaks, n);
      r.end.Completed? ==> CommittedOk(r.end.at, r.position) in r.log
  {
    if n > 0 {
      CompletedIsCommitted(req, streaks, n - 1);
      var r := Streaming.After(req, streaks, n - 1);
      if !Streaming.Stops(r) {
        CompletingTurnCommits(req, n - 1, r);
      }
    }
  }

  lemma CompletingTurnCommits(req: Streaming.Request, i: nat, r: Run)
    requires i < |Streaming.Attempts(req)| && r.end.Open?
    ensures var t := Streaming.Turn(req, i, r);
      t.end.Completed? ==> CommittedOk(t.end.at, t.position) in t.log
  {
    var t := Streaming.Turn(req, i, r);
    if t.end.Completed? {
      assert t.log[|r.log| + 2] == CommittedOk(i, t.position);
    }
  }

  /** The final done event appears only after a whole stream that ended normally, with text in it,
      and was committed as a success; and everything of that stream came before it. */
  lemma DoneMeansWholeStream(req: Streaming.Request, streaks: map<Key, nat>)
    ensures var r, cs := StreamOnce(req, streaks), Streaming.Attempts(req);
      && ((exists name :: Done(name) in r.out) <==> r.end.Completed?)
      && (r.end.Completed? ==>
            var i, m := r.end.at, r.end.model;
            && i < |cs| && m < |cs[i].models|
            && r.out == FormatAll(cs[i].name, cs[i].streams(m).chunks, req.virtualModel) + [Done(cs[i].name)]
            && cs[i].streams(m).ending == EndsNormally && HasText(cs[i].streams(m).chunks)
            && CommittedOk(i, r.position) in r.log)
  {
    ClientSeesOneStream(req, streaks);
    CompletedIsCommitted(req, streaks, |Streaming.Attempts(req)|);
    hide Streaming.After, Streaming.Turn;
    var r, cs := StreamOnce(req, streaks), Streaming.Attempts(req);
    if r.end.Completed? {
      assert r.out[|r.out| - 1] == Done(cs[r.end.at].name);
      CompletedStreamIsWhole(req, r);
    } else if r.last.Some? {
      var (i, m) := r.last.value;
      assert r.out == Sent(cs[i], m, req);
    }
  }

  lemma CompletedStreamIsWhole(req: Streaming.Request, r: Run)
    requires FromOneStream(req, r) && r.end.Completed?
    ensures var cs, i, m := Streaming.Attempts(req), r.end.at, r.end.model;
      && i < |cs| && m < |cs[i].models|
      && cs[i].streams(m).ending == EndsNormally && HasText(cs[i].streams(m).chunks)
      && r.out == FormatAll(cs[i].name, cs[i].streams(m).chunks, req.virtualModel) + [Done(cs[i].name)]
  {
  }

  // ---------- settlement ----------

  lemma StreamTurnAppends(req: Streaming.Request, i: nat, r: Run) returns (block: seq<Op>)
    requires i < |Streaming.Attempts(req)|
    ensures Streaming.Turn(req, i, r).log == r.log + block
    ensures if Dispatchable(Streaming.Attempts(req)[i]) then IsBlock(block, i, r.position + 1) else block == []
  {
    block := Streaming.Turn(req, i, r).log[|r.log|..];
  }

  lemma {:induction false} StreamSettledAfter(req: Streaming.Request, streaks: map<Key, nat>, n: nat, at: nat)
    requires n <= |Streaming.Attempts(req)|
    ensures var log := Streaming.After(req, streaks, n).log;
      && Count(log, Settles(at)) == Count(log, Reserves(at)) <= 1
      && Count(log, Leaves(at)) == Count(log, Enters(at)) == Count(log, Reserves(at))
      && (at >= n ==> Count(log, Reserves(at)) == 0)
  {
    hide Streaming.Turn;
    if n > 0 {
      StreamSettledAfter(req, streaks, n - 1, at);
      var r := Streaming.After(req, streaks, n - 1);
      if !Streaming.Stops(r) {
        var block := StreamTurnAppends(req, n - 1, r);
        if block == [] {
          assert r.log + block == r.log;
        } else {
          BlockSettles(r.log, block, n - 1, r.position + 1, at);
        }
      }
    }
  }

  /** Every granted reservation is settled exactly once, by one commit or one rollback, and its
      in-flight slot is taken and given back exactly once, on every way out of the streaming loop:
      completion, fallback, an error midway, a crash, cancellation and client disconnect. */
  lemma EveryStreamSettledOnce(req: Streaming.Request, streaks: map<Key, nat>, at: nat)
    ensures var log := StreamOnce(req, streaks).log;
      && Count(log, Settles(at)) == Count(log, Reserves(at)) <= 1
      && Count(log, Leaves(at)) == Count(log, Enters(at)) == Count(log, Reserves(at))
  {
    StreamSettledAfter(req, streaks, |Streaming.Attempts(req)|, at);
  }

  // ---------- stream: one more try as freeai-auto ----------

  /** The first run has sent nothing and failed because the model, a real one named by the caller, is
      unavailable. */
  predicate StreamRetriesAsAuto(namedRealModel: bool, first: Run) {
    first.out == [] && namedRealModel && first.end == GaveUp(ModelUnavailable)
  }

  /** `stream`: exactly then the request is tried once more. */
  method StreamWithRetry(orch: Orchestrator, req: Streaming.Request, namedRealModel: bool, asAuto: Streaming.Request)
    returns (out: seq<Sse>, first: Run, last: Run)
    requires Lean(orch.inFlight) && WellFormed(req) && WellFormed(asAuto) && Ready(orch.memory, orch.clock)
    modifies orch, orch.memory, orch.clock
    ensures first == StreamOnce(req, old(orch.streaks))
    ensures last == if StreamRetriesAsAuto(namedRealModel, first) then StreamOnce(asAuto, first.streaks) else first
    ensures StreamRetriesAsAuto(namedRealModel, first) <==> namedRealModel && first.end == GaveUp(ModelUnavailable)
    ensures out == last.out
    ensures FromOneStream(if StreamRetriesAsAuto(namedRealModel, first) then asAuto else req, last)
    ensures orch.inFlight == old(orch.inFlight) && orch.streaks == last.streaks && Ready(orch.memory, orch.clock)
  {
    hide Grown, Ready, FromOneStream, StreamOnce;
    first := RunStream(orch, req);
    ClientSeesOneStream(req, old(orch.streaks));
    last, out := first, first.out;
    var yielded := first.out != [];
    if !yielded && namedRealModel && first.end == GaveUp(ModelUnavailable) {
      last := RunStream(orch, asAuto);
      ClientSeesOneStream(asAuto, first.streaks);
      out := out + last.out;
    }
  }

  // ---------- model cool-downs ----------

  lemma {:induction false} CooledUpToHas(c: Streaming.Candidate, n: nat, req: Streaming.Request, j: nat)
    requires j < n <= |c.models|
    ensures forall x | x in CoolsFor(c, j, req) :: x in CooledUpTo(c, n, req)
    decreases n
  {
    hide CoolsFor, PumpCools;
    if j < n - 1 {
      CooledUpToHas(c, n - 1, req, j);
    }
  }

  lemma {:induction false} StreamDispatchIsAsked(
    req: Streaming.Request, streaks: map<Key, nat>, n: nat, k: nat, ask: Ask)
    requires k < n <= |Streaming.Attempts(req)| && Dispatchable(Streaming.Attempts(req)[k])
    requires !Streaming.Stops(Streaming.After(req, streaks, k))
    requires ask in AskedBy(Streaming.Attempts(req)[k], req)
    ensures ask in Streaming.After(req, streaks, n).asked
    decreases n
  {
    hide Streaming.Turn, AskedBy, Dispatchable;
    if k == n - 1 {
      Streaming.DispatchingTurn(req, k, Streaming.After(req, streaks, k));
    } else {
      StreamDispatchIsAsked(req, streaks, n - 1, k, ask);
      StreamTurnAsksMore(req, n - 1, Streaming.After(req, streaks, n - 1));
    }
  }

  lemma StreamTurnAsksMore(req: Streaming.Request, i: nat, r: Run)
    requires i < |Streaming.Attempts(req)|
    ensures r.asked <= Streaming.Turn(req, i, r).asked
  {
    hide AskedBy, Streaming.ModelsFrom;
  }

  /** Model `j` of candidate `k` was tried in the run, and its stream failed as unavailable before any
      text. */
  predicate StreamFoundUnavailable(req: Streaming.Request, streaks: map<Key, nat>, k: nat, j: nat) {
    var cs := Streaming.Attempts(req);
    && k < |cs| && !Streaming.Stops(Streaming.After(req, streaks, k)) && Dispatchable(cs[k])
    && j < Streaming.ModelsFrom(cs[k], 0, req).upto && cs[k].models[j].Some?
    && !HasText(cs[k].streams(j).chunks)
    && cs[k].streams(j).ending.FailsWith? && cs[k].streams(j).ending.error.kind == ModelUnavailable
  }

  lemma StreamUnavailableIsAsked(req: Streaming.Request, streaks: map<Key, nat>, k: nat, j: nat)
    requires StreamFoundUnavailable(req, streaks, k, j)
    ensures var c := Streaming.Attempts(req)[k];
      UnavailableAsk(req.user, c.name, c.models[j].value) in StreamOnce(req, streaks).asked
  {
    hide Streaming.Turn, Streaming.After, Streaming.ModelsFrom, CooledUpTo;
    var c := Streaming.Attempts(req)[k];
    var upto := Streaming.ModelsFrom(c, 0, req).upto;
    var r := Upstream.CoolRequest(c.models[j].value, UNAVAILABLE_COOLDOWN_S, Unavailable);
    assert CoolsFor(c, j, req) == [r];
    assert r in CoolsFor(c, j, req);
    CooledUpToHas(c, upto, req, j);
    var i :| 0 <= i < |CooledUpTo(c, upto, req)| && CooledUpTo(c, upto, req)[i] == r;
    assert AskedBy(c, req)[i] == UnavailableAsk(req.user, c.name, c.models[j].value);
    var ask := UnavailableAsk(req.user, c.name, c.models[j].value);
    StreamDispatchIsAsked(req, streaks, |Streaming.Attempts(req)|, k, ask);
  }

  /** A model that a streaming run found unavailable is not chosen again for that user within six hours
      of the run's start, while another model of the chain is usable. The hypothesis on the memory is
      what `RunStream` ensures. */
  lemma StreamedUnavailableIsAvoided(
    req: Streaming.Request, streaks: map<Key, nat>, k: nat, j: nat, ever0: seq<Cooling>, lost0: nat, since: real,
    ever1: seq<Cooling>, lost1: nat, chain: seq<string>, other: string, now: real)
    requires StreamFoundUnavailable(req, streaks, k, j)
    requires Grown(ever0, lost0, since, StreamOnce(req, streaks).asked, ever1, lost1) && lost1 <= |ever0|
    requires now < since + UNAVAILABLE_COOLDOWN_S
    requires other in chain
    requires ReasonAt(ever1[lost1..], Slot(req.user, Streaming.Attempts(req)[k].name, other), now).None?
    ensures Streaming.Attempts(req)[k].models[j] !in
      UsableModels(ever1[lost1..], req.user, Streaming.Attempts(req)[k].name, chain, None, now)
  {
    hide StreamOnce, Grown, ReasonAt, UsableModels;
    var c := Streaming.Attempts(req)[k];
    StreamUnavailableIsAsked(req, streaks, k, j);
    AskedIsAvoided(ever0, lost0, since, StreamOnce(req, streaks).asked, ever1, lost1,
                   UnavailableAsk(req.user, c.name, c.models[j].value), chain, other, now);
  }
}
