/** What the client of a stream reads, and which candidate's stream it is. */
module ClientView {
  import opened Common
  import opened Providers
  import Dispatch
  import opened Streaming
  import opened StreamingProperties
  import opened ModelOutcomes
  import opened InFlight
  import Upstream

  // ---------- the text of the events ----------

  /** The concatenated text of the events. */
  function TextOf(out: seq<Sse>): string {
    if out == [] then ""
    else (match out[0] case Delta(_, _, delta, _) => delta case Done(_) => "") + TextOf(out[1..])
  }

  function ChunkText(chunks: seq<Chunk>): string {
    if chunks == [] then "" else chunks[0].delta + ChunkText(chunks[1..])
  }

  /** How many chunks of a stream the client is sent: none when there is no text in any, otherwise all,
      or as many as it stays for. */
  function ChunksSent(chunks: seq<Chunk>, patience: Option<nat>): (n: nat)
    ensures n <= |chunks|
  {
    if ChunkText(chunks) == "" then 0
    else if patience.Some? && patience.value < |chunks| then patience.value
    else |chunks|
  }

  /** The event carries the chunk, under the provider's name and the virtual model's, if there is one. */
  predicate Carries(e: Sse, provider: string, virtualModel: Option<string>, c: Chunk) {
    && e.Delta? && e.provider == provider && e.delta == c.delta && e.finish == c.finish
    && e.model == match virtualModel case Some(v) => v case None => c.model
  }

  lemma {:induction false} HasTextMeans(chunks: seq<Chunk>)
    ensures HasText(chunks) <==> ChunkText(chunks) != ""
    decreases |chunks|
  {
    if chunks != [] {
      HasTextMeans(chunks[1..]);
      if HasText(chunks) {
        var i :| 0 <= i < |chunks| && chunks[i].delta != "";
        assert i > 0 ==> chunks[1..][i - 1].delta != "";
      }
      if HasText(chunks[1..]) {
        var i :| 0 <= i < |chunks[1..]| && chunks[1..][i].delta != "";
        assert chunks[i + 1].delta != "";
      }
    }
  }

  lemma SentCarries(c: Candidate, m: nat, req: Request)
    ensures var out, chunks := Sent(c, m, req), c.streams(m).chunks;
      && |out| == ChunksSent(chunks, req.patience)
      && forall j | 0 <= j < |out| :: Carries(out[j], c.name, req.virtualModel, chunks[j])
  {
    HasTextMeans(c.streams(m).chunks);
  }

  lemma {:induction false} TextIsCarried(
    out: seq<Sse>, provider: string, virtualModel: Option<string>, chunks: seq<Chunk>)
    requires |out| <= |chunks|
    requires forall j | 0 <= j < |out| :: Carries(out[j], provider, virtualModel, chunks[j])
    ensures TextOf(out) == ChunkText(chunks[..|out|])
    decreases |out|
  {
    if out != [] {
      assert Carries(out[0], provider, virtualModel, chunks[0]);
      assert forall j | 0 <= j < |out| - 1 :: out[1..][j] == out[j + 1] && chunks[1..][j] == chunks[j + 1];
      TextIsCarried(out[1..], provider, virtualModel, chunks[1..]);
      assert chunks[..|out|][1..] == chunks[1..][..|out| - 1];
    }
  }

  lemma {:induction false} TextOfLast(out: seq<Sse>, provider: string)
    ensures TextOf(out + [Done(provider)]) == TextOf(out)
    decreases |out|
  {
    if out == [] {
      assert [] + [Done(provider)] == [Done(provider)] && [Done(provider)][1..] == [];
    } else {
      assert (out + [Done(provider)])[0] == out[0] && (out + [Done(provider)])[1..] == out[1..] + [Done(provider)];
      TextOfLast(out[1..], provider);
    }
  }

  /** The events received are, one for one, the first chunks of the stream of one candidate that may be
      tried, and a final done event exactly after a completed one; so the text received is the text of
      those chunks, all of it when the stream completed. */
  lemma ClientReceivesTheText(req: Request, streaks: map<Key, nat>)
    ensures var r := StreamOnce(req, streaks);
      match r.last
      case None => r.out == []
      case Some((i, m)) =>
        && Dispatch.MayTry(|req.candidates|, req.fallback, i) && m < |req.candidates[i].models|
        && var c, chunks := req.candidates[i], req.candidates[i].streams(m).chunks;
           var n := ChunksSent(chunks, req.patience);
           && |r.out| == n + (if r.end.Completed? then 1 else 0)
           && (forall j | 0 <= j < n :: Carries(r.out[j], c.name, req.virtualModel, chunks[j]))
           && TextOf(r.out) == ChunkText(chunks[..n])
           && (r.end.Completed? ==> r.out[n] == Done(c.name) && n == |chunks| && ChunkText(chunks) != "")
  {
    hide StreamOnce, PumpEndOf, Delivered, HasText;
    ClientSeesOneStream(req, streaks);
    var r := StreamOnce(req, streaks);
    if r.last.Some? {
      var (i, m) := r.last.value;
      var c, chunks := req.candidates[i], req.candidates[i].streams(m).chunks;
      SentCarries(c, m, req);
      var sent := Sent(c, m, req);
      TextIsCarried(sent, c.name, req.virtualModel, chunks);
      assert sent + [] == sent;
      if r.end.Completed? {
        TextOfLast(sent, c.name);
        FinishedMeans(c, m, req);
      }
    }
  }

  lemma FinishedMeans(c: Candidate, m: nat, req: Request)
    requires PumpEndOf(c.name, c.streams(m), req.patience) == Finished
    ensures var chunks := c.streams(m).chunks;
      ChunkText(chunks) != "" && ChunksSent(chunks, req.patience) == |chunks|
  {
    HasTextMeans(c.streams(m).chunks);
  }

  // ---------- how one stream ends ----------

  /** The end of a stream for the loop, from its chunks, its ending and the client's patience alone. */
  lemma StreamEndMeans(provider: string, s: AdapterStream, patience: Option<nat>)
    ensures var end, text := PumpEndOf(provider, s, patience), ChunkText(s.chunks) != "";
      var left := text && patience.Some? && patience.value <= |s.chunks|;
      && (end == Disconnected <==> left)
      && (end == Finished <==> !left && text && s.ending.EndsNormally?)
      && (end == CancelledWaiting <==> !left && s.ending.WaitCancelled?)
      && (end == RaisedOther <==> !left && text && s.ending.Breaks?)
      && (end.Raised? ==>
            end.error == match s.ending
                         case FailsWith(e) => e
                         case EndsNormally => ProviderError(provider, EmptyResponse, None, None)
                         case _ => ProviderError(provider, UnknownError, None, None))
  {
    HasTextMeans(s.chunks);
  }

  /** The stream of this model fails before any text, with an error that leaves it to the next model. */
  predicate LeavesItToTheNext(c: Candidate, j: nat, req: Request) {
    var s := c.streams(j);
    var end := PumpEndOf(c.name, s, req.patience);
    ChunkText(s.chunks) == "" && !s.ending.Breaks? && end.Raised? && Upstream.GoesOn(c.perModelQuota, end.error)
  }

  /** Of a candidate's models exactly the last one tried decides; each one before it left it to the next,
      and it did not, unless it is the last there is. */
  lemma {:induction false} StreamModelsInOrder(c: Candidate, i: nat, req: Request)
    requires i < |c.models|
    ensures var t := ModelsFrom(c, i, req);
      var m := t.upto - 1;
      var text, end := ChunkText(c.streams(m).chunks) != "", PumpEndOf(c.name, c.streams(m), req.patience);
      && i <= m < |c.models|
      && (forall j | i <= j < m :: LeavesItToTheNext(c, j, req))
      && (LeavesItToTheNext(c, m, req) ==> t.upto == |c.models|)
      && t.out == Sent(c, m, req)
      && (t.end.Played? <==> end == Finished) && (t.end.Played? ==> t.end.model == m)
      && (t.end.Failed? <==> end.Raised?) && (t.end.Failed? ==> t.end.error == end.error && t.end.midway == text)
      && (t.end.Gone? <==> end.Disconnected? || end.CancelledWaiting? || end.RaisedOther?)
      && (t.end.Gone? ==> t.end.why == end)
    decreases |c.models| - i
  {
    hide Delivered;
    HasTextMeans(c.streams(i).chunks);
    if ModelsFrom(c, i, req).upto != i + 1 {
      StreamModelsInOrder(c, i + 1, req);
    }
  }

  // ---------- what a stream puts into the memory ----------

  /** The client has had text by chunk `i` and has left: nothing more is read. */
  predicate GoneBy(chunks: seq<Chunk>, i: nat, patience: Option<nat>)
    requires i <= |chunks|
  {
    ChunkText(chunks[..i]) != "" && patience.Some? && patience.value <= i
  }

  /** Chunks are read up to the end, or to the first one the client is gone by. */
  lemma {:induction false} ReadUntilGone(chunks: seq<Chunk>, i: nat, patience: Option<nat>)
    requires i <= |chunks|
    ensures var n := ReceivedFrom(chunks, i, patience);
      && (forall j | i <= j < n :: !GoneBy(chunks, j, patience))
      && (n < |chunks| ==> GoneBy(chunks, n, patience))
    decreases |chunks| - i
  {
    HasTextMeans(chunks[..i]);
    if i < |chunks| && !LeftBy(chunks, i, patience) {
      ReadUntilGone(chunks, i + 1, patience);
    }
  }

  /** What the headers of the first `n` chunks ask for, in order. */
  function HeadersAsk(c: Candidate, j: nat, n: nat): seq<Upstream.CoolRequest>
    requires j < |c.models| && n <= |c.streams(j).chunks|
  {
    if n == 0 then []
    else
      var chunk := c.streams(j).chunks[n - 1];
      HeadersAsk(c, j, n - 1) + Upstream.NoteRateLimit(c.perModelQuota, c.models[j], chunk.model, chunk.rateLimit)
  }

  /** A stream that fails before any text with an error of the model's own puts the model aside. */
  function FailureAsks(c: Candidate, j: nat): seq<Upstream.CoolRequest>
    requires j < |c.models|
  {
    var s := c.streams(j);
    if ChunkText(s.chunks) != "" || !s.ending.FailsWith? then []
    else
      match (PutAside(c.perModelQuota, s.ending.error), c.models[j])
      case (Some((seconds, reason)), Some(model)) => [Upstream.CoolRequest(model, seconds, reason)]
      case _ => []
  }

  /** Everything the first `n` models ask for. */
  function StreamsAsk(c: Candidate, n: nat, req: Request): seq<Upstream.CoolRequest>
    requires n <= |c.models|
  {
    if n == 0 then []
    else
      var read := ReceivedFrom(c.streams(n - 1).chunks, 0, req.patience);
      StreamsAsk(c, n - 1, req) + HeadersAsk(c, n - 1, read) + FailureAsks(c, n - 1)
  }

  lemma {:induction false} HeadersMean(c: Candidate, j: nat, n: nat)
    requires j < |c.models| && n <= |c.streams(j).chunks|
    ensures HeaderCools(c.perModelQuota, c.models[j], c.streams(j).chunks[..n]) == HeadersAsk(c, j, n)
  {
    hide Upstream.NoteRateLimit;
    var chunks := c.streams(j).chunks;
    if n == 0 {
      assert chunks[..0] == [];
    } else {
      HeadersMean(c, j, n - 1);
      OneMoreHeader(c.perModelQuota, c.models[j], chunks, n - 1);
    }
  }

  lemma FailureMeans(c: Candidate, j: nat, req: Request)
    requires j < |c.models|
    ensures CoolsFor(c, j, req) == FailureAsks(c, j)
  {
    HasTextMeans(c.streams(j).chunks);
    StreamEndMeans(c.name, c.streams(j), req.patience);
    if c.streams(j).ending.FailsWith? {
      SkipMeans(c.perModelQuota, c.streams(j).ending.error);
    }
  }

  /** The memory is asked exactly for what the headers read and the failures of the tried models ask. */
  lemma {:induction false} StreamsAreRemembered(c: Candidate, n: nat, req: Request)
    requires n <= |c.models|
    ensures CooledUpTo(c, n, req) == StreamsAsk(c, n, req)
  {
    hide HeaderCools, HeadersAsk, CoolsFor, FailureAsks, ReceivedFrom;
    if n > 0 {
      StreamsAreRemembered(c, n - 1, req);
      HeadersMean(c, n - 1, ReceivedFrom(c.streams(n - 1).chunks, 0, req.patience));
      FailureMeans(c, n - 1, req);
    }
  }

  // ---------- which candidate decides ----------

  /** What a candidate's stream would come to, whatever came before it. */
  datatype Fate =
    | Passes                                // does not stream
    | Skips                                 // no usable model, or no reservation
    | Completes(model: nat)
    | Cuts(why: PumpEnd)
    | BreaksMidway(error: ProviderError)
    | Fails(error: ProviderError)

  function FateOf(c: Candidate, req: Request): Fate {
    if !c.supportsStreaming then Passes
    else if c.models == [] || !c.granted then Skips
    else
      match ModelsFrom(c, 0, req).end
      case Played(m) => Completes(m)
      case Gone(why) => Cuts(why)
      case Failed(e, midway, _) => if midway then BreaksMidway(e) else Fails(e)
  }

  function Rejections(req: Request, n: nat): nat
    requires n <= |req.candidates|
  {
    if n == 0 then 0
    else
      var f := FateOf(req.candidates[n - 1], req);
      Rejections(req, n - 1) + if f.Fails? && f.error.kind == ClientError then 1 else 0
  }

  /** Nothing has come of the first `n` candidates, and fewer than two of them rejected the request. */
  predicate Quiet(req: Request, n: nat)
    requires n <= |req.candidates|
  {
    && (forall i | 0 <= i < n ::
          var f := FateOf(req.candidates[i], req); f.Passes? || f.Skips? || f.Fails?)
    && Rejections(req, n) < 2
  }

  lemma {:induction false} RejectionsGrow(req: Request, m: nat, n: nat)
    requires m <= n <= |req.candidates|
    ensures Rejections(req, m) <= Rejections(req, n)
    decreases n
  {
    if m < n { RejectionsGrow(req, m, n - 1); }
  }

  lemma TurnByFate(req: Request, i: nat, r: Run)
    requires i < |Attempts(req)|
    ensures var t, f := Turn(req, i, r), FateOf(Attempts(req)[i], req);
      && t.end == (match f
                   case Completes(m) => Completed(i, m)
                   case Cuts(why) => CutOff(why)
                   case BreaksMidway(e) => Broken(e.kind)
                   case _ => r.end)
      && t.clientErrors == r.clientErrors + (if f.Fails? && f.error.kind == ClientError then 1 else 0)
      && t.lastKind == (match f case BreaksMidway(e) => Some(e.kind) case Fails(e) => Some(e.kind) case _ => r.lastKind)
      && t.skipped == (if f.Skips? then r.skipped + [Attempts(req)[i].name] else r.skipped)
  {
  }

  lemma {:induction false} RunningAfter(req: Request, streaks: map<Key, nat>, n: nat)
    requires n <= |Attempts(req)|
    ensures var r := After(req, streaks, n);
      && (Quiet(req, n) <==> !Stops(r))
      && (Quiet(req, n) ==> r.clientErrors == Rejections(req, n))
      && !r.end.GaveUp?
  {
    hide Turn, FateOf;
    if n > 0 {
      RunningAfter(req, streaks, n - 1);
      TurnByFate(req, n - 1, After(req, streaks, n - 1));
      RejectionsGrow(req, n - 1, n);
    }
  }

  /** Candidate `k` is reached, and this is what comes of it. */
  ghost predicate Decides(req: Request, k: nat, f: Fate) {
    Dispatch.MayTry(|req.candidates|, req.fallback, k) && Quiet(req, k) && FateOf(req.candidates[k], req) == f
  }

  lemma {:induction false} EndAfter(req: Request, streaks: map<Key, nat>, n: nat, k: nat, m: nat, why: PumpEnd)
    requires n <= |Attempts(req)|
    ensures var r := After(req, streaks, n);
      && (r.end == Completed(k, m) <==> k < n && Decides(req, k, Completes(m)))
      && (r.end == CutOff(why) <==> exists j: nat :: j < n && Decides(req, j, Cuts(why)))
  {
    hide Turn, FateOf, Quiet;
    if n > 0 {
      EndAfter(req, streaks, n - 1, k, m, why);
      RunningAfter(req, streaks, n - 1);
      TurnByFate(req, n - 1, After(req, streaks, n - 1));
      assert Decides(req, n - 1, FateOf(req.candidates[n - 1], req)) <==> Quiet(req, n - 1);
    }
  }

  /** A stream is completed by the first candidate that comes to anything, if its stream completes; it is
      cut off where that candidate's stream is cut off. Without fallback only the first candidate is
      ever tried. */
  lemma FirstStreamDecides(req: Request, streaks: map<Key, nat>, k: nat, m: nat, why: PumpEnd)
    ensures var r := StreamOnce(req, streaks);
      && (r.end == Completed(k, m) <==> Decides(req, k, Completes(m)))
      && (r.end == CutOff(why) <==> exists j: nat :: Decides(req, j, Cuts(why)))
  {
    hide Turn, FateOf, Quiet;
    if req.candidates != [] {
      EndAfter(req, streaks, |Attempts(req)|, k, m, why);
    }
  }

  /** A turn concerns its own candidate only. */
  lemma TurnIsOwn(req: Request, i: nat, r: Run)
    requires i < |Attempts(req)| && r.log == [] && r.skipped == [] && r.asked == []
    ensures var t, c := Turn(req, i, r), Attempts(req)[i];
      && (forall op | op in t.log :: op.at == i) && t.position <= r.position + 1
      && (t.skipped == [] || t.skipped == [c.name])
      && (forall ask | ask in t.asked :: ask.slot.user == req.user && ask.slot.provider == c.name)
  {
    hide ModelsFrom, Quarantine, CooledUpTo, Upstream.NoteRateLimit, PumpEndOf, Delivered;
    if Dispatchable(Attempts(req)[i]) {
      DispatchingTurn(req, i, r);
      assert r.asked + AskedBy(Attempts(req)[i], req) == AskedBy(Attempts(req)[i], req);
      var block := StreamTurnAppends(req, i, r);
      assert r.log + block == block == [block[0], block[1], block[2], block[3]];
    } else {
      SkippingTurn(req, i, r);
    }
  }

  /** Without fallback nothing is done for any candidate but the first. */
  lemma OnlyFirstWithoutFallback(req: Request, streaks: map<Key, nat>)
    requires !req.fallback && req.candidates != []
    ensures var r, c := StreamOnce(req, streaks), req.candidates[0];
      && (forall op | op in r.log :: op.at == 0) && r.position <= 1
      && (r.skipped == [] || r.skipped == [c.name])
      && (forall ask | ask in r.asked :: ask.slot.user == req.user && ask.slot.provider == c.name)
  {
    hide Turn;
    assert |Attempts(req)| == 1 && Attempts(req)[0] == req.candidates[0];
    assert After(req, streaks, 0) == Fresh(streaks);
    assert After(req, streaks, 1) == Turn(req, 0, Fresh(streaks));
    TurnIsOwn(req, 0, Fresh(streaks));
  }

  // ---------- why a stream is given up ----------

  function LastFailure(req: Request, n: nat): Option<ErrorKind>
    requires n <= |req.candidates|
  {
    if n == 0 then None
    else
      match FateOf(req.candidates[n - 1], req)
      case Fails(e) => Some(e.kind)
      case _ => LastFailure(req, n - 1)
  }

  /** How many of the first `n` candidates are visited. */
  function Visited(req: Request, n: nat): (v: nat)
    requires n <= |req.candidates|
    ensures v <= n
  {
    if n == 0 then 0 else if Quiet(req, n - 1) then n else Visited(req, n - 1)
  }

  lemma {:induction false} QuietFrom(req: Request, n: nat)
    requires n <= |req.candidates| && Quiet(req, n)
    ensures Visited(req, n) == n
  {
    if n > 0 { RejectionsGrow(req, n - 1, n); }
  }

  lemma {:induction false} LastKindAfter(req: Request, streaks: map<Key, nat>, n: nat)
    requires n <= |Attempts(req)|
    ensures var r, v := After(req, streaks, n), Visited(req, n);
      && (r.end.Open? ==> r.lastKind == LastFailure(req, v))
      && (r.end.Open? ==> (r.skipped != [] <==> exists i :: 0 <= i < v && FateOf(req.candidates[i], req).Skips?))
  {
    hide Turn, Quiet, FateOf, Stops;
    if n > 0 {
      LastKindAfter(req, streaks, n - 1);
      RunningAfter(req, streaks, n - 1);
      var r := After(req, streaks, n - 1);
      if Quiet(req, n - 1) {
        QuietFrom(req, n - 1);
        TurnByFate(req, n - 1, r);
        if Turn(req, n - 1, r).end.Open? {
          StoppedOrOpen(req, n - 1, r);
        }
      }
    }
  }

  lemma StoppedOrOpen(req: Request, i: nat, r: Run)
    requires i < |Attempts(req)| && Turn(req, i, r).end.Open?
    ensures r.end.Open?
  {
    TurnByFate(req, i, r);
  }

  /** A stream that is given up names its cause: the kind of the last failure; or, when nothing failed,
      that some candidate was busy or cooling; or else that no candidate streams. */
  lemma GivingUpNamesTheCause(req: Request, streaks: map<Key, nat>)
    requires StreamOnce(req, streaks).end.GaveUp?
    ensures var n, kind := if req.fallback then |req.candidates| else 1, StreamOnce(req, streaks).end.kind;
      if req.candidates == [] then kind == if req.unhealthy == [] then ClientError else RateLimited
      else
        var v := Visited(req, n);
        match LastFailure(req, v)
        case Some(k) => kind == k
        case None =>
          kind == if exists i :: 0 <= i < v && FateOf(req.candidates[i], req).Skips? then RateLimited else UnknownError
  {
    hide Turn, Quiet, FateOf, Stops;
    if req.candidates != [] {
      LastKindAfter(req, streaks, |Attempts(req)|);
      RunningAfter(req, streaks, |Attempts(req)|);
    }
  }
}
