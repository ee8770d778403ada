/** The streaming dispatch loop: what reaches the client, across models, candidates, client
    disconnects and cancellation. */
module Streaming {
  import opened Common
  import opened Providers
  import opened ModelCooldowns
  import Upstream
  import opened InFlight
  import opened Dispatch

  datatype Chunk = Chunk(delta: string, model: string, finish: Option<string>, rateLimit: Option<RateLimitInfo>)

  /** How an adapter stream ends after its chunks: normally; with a provider error (an idle timeout
      is a network error); with any other exception; or by the request being cancelled while it
      waits for the next chunk. */
  datatype Ending = EndsNormally | FailsWith(error: ProviderError) | Breaks | WaitCancelled

  datatype AdapterStream = AdapterStream(chunks: seq<Chunk>, ending: Ending)

  /** One server-sent event. */
  datatype Sse = Delta(provider: string, model: string, delta: string, finish: Option<string>) | Done(provider: string)

  datatype Candidate = Candidate(
    name: string, supportsStreaming: bool, models: seq<Option<string>>, granted: bool, perModelQuota: bool,
    streams: nat -> AdapterStream)

  /** `virtualModel` overrides the model name shown; `patience` is how many events the client takes
      before it disconnects, if it does. */
  datatype Request = Request(
    user: int, candidates: seq<Candidate>, fallback: bool, explicitModel: bool, unhealthy: seq<string>,
    virtualModel: Option<string>, patience: Option<nat>)

  predicate WellFormed(req: Request) {
    req.patience.Some? ==> req.patience.value >= 1
  }

  // ---------- one adapter stream ----------

  function Format(provider: string, c: Chunk, virtualModel: Option<string>): Sse {
    Delta(provider, if virtualModel.Some? then virtualModel.value else c.model, c.delta, c.finish)
  }

  function FormatAll(provider: string, chunks: seq<Chunk>, virtualModel: Option<string>): (out: seq<Sse>)
    ensures |out| == |chunks|
    ensures forall i | 0 <= i < |chunks| :: out[i] == Format(provider, chunks[i], virtualModel)
  {
    seq(|chunks|, i requires 0 <= i < |chunks| => Format(provider, chunks[i], virtualModel))
  }

  predicate HasText(chunks: seq<Chunk>) {
    exists i :: 0 <= i < |chunks| && chunks[i].delta != ""
  }

  /** The client stops at its `patience`-th event. */
  predicate Disconnects(n: nat, patience: Option<nat>) {
    patience.Some? && patience.value <= n
  }

  /** What reaches the client from one stream: nothing while no text has come, and from then on
      everything from the first chunk on, up to a disconnect. */
  function Delivered(provider: string, chunks: seq<Chunk>, virtualModel: Option<string>, patience: Option<nat>)
    : seq<Sse>
  {
    var all := FormatAll(provider, chunks, virtualModel);
    if !HasText(chunks) then []
    else if Disconnects(|all|, patience) then all[..patience.value]
    else all
  }

  datatype PumpEnd =
    | Finished
    | Disconnected
    | CancelledWaiting
    | Raised(error: ProviderError)
    | RaisedOther

  /** How the pump ends. A stream that ends without text is an EMPTY_RESPONSE error; an unexpected
      exception before any text is an UNKNOWN provider error. */
  function PumpEndOf(provider: string, s: AdapterStream, patience: Option<nat>): PumpEnd {
    if HasText(s.chunks) && Disconnects(|s.chunks|, patience) then Disconnected
    else
      match s.ending
      case EndsNormally =>
        if HasText(s.chunks) then Finished else Raised(ProviderError(provider, EmptyResponse, None, None))
      case FailsWith(e) => Raised(e)
      case Breaks => if HasText(s.chunks) then RaisedOther else Raised(Upstream.UnknownErrorOf(provider))
      case WaitCancelled => CancelledWaiting
  }

  /** The client has left by the time `i` chunks have been received. */
  predicate LeftBy(chunks: seq<Chunk>, i: nat, patience: Option<nat>)
    requires i <= |chunks|
  {
    HasText(chunks[..i]) && Disconnects(i, patience)
  }

  /** How many chunks are received, from number `i` on: all, unless the client leaves. */
  function ReceivedFrom(chunks: seq<Chunk>, i: nat, patience: Option<nat>): (n: nat)
    requires i <= |chunks|
    ensures i <= n <= |chunks|
    decreases |chunks| - i
  {
    if i == |chunks| || LeftBy(chunks, i, patience) then i else ReceivedFrom(chunks, i + 1, patience)
  }

  lemma ReceivedStep(chunks: seq<Chunk>, i: nat, patience: Option<nat>)
    requires i <= |chunks|
    ensures ReceivedFrom(chunks, i, patience) ==
      if i == |chunks| || LeftBy(chunks, i, patience) then i else ReceivedFrom(chunks, i + 1, patience)
  {
  }

  /** The cool-downs the received chunks ask for: each one that reports an empty quota. */
  function HeaderCools(perModelQuota: bool, model: Option<string>, chunks: seq<Chunk>): seq<Upstream.CoolRequest> {
    if chunks == [] then []
    else
      var c := chunks[|chunks| - 1];
      HeaderCools(perModelQuota, model, chunks[..|chunks| - 1])
        + Upstream.NoteRateLimit(perModelQuota, model, c.model, c.rateLimit)
  }

  lemma OneMoreHeader(perModelQuota: bool, model: Option<string>, chunks: seq<Chunk>, i: nat)
    requires i < |chunks|
    ensures HeaderCools(perModelQuota, model, chunks[..i + 1]) ==
      HeaderCools(perModelQuota, model, chunks[..i])
        + Upstream.NoteRateLimit(perModelQuota, model, chunks[i].model, chunks[i].rateLimit)
  {
    assert chunks[..i + 1][..i] == chunks[..i];
  }

  /** Emits one event; true when the client disconnects on it. */
  method Yield(out: seq<Sse>, item: Sse, patience: Option<nat>) returns (out': seq<Sse>, gone: bool)
    ensures out' == out + [item] && gone == (patience == Some(|out'|))
  {
    out' := out + [item];
    gone := patience == Some(|out'|);
  }

  /** What `Pump` is told about the attempt. */
  datatype Attempt = Attempt(
    user: int, provider: string, model: Option<string>, perModelQuota: bool,
    virtualModel: Option<string>, patience: Option<nat>)

  function PumpCools(a: Attempt, chunks: seq<Chunk>): seq<Upstream.CoolRequest> {
    HeaderCools(a.perModelQuota, a.model, chunks[..ReceivedFrom(chunks, 0, a.patience)])
  }

  /** The memory has grown by what the first `i` chunks ask for. */
  ghost predicate Noted(a: Attempt, chunks: seq<Chunk>, i: nat, memory: Cooldowns, clock: Clock,
                        ever0: seq<Cooling>, lost0: nat, since: real)
    requires i <= |chunks|
    reads memory, clock
  {
    && Ready(memory, clock) && clock.now >= since
    && Grown(ever0, lost0, since, Upstream.Asks(a.user, a.provider, HeaderCools(a.perModelQuota, a.model, chunks[..i])),
             memory.ever, memory.lost)
  }

  /** `_note_rate_limit` for one chunk. */
  method NoteChunk(a: Attempt, chunks: seq<Chunk>, i: nat, memory: Cooldowns, clock: Clock,
                   ghost ever0: seq<Cooling>, ghost lost0: nat, ghost since: real)
    requires i < |chunks| && Noted(a, chunks, i, memory, clock, ever0, lost0, since)
    modifies memory, clock
    ensures Noted(a, chunks, i + 1, memory, clock, ever0, lost0, since)
  {
    hide Grown, Ready, Upstream.NoteRateLimit, Upstream.Asks, HeaderCools;
    OneMoreHeader(a.perModelQuota, a.model, chunks, i);
    var noted := Upstream.NoteRateLimit(a.perModelQuota, a.model, chunks[i].model, chunks[i].rateLimit);
    Upstream.CoolMore(memory, clock, a.user, a.provider, noted,
                      HeaderCools(a.perModelQuota, a.model, chunks[..i]), ever0, lost0, since);
  }

  lemma NothingNoted(a: Attempt, chunks: seq<Chunk>, memory: Cooldowns, clock: Clock)
    requires Ready(memory, clock)
    ensures Noted(a, chunks, 0, memory, clock, memory.ever, memory.lost, clock.now)
  {
    assert chunks[..0] == [];
  }

  /** The chunk loop with its held-back buffer; it ends with the stream or with the client leaving. */
  method PumpChunks(a: Attempt, chunks: seq<Chunk>, memory: Cooldowns, clock: Clock)
    returns (out: seq<Sse>, sent: bool, gone: bool)
    requires a.patience.Some? ==> a.patience.value >= 1
    requires Ready(memory, clock)
    modifies memory, clock
    ensures out == Delivered(a.provider, chunks, a.virtualModel, a.patience)
    ensures gone == (HasText(chunks) && Disconnects(|chunks|, a.patience))
    ensures !gone ==> sent == HasText(chunks)
    ensures Noted(a, chunks, ReceivedFrom(chunks, 0, a.patience), memory, clock,
                  old(memory.ever), old(memory.lost), old(clock.now))
  {
    hide HasText, Format, Noted, ReceivedFrom, LeftBy, Buffered, Delivered, Disconnects;
    ghost var ever0, lost0, since := memory.ever, memory.lost, clock.now;
    NothingNoted(a, chunks, memory, clock);
    NothingBuffered(a, chunks);
    var held: seq<Sse> := [];
    out, sent, gone := [], false, false;
    var i := 0;
    while i < |chunks|
      invariant i <= |chunks| && !gone
      invariant Buffered(a, chunks, i, out, held, sent)
      invariant ReceivedFrom(chunks, 0, a.patience) == ReceivedFrom(chunks, i, a.patience)
      invariant Noted(a, chunks, i, memory, clock, ever0, lost0, since)
    {
      StillThere(a, chunks, i, out, held, sent);
      NoteChunk(a, chunks, i, memory, clock, ever0, lost0, since);
      out, held, sent, gone := TakeChunk(a, chunks, i, out, held, sent);
      i := i + 1;
      if gone {
        ReceivedStep(chunks, i, a.patience);
        return;
      }
    }
    ReceivedStep(chunks, i, a.patience);
    AllBuffered(a, chunks, out, held, sent);
  }

  /** The buffer after `i` chunks: nothing sent while no text has come, then everything sent. */
  ghost predicate Buffered(a: Attempt, chunks: seq<Chunk>, i: nat, out: seq<Sse>, held: seq<Sse>, sent: bool)
    requires i <= |chunks|
  {
    var all := FormatAll(a.provider, chunks, a.virtualModel);
    && sent == HasText(chunks[..i])
    && (if sent then out == all[..i] && held == [] else out == [] && held == all[..i])
    && !Disconnects(|out|, a.patience)
  }

  lemma NothingBuffered(a: Attempt, chunks: seq<Chunk>)
    requires a.patience.Some? ==> a.patience.value >= 1
    ensures Buffered(a, chunks, 0, [], [], false)
  {
  }

  lemma StillThere(a: Attempt, chunks: seq<Chunk>, i: nat, out: seq<Sse>, held: seq<Sse>, sent: bool)
    requires i < |chunks| && Buffered(a, chunks, i, out, held, sent)
    ensures ReceivedFrom(chunks, i, a.patience) == ReceivedFrom(chunks, i + 1, a.patience)
  {
    hide HasText;
  }

  lemma AllBuffered(a: Attempt, chunks: seq<Chunk>, out: seq<Sse>, held: seq<Sse>, sent: bool)
    requires Buffered(a, chunks, |chunks|, out, held, sent)
    ensures out == Delivered(a.provider, chunks, a.virtualModel, a.patience)
    ensures sent == HasText(chunks) && !(sent && Disconnects(|chunks|, a.patience))
  {
    hide HasText;
    assert chunks[..|chunks|] == chunks;
  }

  method TakeChunk(a: Attempt, chunks: seq<Chunk>, i: nat, out: seq<Sse>, held: seq<Sse>, sent: bool)
    returns (out': seq<Sse>, held': seq<Sse>, sent': bool, gone: bool)
    requires i < |chunks| && Buffered(a, chunks, i, out, held, sent)
    ensures !gone ==> Buffered(a, chunks, i + 1, out', held', sent')
    ensures gone ==> LeftBy(chunks, i + 1, a.patience) && HasText(chunks) && Disconnects(|chunks|, a.patience)
    ensures gone ==> out' == Delivered(a.provider, chunks, a.virtualModel, a.patience)
  {
    hide HasText, Format;
    ghost var all := FormatAll(a.provider, chunks, a.virtualModel);
    HasTextStep(chunks, i);
    out', held', sent', gone := Take(out, held, sent, Format(a.provider, chunks[i], a.virtualModel),
                                     chunks[i].delta != "", a.patience);
    assert all[..i + 1] == all[..i] + [all[i]];
  }

  lemma ReceivedChunks(a: Attempt, chunks: seq<Chunk>)
    ensures PumpCools(a, chunks) == HeaderCools(a.perModelQuota, a.model, chunks[..ReceivedFrom(chunks, 0, a.patience)])
  {
  }

  /** One adapter stream from its first chunk to its end. */
  method Pump(a: Attempt, s: AdapterStream, memory: Cooldowns, clock: Clock) returns (out: seq<Sse>, end: PumpEnd)
    requires a.patience.Some? ==> a.patience.value >= 1
    requires Ready(memory, clock)
    modifies memory, clock
    ensures out == Delivered(a.provider, s.chunks, a.virtualModel, a.patience)
    ensures end == PumpEndOf(a.provider, s, a.patience)
    ensures Ready(memory, clock) && clock.now >= old(clock.now)
    ensures Grown(old(memory.ever), old(memory.lost), old(clock.now),
                  Upstream.Asks(a.user, a.provider, PumpCools(a, s.chunks)), memory.ever, memory.lost)
  {
    hide HasText, Delivered, Grown, Ready, PumpCools;
    var sent, gone;
    out, sent, gone := PumpChunks(a, s.chunks, memory, clock);
    ReceivedChunks(a, s.chunks);
    if gone {
      end := Disconnected;
      return;
    }
    end := match s.ending
      case EndsNormally => if sent then Finished else Raised(ProviderError(a.provider, EmptyResponse, None, None))
      case FailsWith(e) => Raised(e)
      case Breaks => if sent then RaisedOther else Raised(Upstream.UnknownErrorOf(a.provider))
      case WaitCancelled => CancelledWaiting;
  }

  /** One chunk: held back until text arrives, then sent after everything held. */
  method Take(out: seq<Sse>, held: seq<Sse>, sent: bool, item: Sse, hasText: bool, patience: Option<nat>)
    returns (out': seq<Sse>, held': seq<Sse>, sent': bool, gone: bool)
    requires !Disconnects(|out|, patience)
    ensures sent' == (sent || hasText)
    ensures !sent' ==> out' == out && held' == held + [item] && !gone
    ensures sent' ==> held' == [] && gone == Disconnects(|out| + |held| + 1, patience)
    ensures sent' ==> out' == if gone then (out + held + [item])[..patience.value] else out + held + [item]
  {
    out', held', sent', gone := out, held, sent, false;
    if sent || hasText {
      assert out + (held + [item]) == out + held + [item];
      out', gone := Flush(out, held + [item], patience);
      sent', held' := true, [];
    } else {
      held' := held + [item];
    }
  }

  lemma HasTextStep(chunks: seq<Chunk>, i: nat)
    requires i < |chunks|
    ensures HasText(chunks[..i + 1]) <==> HasText(chunks[..i]) || chunks[i].delta != ""
    ensures HasText(chunks[..i + 1]) ==> HasText(chunks)
  {
    if HasText(chunks[..i]) {
      var j :| 0 <= j < i && chunks[..i][j].delta != "";
      assert chunks[..i + 1][j].delta != "";
    }
    if HasText(chunks[..i + 1]) {
      var j :| 0 <= j < i + 1 && chunks[..i + 1][j].delta != "";
      assert chunks[j].delta != "" && (j < i ==> chunks[..i][j].delta != "");
    }
    if chunks[i].delta != "" {
      assert chunks[..i + 1][i].delta != "";
    }
  }

  /** Yields a run of events, stopping at a disconnect. */
  method Flush(out: seq<Sse>, items: seq<Sse>, patience: Option<nat>) returns (out': seq<Sse>, gone: bool)
    requires !Disconnects(|out|, patience)
    ensures gone == Disconnects(|out| + |items|, patience)
    ensures out' == if gone then (out + items)[..patience.value] else out + items
  {
    out', gone := out, false;
    for k := 0 to |items|
      invariant out' == out + items[..k]
      invariant !Disconnects(|out'|, patience)
    {
      out', gone := Yield(out', items[k], patience);
      assert items[..k + 1] == items[..k] + [items[k]];
      if gone {
        assert out' == (out + items)[..patience.value];
        return;
      }
    }
    assert items[..|items|] == items;
  }

  // ---------- a candidate's models ----------

  datatype CandidateEnd =
    | Played(model: nat)
    | Gone(why: PumpEnd)
    | Failed(error: ProviderError, midway: bool, allModelsUnavailable: bool)

  /** `out` is what this candidate sent; `upto` models were tried. */
  datatype Tried = Tried(out: seq<Sse>, end: CandidateEnd, upto: nat)

  function Sent(c: Candidate, i: nat, req: Request): seq<Sse> {
    Delivered(c.name, c.streams(i).chunks, req.virtualModel, req.patience)
  }

  function ModelsFrom(c: Candidate, i: nat, req: Request): (t: Tried)
    requires i < |c.models|
    ensures i < t.upto <= |c.models|
    decreases |c.models| - i
  {
    var s, out := c.streams(i), Sent(c, i, req);
    match PumpEndOf(c.name, s, req.patience)
    case Finished => Tried(out, Played(i), i + 1)
    case Raised(e) =>
      var skip, more := Upstream.ModelSkip(c.perModelQuota, e), i + 1 < |c.models|;
      if HasText(s.chunks) then Tried(out, Failed(e, true, false), i + 1)
      else if s.ending == Breaks then Tried(out, Failed(e, false, false), i + 1)
      else if more && (skip.Some? || TryNextModel(e)) then ModelsFrom(c, i + 1, req)
      else Tried(out, Failed(e, false, skip.Some? && e.kind == ModelUnavailable && !req.explicitModel), i + 1)
    case why => Tried(out, Gone(why), i + 1)
  }

  /** The cool-down asked for when model `i` fails before any text with an error that is its own. */
  function CoolsFor(c: Candidate, i: nat, req: Request): seq<Upstream.CoolRequest>
    requires i < |c.models|
  {
    var s := c.streams(i);
    match PumpEndOf(c.name, s, req.patience)
    case Raised(e) =>
      var skip := Upstream.ModelSkip(c.perModelQuota, e);
      if HasText(s.chunks) || s.ending == Breaks || skip.None? then []
      else Upstream.CoolModel(c.models[i], skip.value)
    case _ => []
  }

  function AttemptOf(c: Candidate, i: nat, req: Request): Attempt
    requires i < |c.models|
  {
    Attempt(req.user, c.name, c.models[i], c.perModelQuota, req.virtualModel, req.patience)
  }

  /** Everything the first `n` models ask for. */
  function CooledUpTo(c: Candidate, n: nat, req: Request): seq<Upstream.CoolRequest>
    requires n <= |c.models|
  {
    if n == 0 then []
    else
      CooledUpTo(c, n - 1, req) + PumpCools(AttemptOf(c, n - 1, req), c.streams(n - 1).chunks) + CoolsFor(c, n - 1, req)
  }

  /** The model loop, cooling as it goes. */
  method TryModels(c: Candidate, req: Request, memory: Cooldowns, clock: Clock) returns (tried: Tried)
    requires c.models != [] && WellFormed(req) && Ready(memory, clock)
    modifies memory, clock
    ensures tried == ModelsFrom(c, 0, req)
    ensures Ready(memory, clock) && clock.now >= old(clock.now)
    ensures Grown(old(memory.ever), old(memory.lost), old(clock.now),
                  Upstream.Asks(req.user, c.name, CooledUpTo(c, tried.upto, req)), memory.ever, memory.lost)
  {
    hide Grown, Ready, PumpCools, PumpEndOf, Delivered, HasText, CoolsFor, Upstream.ModelSkip, Upstream.CoolModel;
    ghost var ever0, lost0, since := memory.ever, memory.lost, clock.now;
    ghost var cooled: seq<Upstream.CoolRequest> := [];
    NothingAsked(ever0, lost0, since);
    var i := 0;
    while i < |c.models|
      invariant i < |c.models|
      invariant ModelsFrom(c, 0, req) == ModelsFrom(c, i, req)
      invariant cooled == CooledUpTo(c, i, req)
      invariant Ready(memory, clock) && clock.now >= since
      invariant Grown(ever0, lost0, since, Upstream.Asks(req.user, c.name, cooled), memory.ever, memory.lost)
      decreases |c.models| - i
    {
      var more;
      ghost var before := cooled;
      tried, more := TryModel(c, i, req, memory, clock, before, ever0, lost0, since);
      cooled := CooledUpTo(c, i + 1, req);
      if !more {
        return;
      }
      i := i + 1;
    }
    assert false;
  }

  /** One model: its stream, and what its end means for the loop. */
  method TryModel(c: Candidate, i: nat, req: Request, memory: Cooldowns, clock: Clock,
                  ghost before: seq<Upstream.CoolRequest>, ghost ever0: seq<Cooling>, ghost lost0: nat,
                  ghost since: real) returns (tried: Tried, more: bool)
    requires i < |c.models| && WellFormed(req) && Ready(memory, clock) && clock.now >= since
    requires before == CooledUpTo(c, i, req)
    requires Grown(ever0, lost0, since, Upstream.Asks(req.user, c.name, before), memory.ever, memory.lost)
    modifies memory, clock
    ensures more ==> i + 1 < |c.models| && ModelsFrom(c, i, req) == ModelsFrom(c, i + 1, req)
    ensures !more ==> tried == ModelsFrom(c, i, req) && tried.upto == i + 1
    ensures Ready(memory, clock) && clock.now >= since
    ensures Grown(ever0, lost0, since, Upstream.Asks(req.user, c.name, CooledUpTo(c, i + 1, req)),
                  memory.ever, memory.lost)
  {
    hide Grown, Ready, PumpCools, PumpEndOf, Delivered, HasText, Upstream.ModelSkip, Upstream.CoolModel;
    var s := c.streams(i);
    var next := i + 1 < |c.models|;
    ghost var ever1, lost1, later := memory.ever, memory.lost, clock.now;
    var out, end := Pump(AttemptOf(c, i, req), s, memory, clock);
    ghost var headers := PumpCools(AttemptOf(c, i, req), s.chunks);
    GrownThen(ever0, lost0, since, Upstream.Asks(req.user, c.name, before), ever1, lost1,
              later, Upstream.Asks(req.user, c.name, headers), memory.ever, memory.lost);
    Upstream.AsksAppend(req.user, c.name, before, headers);
    assert before + headers + [] == before + headers;
    more := false;
    match end {
      case Finished => tried := Tried(out, Played(i), i + 1);
      case Raised(e) =>
        if HasText(s.chunks) {
          tried := Tried(out, Failed(e, true, false), i + 1);
          return;
        }
        if s.ending == Breaks {
          tried := Tried(out, Failed(e, false, false), i + 1);
          return;
        }
        var skip := Upstream.ModelSkip(c.perModelQuota, e);
        if skip.None? {
          tried := Tried(out, Failed(e, false, false), i + 1);
          more := TryNextModel(e) && next;
        } else {
          Upstream.CoolMore(memory, clock, req.user, c.name, Upstream.CoolModel(c.models[i], skip.value),
                            before + headers, ever0, lost0, since);
          tried := Tried(out, Failed(e, false, e.kind == ModelUnavailable && !req.explicitModel), i + 1);
          more := next;
        }
      case _ => tried := Tried(out, Gone(end), i + 1);
    }
  }

  // ---------- the loop over candidates ----------

  datatype StreamEnd =
    | Open
    | Completed(at: nat, model: nat)   // the done event was sent
    | CutOff(why: PumpEnd)        // disconnect, cancellation or a crash midway
    | Broken(kind: ErrorKind)          // a provider error after text had been sent
    | GaveUp(kind: ErrorKind)

  datatype Run = Run(
    end: StreamEnd, out: seq<Sse>, skipped: seq<string>, position: nat, clientErrors: nat,
    lastKind: Option<ErrorKind>, streaks: map<Key, nat>, asked: seq<Ask>, log: seq<Op>, last: Option<(nat, nat)>)

  function Attempts(req: Request): seq<Candidate> {
    AttemptsOf(req.candidates, req.fallback)
  }

  function Fresh(streaks: map<Key, nat>): Run {
    Run(Open, [], [], 0, 0, None, streaks, [], [], None)
  }

  predicate Dispatchable(c: Candidate) {
    c.supportsStreaming && c.models != [] && c.granted
  }

  /** What trying a candidate asks the cool-down memory for. */
  function AskedBy(c: Candidate, req: Request): seq<Ask>
    requires c.models != []
  {
    Upstream.Asks(req.user, c.name, CooledUpTo(c, ModelsFrom(c, 0, req).upto, req))
  }

  /** One turn of the loop. `last` names the attempt made most recently. */
  function Turn(req: Request, i: nat, r: Run): Run
    requires i < |Attempts(req)|
  {
    var c := Attempts(req)[i];
    if !c.supportsStreaming then r
    else if !Dispatchable(c) then r.(skipped := r.skipped + [c.name])
    else
      var key, tried, n := Key(req.user, c.name), ModelsFrom(c, 0, req), r.position + 1;
      var r' := r.(position := n, last := Some((i, tried.upto - 1)), asked := r.asked + AskedBy(c, req));
      match tried.end
      case Played(m) =>
        r'.(end := Completed(i, m), out := r.out + tried.out + [Done(c.name)], streaks := r.streaks - {key},
            log := r.log + [Reserved(i), Entered(i), CommittedOk(i, n), Left(i)])
      case Gone(why) =>
        r'.(end := CutOff(why), out := r.out + tried.out,
            log := r.log + [Reserved(i), Entered(i), Left(i), RolledBack(i)])
      case Failed(e, midway, allUnavailable) =>
        var (q, streaks) := Quarantine(r.streaks, key, e, allUnavailable);
        r'.(end := if midway then Broken(e.kind) else r.end, out := r.out + tried.out, lastKind := Some(e.kind),
            clientErrors := r.clientErrors + if !midway && e.kind == ClientError then 1 else 0, streaks := streaks,
            log := r.log + [Reserved(i), Entered(i), CommittedError(i, n, e.kind, q), Left(i)])
  }

  predicate Stops(r: Run) {
    !r.end.Open? || r.clientErrors >= MAX_CLIENT_ERROR_PROVIDERS
  }

  function After(req: Request, streaks: map<Key, nat>, i: nat): Run
    requires i <= |Attempts(req)|
  {
    if i == 0 then Fresh(streaks)
    else
      var r := After(req, streaks, i - 1);
      if Stops(r) then r else Turn(req, i - 1, r)
  }

  function StreamOnce(req: Request, streaks: map<Key, nat>): Run {
    if req.candidates == [] then Fresh(streaks).(end := GaveUp(NoCandidatesKind(req.unhealthy)))
    else
      var r := After(req, streaks, |Attempts(req)|);
      if r.end.Open? then r.(end := GaveUp(ExhaustedKind(r.lastKind, r.skipped))) else r
  }

  lemma {:induction false} StoppedStays(req: Request, streaks: map<Key, nat>, i: nat, n: nat)
    requires i <= n <= |Attempts(req)|
    requires i < n ==> Stops(After(req, streaks, i))
    ensures After(req, streaks, n) == After(req, streaks, i)
    decreases n
  {
    hide Turn;
    if i < n {
      StoppedStays(req, streaks, i, n - 1);
    }
  }

  lemma SkippingTurn(req: Request, i: nat, r: Run)
    requires i < |Attempts(req)| && !Dispatchable(Attempts(req)[i])
    ensures var c := Attempts(req)[i];
      Turn(req, i, r) == if c.supportsStreaming then r.(skipped := r.skipped + [c.name]) else r
  {
  }

  lemma DispatchingTurn(req: Request, i: nat, r: Run)
    requires i < |Attempts(req)| && Dispatchable(Attempts(req)[i])
    ensures Turn(req, i, r).asked == r.asked + AskedBy(Attempts(req)[i], req)
  {
    hide ModelsFrom, AskedBy;
  }

  /** `_stream_once`. Whatever way the run ends, the in-flight map is as it was, and the cool-down
      memory has grown by exactly what the tried models and their chunks asked for. */
  method RunStream(orch: Orchestrator, req: Request) returns (r: Run)
    requires Lean(orch.inFlight) && WellFormed(req) && Ready(orch.memory, orch.clock)
    modifies orch, orch.memory, orch.clock
    ensures r == StreamOnce(req, old(orch.streaks))
    ensures orch.streaks == r.streaks && orch.inFlight == old(orch.inFlight)
    ensures Ready(orch.memory, orch.clock) && orch.clock.now >= old(orch.clock.now)
    ensures Grown(old(orch.memory.ever), old(orch.memory.lost), old(orch.clock.now), r.asked,
                  orch.memory.ever, orch.memory.lost)
  {
    hide Grown, Ready, Turn, AskedBy;
    ghost var ever0, lost0, since := orch.memory.ever, orch.memory.lost, orch.clock.now;
    NothingAsked(ever0, lost0, since);
    r := Fresh(orch.streaks);
    if req.candidates == [] {
      return r.(end := GaveUp(NoCandidatesKind(req.unhealthy)));
    }
    var attempts := Attempts(req);
    var i := 0;
    while i < |attempts| && !Stops(r)
      invariant i <= |attempts|
      invariant r == After(req, old(orch.streaks), i)
      invariant orch.streaks == r.streaks && orch.inFlight == old(orch.inFlight)
      invariant Ready(orch.memory, orch.clock) && orch.clock.now >= since
      invariant Grown(ever0, lost0, since, r.asked, orch.memory.ever, orch.memory.lost)
      decreases |attempts| - i
    {
      var c := attempts[i];
      if !Dispatchable(c) {
        SkippingTurn(req, i, r);
      }
      if c.supportsStreaming {
        if c.models == [] || !c.granted {
          r := r.(skipped := r.skipped + [c.name]);
        } else {
          ghost var r0, ever1, lost1, later := r, orch.memory.ever, orch.memory.lost, orch.clock.now;
          r := DispatchOne(orch, req, i, r);
          DispatchingTurn(req, i, r0);
          GrownThen(ever0, lost0, since, r0.asked, ever1, lost1,
                    later, AskedBy(c, req), orch.memory.ever, orch.memory.lost);
        }
      }
      i := i + 1;
    }
    StoppedStays(req, old(orch.streaks), i, |attempts|);
    if r.end.Open? {
      r := r.(end := GaveUp(ExhaustedKind(r.lastKind, r.skipped)));
    }
  }

  method DispatchOne(orch: Orchestrator, req: Request, i: nat, r0: Run) returns (r: Run)
    requires i < |Attempts(req)| && Dispatchable(Attempts(req)[i]) && WellFormed(req)
    requires Lean(orch.inFlight) && orch.streaks == r0.streaks && Ready(orch.memory, orch.clock)
    modifies orch, orch.memory, orch.clock
    ensures r == Turn(req, i, r0)
    ensures orch.streaks == r.streaks && orch.inFlight == old(orch.inFlight)
    ensures Ready(orch.memory, orch.clock) && orch.clock.now >= old(orch.clock.now)
    ensures Grown(old(orch.memory.ever), old(orch.memory.lost), old(orch.clock.now), AskedBy(Attempts(req)[i], req),
                  orch.memory.ever, orch.memory.lost)
  {
    hide Grown, Ready, Turn, ModelsFrom, CooledUpTo;
    var c := Attempts(req)[i];
    var key := Key(req.user, c.name);
    orch.IncInFlight(key);
    var tried := TryModels(c, req, orch.memory, orch.clock);
    var settled;
    r, settled := Settle(orch, req, i, r0, tried);
    orch.DecInFlight(key);
    DecUndoesInc(old(orch.inFlight), key);
    r := r.(log := r.log + if settled then [Left(i)] else [Left(i), RolledBack(i)]);
  }

  /** The commit of a finished or failed stream; an interrupted one stays unsettled. */
  method Settle(orch: Orchestrator, req: Request, i: nat, r0: Run, tried: Tried) returns (r: Run, settled: bool)
    requires i < |Attempts(req)| && Dispatchable(Attempts(req)[i])
    requires orch.streaks == r0.streaks && tried == ModelsFrom(Attempts(req)[i], 0, req)
    modifies orch`streaks
    ensures r.log + (if settled then [Left(i)] else [Left(i), RolledBack(i)]) == Turn(req, i, r0).log
    ensures r.(log := Turn(req, i, r0).log) == Turn(req, i, r0)
    ensures orch.streaks == r.streaks
  {
    hide ModelsFrom, AskedBy, Quarantine;
    var c := Attempts(req)[i];
    var key := Key(req.user, c.name);
    r := r0.(position := r0.position + 1, last := Some((i, tried.upto - 1)), out := r0.out + tried.out,
             asked := r0.asked + AskedBy(c, req));
    settled := true;
    match tried.end {
      case Played(m) =>
        orch.streaks := orch.streaks - {key};
        r := r.(streaks := orch.streaks, log := r0.log + [Reserved(i), Entered(i), CommittedOk(i, r.position)]);
        r := r.(end := Completed(i, m), out := r.out + [Done(c.name)]);
      case Gone(why) =>
        settled := false;
        r := r.(end := CutOff(why), log := r0.log + [Reserved(i), Entered(i)]);
      case Failed(e, midway, allUnavailable) =>
        var q := orch.QuarantineFor(key, e, allUnavailable);
        r := r.(streaks := orch.streaks, lastKind := Some(e.kind),
                log := r0.log + [Reserved(i), Entered(i), CommittedError(i, r.position, e.kind, q)]);
        if midway {
          r := r.(end := Broken(e.kind));
        } else if e.kind == ClientError {
          r := r.(clientErrors := r.clientErrors + 1);
        }
    }
  }
}
