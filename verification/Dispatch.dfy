/** The non-streaming dispatch loop: candidates in rank order, reservation, in-flight slot, the
    models of each, settlement on every exit path, and the retry as freeai-auto. */
module Dispatch {
  import opened Common
  import opened Providers
  import opened Upstream
  import opened InFlight
  import opened ModelCooldowns

  /** What a run did, in order. `at` is the candidate's rank; a run dispatches a candidate at most
      once, so it also names the reservation. */
  datatype Op =
    | Reserved(at: nat)
    | Entered(at: nat)                                  // in-flight slot taken
    | Left(at: nat)                                     // in-flight slot given back
    | CommittedOk(at: nat, position: nat)
    | CommittedError(at: nat, position: nat, kind: ErrorKind, quarantineS: Option<real>)
    | RolledBack(at: nat)

  datatype Request = Request(
    user: int, candidates: seq<Candidate>, fallback: bool, explicitModel: bool, unhealthy: seq<string>)

  datatype End = Served(at: nat, response: Response) | Refused(kind: ErrorKind) | Interrupted | Running

  datatype Chat = Chat(
    end: End, chain: seq<string>, skipped: seq<string>, clientErrors: nat, lastKind: Option<ErrorKind>,
    streaks: map<Key, nat>, calls: nat, asked: seq<Ask>, log: seq<Op>)

  const MAX_CLIENT_ERROR_PROVIDERS := 2

  /** Without fallback only the first candidate is tried. */
  function AttemptsOf<C>(candidates: seq<C>, fallback: bool): seq<C> {
    if fallback || |candidates| <= 1 then candidates else candidates[..1]
  }

  /** Candidate `k` may be tried: the first one always, the others only with fallback. */
  predicate MayTry(count: nat, fallback: bool, k: nat) {
    k < count && (k == 0 || fallback)
  }

  function Attempts(req: Request): seq<Candidate> {
    AttemptsOf(req.candidates, req.fallback)
  }

  /** `_no_candidates_error` and `_exhausted_error`, by kind. */
  function NoCandidatesKind(unhealthy: seq<string>): ErrorKind {
    if unhealthy != [] then RateLimited else ClientError
  }

  function ExhaustedKind(lastKind: Option<ErrorKind>, skipped: seq<string>): ErrorKind {
    if lastKind.Some? then lastKind.value else if skipped != [] then RateLimited else UnknownError
  }

  function Fresh(streaks: map<Key, nat>): Chat {
    Chat(Running, [], [], 0, None, streaks, 0, [], [])
  }

  /** A whole provider is quarantined when the last error says its model is unavailable, unless the
      caller named the model. */
  predicate AllModelsUnavailable(req: Request, e: ProviderError) {
    e.kind == ModelUnavailable && !req.explicitModel
  }

  predicate Usable(c: Candidate) {
    c.models != [] && c.granted
  }

  /** One turn of the loop: candidate number `i`. */
  function Turn(req: Request, i: nat, s: Chat): Chat
    requires i < |Attempts(req)|
  {
    var c := Attempts(req)[i];
    if !Usable(c) then s.(skipped := s.skipped + [c.name])
    else
      var tried := ModelsFrom(c, 0, 0, []);
      var n := |s.chain| + 1;
      var s' := s.(chain := s.chain + [c.name], calls := s.calls + tried.calls,
                   asked := s.asked + Asks(req.user, c.name, tried.cooled));
      match tried.result
      case Aborted =>
        s'.(end := Interrupted, log := s.log + [Reserved(i), Entered(i), Left(i), RolledBack(i)])
      case Got(r) =>
        s'.(end := Served(i, r), streaks := s.streaks - {Key(req.user, c.name)},
            log := s.log + [Reserved(i), Entered(i), CommittedOk(i, n), Left(i)])
      case Lost(e) =>
        var (q, streaks) := Quarantine(s.streaks, Key(req.user, c.name), e, AllModelsUnavailable(req, e));
        s'.(lastKind := Some(e.kind), streaks := streaks,
            clientErrors := s.clientErrors + if e.kind == ClientError then 1 else 0,
            log := s.log + [Reserved(i), Entered(i), CommittedError(i, n, e.kind, q), Left(i)])
  }

  predicate Stops(s: Chat) {
    !s.end.Running? || s.clientErrors >= MAX_CLIENT_ERROR_PROVIDERS
  }

  /** The state after `i` turns (a stopped run does not move any more). */
  function After(req: Request, streaks: map<Key, nat>, i: nat): Chat
    requires i <= |Attempts(req)|
  {
    if i == 0 then Fresh(streaks)
    else
      var s := After(req, streaks, i - 1);
      if Stops(s) then s else Turn(req, i - 1, s)
  }

  function ChatOnce(req: Request, streaks: map<Key, nat>): Chat {
    if req.candidates == [] then Fresh(streaks).(end := Refused(NoCandidatesKind(req.unhealthy)))
    else
      var s := After(req, streaks, |Attempts(req)|);
      if s.end.Running? then s.(end := Refused(ExhaustedKind(s.lastKind, s.skipped))) else s
  }

  class Orchestrator {
    var inFlight: map<Key, int>
    var streaks: map<Key, nat>
    const memory: Cooldowns
    const clock: Clock

    constructor ()
      ensures inFlight == map[] && streaks == map[]
      ensures fresh(memory) && fresh(clock) && Ready(memory, clock) && memory.ever == []
    {
      inFlight, streaks := map[], map[];
      memory := new Cooldowns();
      clock := new Clock();
    }

    method IncInFlight(key: Key)
      modifies this`inFlight
      ensures inFlight == Inc(old(inFlight), key)
    {
      if key !in inFlight && |inFlight| >= InFlight.MAX_KEYS {
        return;
      }
      var n := if key in inFlight then inFlight[key] else 0;
      inFlight := inFlight[key := n + 1];
    }

    method DecInFlight(key: Key)
      modifies this`inFlight
      ensures inFlight == Dec(old(inFlight), key)
    {
      var n := (if key in inFlight then inFlight[key] else 1) - 1;
      if n <= 0 {
        inFlight := inFlight - {key};
      } else {
        inFlight := inFlight[key := n];
      }
    }

    /** `_quarantine`: the policy's seconds, escalated for repeated 429s. */
    method QuarantineFor(key: Key, e: ProviderError, allModelsUnavailable: bool) returns (seconds: Option<real>)
      modifies this`streaks
      ensures (seconds, streaks) == Quarantine(old(streaks), key, e, allModelsUnavailable)
    {
      seconds := QuarantineSecondsFor(e, allModelsUnavailable);
      if e.kind != RateLimited {
        return;
      }
      if key !in streaks && |streaks| >= InFlight.MAX_KEYS {
        streaks := map[];
      }
      var streak := (if key in streaks then streaks[key] else 0) + 1;
      streaks := streaks[key := streak];
      if streak >= 2 {
        var floor := EscalationFloor(streak);
        if !Truthy(seconds) || seconds.value < floor {
          seconds := Some(floor);
        }
      }
    }

    /** `_chat_once`. Whatever way the run ends, the in-flight map is as it was, and the cool-down
        memory has grown by exactly what the tried models asked for. */
    method Chat(req: Request) returns (s: Chat)
      requires Lean(inFlight) && Ready(memory, clock)
      modifies this, memory, clock
      ensures s == ChatOnce(req, old(streaks))
      ensures streaks == s.streaks && inFlight == old(inFlight)
      ensures Ready(memory, clock) && clock.now >= old(clock.now)
      ensures Grown(old(memory.ever), old(memory.lost), old(clock.now), s.asked, memory.ever, memory.lost)
    {
      hide Grown, Ready, Turn;
      NothingAsked(memory.ever, memory.lost, clock.now);
      s := Fresh(streaks);
      if req.candidates == [] {
        return s.(end := Refused(NoCandidatesKind(req.unhealthy)));
      }
      var attempts := Attempts(req);
      var i := 0;
      while i < |attempts| && !Stops(s)
        invariant i <= |attempts|
        invariant s == After(req, old(streaks), i)
        invariant streaks == s.streaks && inFlight == old(inFlight)
        invariant Ready(memory, clock) && clock.now >= old(clock.now)
        invariant Grown(old(memory.ever), old(memory.lost), old(clock.now), s.asked, memory.ever, memory.lost)
        decreases |attempts| - i
      {
        var c := attempts[i];
        if c.models == [] || !c.granted {
          SkippingTurn(req, i, s);
          s := s.(skipped := s.skipped + [c.name]);
        } else {
          ghost var s0, ever1, lost1, later := s, memory.ever, memory.lost, clock.now;
          s := DispatchOne(req, i, s);
          DispatchingTurn(req, i, s0);
          GrownThen(old(memory.ever), old(memory.lost), old(clock.now), s0.asked, ever1, lost1,
                    later, Asks(req.user, c.name, ModelsFrom(c, 0, 0, []).cooled), memory.ever, memory.lost);
        }
        i := i + 1;
      }
      StoppedStays(req, old(streaks), i, |attempts|);
      if s.end.Running? {
        s := s.(end := Refused(ExhaustedKind(s.lastKind, s.skipped)));
      }
    }

    /** One granted dispatch, with the settlement of its `finally` block. */
    method DispatchOne(req: Request, i: nat, s0: Chat) returns (s: Chat)
      requires i < |Attempts(req)| && Usable(Attempts(req)[i])
      requires Lean(inFlight) && streaks == s0.streaks && Ready(memory, clock)
      modifies this, memory, clock
      ensures s == Turn(req, i, s0)
      ensures streaks == s.streaks && inFlight == old(inFlight)
      ensures Ready(memory, clock) && clock.now >= old(clock.now)
      ensures var c := Attempts(req)[i];
        Grown(old(memory.ever), old(memory.lost), old(clock.now),
              Asks(req.user, c.name, ModelsFrom(c, 0, 0, []).cooled), memory.ever, memory.lost)
    {
      hide Grown, Ready, Turn, ModelsFrom;
      var c := Attempts(req)[i];
      var key := Key(req.user, c.name);
      IncInFlight(key);
      var tried := TryModels(c, req.user, memory, clock);
      var settled;
      s, settled := Record(req, i, s0, tried);
      DecInFlight(key);
      DecUndoesInc(old(inFlight), key);
      s := s.(log := s.log + if settled then [Left(i)] else [Left(i), RolledBack(i)]);
    }

    /** `_commit_attempt`, when there is a result to commit. */
    method Record(req: Request, i: nat, s0: Chat, tried: Tried) returns (s: Chat, settled: bool)
      requires i < |Attempts(req)| && Usable(Attempts(req)[i])
      requires streaks == s0.streaks && tried == ModelsFrom(Attempts(req)[i], 0, 0, [])
      modifies this`streaks
      ensures settled <==> !tried.result.Aborted?
      ensures s.log + (if settled then [Left(i)] else [Left(i), RolledBack(i)]) == Turn(req, i, s0).log
      ensures s.(log := Turn(req, i, s0).log) == Turn(req, i, s0)
      ensures streaks == s.streaks
    {
      var c := Attempts(req)[i];
      var key := Key(req.user, c.name);
      s := s0.(chain := s0.chain + [c.name], calls := s0.calls + tried.calls,
               asked := s0.asked + Asks(req.user, c.name, tried.cooled));
      settled := !tried.result.Aborted?;
      match tried.result {
        case Aborted =>
          s := s.(end := Interrupted, log := s0.log + [Reserved(i), Entered(i)]);
        case Got(r) =>
          streaks := streaks - {key};
          s := s.(end := Served(i, r), streaks := streaks,
                  log := s0.log + [Reserved(i), Entered(i), CommittedOk(i, |s.chain|)]);
        case Lost(e) =>
          var q := QuarantineFor(key, e, AllModelsUnavailable(req, e));
          s := s.(lastKind := Some(e.kind), streaks := streaks,
                  clientErrors := s.clientErrors + if e.kind == ClientError then 1 else 0,
                  log := s0.log + [Reserved(i), Entered(i), CommittedError(i, |s.chain|, e.kind, q)]);
      }
    }
  }

  lemma SkippingTurn(req: Request, i: nat, s: Chat)
    requires i < |Attempts(req)| && !Usable(Attempts(req)[i])
    ensures Turn(req, i, s) == s.(skipped := s.skipped + [Attempts(req)[i].name])
  {
  }

  lemma DispatchingTurn(req: Request, i: nat, s: Chat)
    requires i < |Attempts(req)| && Usable(Attempts(req)[i])
    ensures var c := Attempts(req)[i];
      Turn(req, i, s).asked == s.asked + Asks(req.user, c.name, ModelsFrom(c, 0, 0, []).cooled)
  {
  }

  lemma {:induction false} StoppedStays(req: Request, streaks: map<Key, nat>, i: nat, n: nat)
    requires i <= n <= |Attempts(req)|
    requires i < n ==> Stops(After(req, streaks, i))
    ensures After(req, streaks, n) == After(req, streaks, i)
    decreases n
  {
    if i < n {
      StoppedStays(req, streaks, i, n - 1);
    }
  }
}
