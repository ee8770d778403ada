/** What every run of the dispatch loop guarantees. */
module DispatchProperties {
  import opened Common
  import opened Providers
  import opened ModelCooldowns
  import opened Upstream
  import opened InFlight
  import opened Dispatch
  import opened ModelOutcomes

  /** What a candidate would do, whatever came before it. */
  datatype Fate = Skips | Answers(response: Response) | Fails(error: ProviderError) | Interrupts

  function FateOf(c: Candidate): Fate {
    if !Usable(c) then Skips
    else
      match ModelsFrom(c, 0, 0, []).result
      case Got(r) => Answers(r)
      case Lost(e) => Fails(e)
      case Aborted => Interrupts
  }

  predicate RejectsRequest(c: Candidate) {
    var f := FateOf(c);
    f.Fails? && f.error.kind == ClientError
  }

  function Rejections(cs: seq<Candidate>, n: nat): nat
    requires n <= |cs|
  {
    if n == 0 then 0 else Rejections(cs, n - 1) + if RejectsRequest(cs[n - 1]) then 1 else 0
  }

  /** The first `n` candidates are skipped or fail, and fewer than two of them reject the request. */
  predicate Quiet(cs: seq<Candidate>, n: nat)
    requires n <= |cs|
  {
    (forall i | 0 <= i < n :: FateOf(cs[i]).Skips? || FateOf(cs[i]).Fails?)
      && Rejections(cs, n) < MAX_CLIENT_ERROR_PROVIDERS
  }

  lemma {:induction false} RejectionsGrow(cs: seq<Candidate>, m: nat, n: nat)
    requires m <= n <= |cs|
    ensures Rejections(cs, m) <= Rejections(cs, n)
    decreases n
  {
    if m < n { RejectionsGrow(cs, m, n - 1); }
  }

  /** Model `j` is the one that decides: each one before it failed with an error of its own, and it did
      not, unless there is no other. */
  predicate Decisive(c: Candidate, j: nat) {
    && j < |c.models|
    && (forall i | 0 <= i < j ::
          ModelResult(c, i).0.Lost? && IsTheModels(c.perModelQuota, ModelResult(c, i).0.error))
    && (ModelResult(c, j).0.Lost? && IsTheModels(c.perModelQuota, ModelResult(c, j).0.error) ==> j == |c.models| - 1)
  }

  /** A candidate is skipped exactly when it has no usable model or no reservation; otherwise what it comes
      to is what its deciding model comes to. */
  lemma FateMeans(c: Candidate)
    ensures FateOf(c) == Skips <==> c.models == [] || !c.granted
    ensures !FateOf(c).Skips? ==>
      exists j :: Decisive(c, j) && FateOf(c) == match ModelResult(c, j).0
                                                 case Got(r) => Answers(r)
                                                 case Lost(e) => Fails(e)
                                                 case Aborted => Interrupts
  {
    hide IsTheModels;
    if !FateOf(c).Skips? {
      TriedWhileModelsFail(c);
      assert Decisive(c, ModelsFrom(c, 0, 0, []).upto - 1);
    }
  }

  /** There is only one such model. */
  lemma OneDecides(c: Candidate, i: nat, j: nat)
    requires Decisive(c, i) && Decisive(c, j)
    ensures i == j
  {
  }

  // ---------- who answers ----------

  /** A turn's effect on the control of the loop, by the candidate's fate. */
  lemma TurnByFate(req: Request, i: nat, s: Chat)
    requires i < |Attempts(req)|
    ensures var t, f := Turn(req, i, s), FateOf(Attempts(req)[i]);
      && t.end == (match f case Answers(r) => Served(i, r) case Interrupts => Interrupted case _ => s.end)
      && t.clientErrors == s.clientErrors + if RejectsRequest(Attempts(req)[i]) then 1 else 0
  {
  }

  lemma {:induction false} RunningAfter(req: Request, streaks: map<Key, nat>, n: nat)
    requires n <= |Attempts(req)|
    ensures var cs, s := Attempts(req), After(req, streaks, n);
      && (Quiet(cs, n) <==> !Stops(s))
      && (Quiet(cs, n) ==> s.clientErrors == Rejections(cs, n))
      && !s.end.Refused?
  {
    hide Turn, FateOf;
    if n > 0 {
      RunningAfter(req, streaks, n - 1);
      TurnByFate(req, n - 1, After(req, streaks, n - 1));
      RejectionsGrow(Attempts(req), n - 1, n);
    }
  }

  lemma {:induction false} ServedAfter(req: Request, streaks: map<Key, nat>, n: nat, k: nat, r: Response)
    requires n <= |Attempts(req)|
    ensures var cs, s := Attempts(req), After(req, streaks, n);
      s.end == Served(k, r) <==> k < n && Quiet(cs, k) && FateOf(cs[k]) == Answers(r)
  {
    hide Turn;
    if n > 0 {
      ServedAfter(req, streaks, n - 1, k, r);
      RunningAfter(req, streaks, n - 1);
      TurnByFate(req, n - 1, After(req, streaks, n - 1));
    }
  }

  ghost predicate InterruptedAt(cs: seq<Candidate>, k: nat)
    requires k < |cs|
  {
    Quiet(cs, k) && FateOf(cs[k]) == Interrupts
  }

  lemma {:induction false} InterruptedAfter(req: Request, streaks: map<Key, nat>, n: nat)
    requires n <= |Attempts(req)|
    ensures After(req, streaks, n).end == Interrupted
      <==> exists k: nat | k < n :: InterruptedAt(Attempts(req), k)
  {
    hide Turn;
    if n > 0 {
      InterruptedAfter(req, streaks, n - 1);
      RunningAfter(req, streaks, n - 1);
      TurnByFate(req, n - 1, After(req, streaks, n - 1));
      assert InterruptedAt(Attempts(req), n - 1) ==> After(req, streaks, n).end == Interrupted;
    }
  }

  /** The call returns the answer of the first ranked candidate that has usable models, is granted a
      reservation and answers, unless two candidates rejected the request before it (or the request
      was cancelled while one before it was being tried); otherwise it fails. */
  lemma FirstUsableAnswerWins(req: Request, streaks: map<Key, nat>)
    ensures var cs, s := Attempts(req), ChatOnce(req, streaks);
      && (forall k: nat, r :: s.end == Served(k, r) <==> k < |cs| && Quiet(cs, k) && FateOf(cs[k]) == Answers(r))
      && (s.end == Interrupted <==> exists k: nat | k < |cs| :: InterruptedAt(cs, k))
      && !s.end.Running?
  {
    var n := |Attempts(req)|;
    forall k: nat, r
      ensures After(req, streaks, n).end == Served(k, r)
        <==> k < n && Quiet(Attempts(req), k) && FateOf(Attempts(req)[k]) == Answers(r)
    {
      ServedAfter(req, streaks, n, k, r);
    }
    InterruptedAfter(req, streaks, n);
  }

  // ---------- which candidates were visited ----------

  /** How many turns the loop took within the first `n`. */
  function Visited(cs: seq<Candidate>, n: nat): (v: nat)
    requires n <= |cs|
    ensures v <= n
  {
    if n == 0 then 0 else if Quiet(cs, n - 1) then n else Visited(cs, n - 1)
  }

  /** Names of the visited candidates that were (or were not) dispatched, in rank order. */
  function NamesWhere(cs: seq<Candidate>, n: nat, dispatched: bool): seq<string>
    requires n <= |cs|
  {
    if n == 0 then []
    else NamesWhere(cs, n - 1, dispatched) + if Usable(cs[n - 1]) == dispatched then [cs[n - 1].name] else []
  }

  lemma {:induction false} VisitedWithin(cs: seq<Candidate>, n: nat)
    requires n <= |cs|
    ensures Visited(cs, n) < n ==> !Quiet(cs, Visited(cs, n))
    ensures forall i | 0 <= i < Visited(cs, n) :: Quiet(cs, i)
  {
    if n > 0 {
      VisitedWithin(cs, n - 1);
      if Quiet(cs, n - 1) {
        forall i | 0 <= i < n ensures Quiet(cs, i) { RejectionsGrow(cs, i, n - 1); }
      }
    }
  }

  lemma TurnNames(req: Request, i: nat, s: Chat)
    requires i < |Attempts(req)|
    ensures var c := Attempts(req)[i];
      && Turn(req, i, s).chain == s.chain + (if Usable(c) then [c.name] else [])
      && Turn(req, i, s).skipped == s.skipped + (if Usable(c) then [] else [c.name])
  {
    assert s.chain + [] == s.chain && s.skipped + [] == s.skipped;
  }

  lemma {:induction false} ChainAfter(req: Request, streaks: map<Key, nat>, n: nat)
    requires n <= |Attempts(req)|
    ensures var cs, s := Attempts(req), After(req, streaks, n);
      && s.chain == NamesWhere(cs, Visited(cs, n), true)
      && s.skipped == NamesWhere(cs, Visited(cs, n), false)
  {
    hide Turn, Quiet, Usable, Stops;
    if n > 0 {
      ChainAfter(req, streaks, n - 1);
      RunningAfter(req, streaks, n - 1);
      if Quiet(Attempts(req), n - 1) {
        VisitedAll(Attempts(req), n - 1);
        TurnNames(req, n - 1, After(req, streaks, n - 1));
      }
    }
  }

  lemma {:induction false} VisitedAll(cs: seq<Candidate>, n: nat)
    requires n <= |cs| && Quiet(cs, n)
    ensures Visited(cs, n) == n
  {
    if n > 0 {
      RejectionsGrow(cs, n - 1, n);
    }
  }

  ghost predicate NamedAmong(cs: seq<Candidate>, n: nat, name: string, dispatched: bool)
    requires n <= |cs|
  {
    exists i :: 0 <= i < n && cs[i].name == name && Usable(cs[i]) == dispatched
  }

  lemma {:induction false} NamesMembers(cs: seq<Candidate>, n: nat, name: string, dispatched: bool)
    requires n <= |cs|
    ensures name in NamesWhere(cs, n, dispatched) <==> NamedAmong(cs, n, name, dispatched)
  {
    if n > 0 {
      NamesMembers(cs, n - 1, name, dispatched);
      assert NamedAmong(cs, n, name, dispatched)
        <==> NamedAmong(cs, n - 1, name, dispatched) || (cs[n - 1].name == name && Usable(cs[n - 1]) == dispatched);
    }
  }

  ghost predicate DistinctNames(cs: seq<Candidate>) {
    forall i, j | 0 <= i < j < |cs| :: cs[i].name != cs[j].name
  }

  lemma {:induction false} NamesDistinct(cs: seq<Candidate>, n: nat, dispatched: bool)
    requires n <= |cs| && DistinctNames(cs)
    ensures NoDuplicates(NamesWhere(cs, n, dispatched))
  {
    if n > 0 {
      NamesDistinct(cs, n - 1, dispatched);
      NamesMembers(cs, n - 1, cs[n - 1].name, dispatched);
    }
  }

  /** The names of a prefix, split by whether they were dispatched. */
  ghost predicate Partition(cs: seq<Candidate>, v: nat, chain: seq<string>, skipped: seq<string>)
    requires v <= |cs|
  {
    && NoDuplicates(chain) && NoDuplicates(skipped)
    && (forall name :: name in chain <==> NamedAmong(cs, v, name, true))
    && (forall name :: name in skipped <==> NamedAmong(cs, v, name, false))
    && (forall name :: !(name in chain && name in skipped))
  }

  lemma PrefixIsPartitioned(cs: seq<Candidate>, v: nat)
    requires v <= |cs| && DistinctNames(cs)
    ensures Partition(cs, v, NamesWhere(cs, v, true), NamesWhere(cs, v, false))
  {
    NamesDistinct(cs, v, true);
    NamesDistinct(cs, v, false);
    hide NamesWhere;
    forall name, d ensures name in NamesWhere(cs, v, d) <==> NamedAmong(cs, v, name, d) {
      NamesMembers(cs, v, name, d);
    }
  }

  /** fallback_chain and skipped partition the visited prefix, without duplicates; and the prefix
      stops short of the end only because a candidate answered or was interrupted, or two rejected
      the request. */
  lemma ChainAndSkippedPartition(req: Request, streaks: map<Key, nat>)
    requires DistinctNames(Attempts(req))
    ensures var cs, s := Attempts(req), ChatOnce(req, streaks);
      var v := Visited(cs, |cs|);
      && (v < |cs| ==> !Quiet(cs, v)) && (forall i | 0 <= i < v :: Quiet(cs, i))
      && Partition(cs, v, s.chain, s.skipped)
  {
    var cs := Attempts(req);
    ChainAfter(req, streaks, |cs|);
    VisitedWithin(cs, |cs|);
    PrefixIsPartitioned(cs, Visited(cs, |cs|));
    hide After, Quiet, NamesWhere, Partition, Visited;
  }

  // ---------- the fallback flag ----------

  lemma {:induction false} PrefixQuiet(req: Request, n: nat)
    requires n <= |Attempts(req)|
    ensures n <= |req.candidates| && Rejections(Attempts(req), n) == Rejections(req.candidates, n)
    ensures Quiet(Attempts(req), n) == Quiet(req.candidates, n)
    ensures forall d :: NamesWhere(Attempts(req), n, d) == NamesWhere(req.candidates, n, d)
    decreases n
  {
    hide FateOf, Usable;
    if n > 0 {
      PrefixQuiet(req, n - 1);
    }
  }

  /** The same, in terms of the ranking: with fallback the answer is that of the first candidate with one;
      without, it is the first candidate's or none. */
  lemma AnswerComesFrom(req: Request, streaks: map<Key, nat>, k: nat, r: Response)
    ensures ChatOnce(req, streaks).end == Served(k, r) <==>
      && MayTry(|req.candidates|, req.fallback, k)
      && Quiet(req.candidates, k) && FateOf(req.candidates[k]) == Answers(r)
  {
    hide ChatOnce, FateOf, Quiet;
    FirstUsableAnswerWins(req, streaks);
    if k < |Attempts(req)| {
      PrefixQuiet(req, k);
    }
  }

  /** Without fallback only the first candidate is dispatched or skipped, and only its budget is spent. */
  lemma OnlyFirstWithoutFallback(req: Request, streaks: map<Key, nat>)
    requires !req.fallback && req.candidates != []
    ensures var s, c := ChatOnce(req, streaks), req.candidates[0];
      && s.chain == (if Usable(c) then [c.name] else []) && s.skipped == (if Usable(c) then [] else [c.name])
      && s.calls <= CallBudget(c) && (forall op | op in s.log :: op.at == 0)
  {
    hide ModelsFrom, Quarantine;
    var cs, s := Attempts(req), ChatOnce(req, streaks);
    assert |cs| == 1 && cs[0] == req.candidates[0];
    assert After(req, streaks, 0) == Fresh(streaks);
    assert After(req, streaks, 1) == Turn(req, 0, Fresh(streaks));
    CallsAfter(req, streaks, 1);
    assert TotalBudget(cs, 1) == TotalBudget(cs, 0) + CallBudget(cs[0]);
  }

  /** With fallback the candidates visited are a prefix of the ranking, and it stops short of the end only
      for an answer, an interruption, or two rejections. */
  lemma FallbackVisitsPrefix(req: Request, streaks: map<Key, nat>)
    requires req.fallback
    ensures var cs, s := req.candidates, ChatOnce(req, streaks);
      var v := Visited(cs, |cs|);
      && s.chain == NamesWhere(cs, v, true) && s.skipped == NamesWhere(cs, v, false)
      && (v < |cs| ==> s.end.Served? || s.end == Interrupted || s.clientErrors == 2)
      && (v < |cs| ==> !Quiet(cs, v)) && (forall i | 0 <= i < v :: Quiet(cs, i))
  {
    hide Turn, Quiet, FateOf;
    var cs := req.candidates;
    ChainAfter(req, streaks, |cs|);
    VisitedWithin(cs, |cs|);
    RunningAfter(req, streaks, |cs|);
    RejectionsUpToTwo(req, streaks, |cs|);
    if Quiet(cs, |cs|) {
      VisitedAll(cs, |cs|);
    }
  }

  lemma {:induction false} RejectionsUpToTwo(req: Request, streaks: map<Key, nat>, n: nat)
    requires n <= |Attempts(req)|
    ensures After(req, streaks, n).clientErrors <= 2
  {
    hide Turn;
    if n > 0 {
      RejectionsUpToTwo(req, streaks, n - 1);
      TurnByFate(req, n - 1, After(req, streaks, n - 1));
    }
  }

  // ---------- why a run is refused ----------

  /** The kind of the last failure among the first `n` candidates. */
  function LastFailure(cs: seq<Candidate>, n: nat): Option<ErrorKind>
    requires n <= |cs|
  {
    if n == 0 then None
    else
      match FateOf(cs[n - 1])
      case Fails(e) => Some(e.kind)
      case _ => LastFailure(cs, n - 1)
  }

  lemma TurnKind(req: Request, i: nat, s: Chat)
    requires i < |Attempts(req)|
    ensures var f := FateOf(Attempts(req)[i]);
      Turn(req, i, s).lastKind == if f.Fails? then Some(f.error.kind) else s.lastKind
  {
  }

  lemma {:induction false} LastKindAfter(req: Request, streaks: map<Key, nat>, n: nat)
    requires n <= |Attempts(req)|
    ensures After(req, streaks, n).lastKind == LastFailure(Attempts(req), Visited(Attempts(req), n))
  {
    hide Turn, Quiet, FateOf, Stops;
    if n > 0 {
      LastKindAfter(req, streaks, n - 1);
      RunningAfter(req, streaks, n - 1);
      if Quiet(Attempts(req), n - 1) {
        VisitedAll(Attempts(req), n - 1);
        TurnKind(req, n - 1, After(req, streaks, n - 1));
      }
    }
  }

  lemma {:induction false} NoFailureNoRejection(cs: seq<Candidate>, n: nat)
    requires n <= |cs| && LastFailure(cs, n).None?
    ensures Rejections(cs, n) == 0 && forall i | 0 <= i < n :: !FateOf(cs[i]).Fails?
  {
    if n > 0 {
      NoFailureNoRejection(cs, n - 1);
    }
  }

  /** A refused run names its cause: the kind of the last failure; or, when nothing failed, that every
      candidate was skipped as busy or cooling. With candidates to try it is never "unknown" of its
      own. */
  lemma RefusalNamesTheCause(req: Request, streaks: map<Key, nat>)
    requires ChatOnce(req, streaks).end.Refused?
    ensures var cs, kind := Attempts(req), ChatOnce(req, streaks).end.kind;
      if req.candidates == [] then kind == if req.unhealthy == [] then ClientError else RateLimited
      else
        match LastFailure(cs, Visited(cs, |cs|))
        case Some(k) => kind == k
        case None => kind == RateLimited && forall i | 0 <= i < |cs| :: FateOf(cs[i]).Skips?
  {
    hide Turn;
    if req.candidates != [] {
      var cs := Attempts(req);
      var n := |cs|;
      LastKindAfter(req, streaks, n);
      RunningAfter(req, streaks, n);
      if LastFailure(cs, Visited(cs, n)).None? {
        NothingFailed(req, streaks);
      }
    }
  }

  lemma NothingFailed(req: Request, streaks: map<Key, nat>)
    requires req.candidates != []
    requires var cs := Attempts(req); LastFailure(cs, Visited(cs, |cs|)).None?
    requires After(req, streaks, |Attempts(req)|).end.Running?
    ensures forall i | 0 <= i < |Attempts(req)| :: FateOf(Attempts(req)[i]).Skips?
    ensures After(req, streaks, |Attempts(req)|).skipped != []
  {
    hide Turn, FateOf;
    var cs := Attempts(req);
    var n := |cs|;
    LastKindAfter(req, streaks, n);
    RejectionsLeaveAKind(req, streaks, n);
    RunningAfter(req, streaks, n);
    assert Quiet(cs, n);
    VisitedAll(cs, n);
    NoFailureNoRejection(cs, n);
    ChainAfter(req, streaks, n);
    SkipsAreNotUsable(cs[0]);
    NamesMembers(cs, n, cs[0].name, false);
    assert NamedAmong(cs, n, cs[0].name, false);
  }

  lemma {:induction false} RejectionsLeaveAKind(req: Request, streaks: map<Key, nat>, n: nat)
    requires n <= |Attempts(req)|
    ensures var s := After(req, streaks, n); s.clientErrors > 0 ==> s.lastKind.Some?
  {
    hide Turn;
    if n > 0 {
      RejectionsLeaveAKind(req, streaks, n - 1);
      TurnByFate(req, n - 1, After(req, streaks, n - 1));
      TurnKind(req, n - 1, After(req, streaks, n - 1));
    }
  }

  lemma SkipsAreNotUsable(c: Candidate)
    ensures FateOf(c).Skips? <==> !Usable(c)
  {
  }

  // ---------- settlement ----------

  function Count(log: seq<Op>, p: Op -> bool): nat {
    if log == [] then 0 else Count(log[..|log| - 1], p) + if p(log[|log| - 1]) then 1 else 0
  }

  function Reserves(at: nat): Op -> bool {
    (o: Op) => o == Reserved(at)
  }

  function Settles(at: nat): Op -> bool {
    (o: Op) => (o.CommittedOk? || o.CommittedError? || o.RolledBack?) && o.at == at
  }

  function Enters(at: nat): Op -> bool {
    (o: Op) => o == Entered(at)
  }

  function Leaves(at: nat): Op -> bool {
    (o: Op) => o == Left(at)
  }

  lemma {:induction false} CountConcat(a: seq<Op>, b: seq<Op>, p: Op -> bool)
    ensures Count(a + b, p) == Count(a, p) + Count(b, p)
    decreases |b|
  {
    if b == [] {
      assert a + b == a;
    } else {
      assert (a + b)[..|a + b| - 1] == a + b[..|b| - 1];
      CountConcat(a, b[..|b| - 1], p);
    }
  }

  lemma CountFour(a: Op, b: Op, c: Op, d: Op, p: Op -> bool)
    ensures Count([a, b, c, d], p)
      == (if p(a) then 1 else 0) + (if p(b) then 1 else 0) + (if p(c) then 1 else 0) + (if p(d) then 1 else 0)
  {
    assert [a, b, c, d] == [a] + [b] + [c] + [d];
    CountConcat([a] + [b] + [c], [d], p);
    CountConcat([a] + [b], [c], p);
    CountConcat([a], [b], p);
  }

  /** The four operations of one dispatch: reserve, enter, and then either commit and leave, or
      leave and roll back. */
  ghost predicate IsBlock(block: seq<Op>, i: nat, position: nat) {
    && |block| == 4 && block[0] == Reserved(i) && block[1] == Entered(i)
    && ((block[2] == Left(i) && block[3] == RolledBack(i))
        || ((block[2].CommittedOk? || block[2].CommittedError?) && block[2].at == i
            && block[2].position == position && block[3] == Left(i)))
  }

  lemma TurnAppends(req: Request, i: nat, s: Chat) returns (block: seq<Op>)
    requires i < |Attempts(req)|
    ensures Turn(req, i, s).log == s.log + block
    ensures if Usable(Attempts(req)[i]) then IsBlock(block, i, |s.chain| + 1) else block == []
    ensures Usable(Attempts(req)[i]) && !s.end.Interrupted?
      ==> (block[3] == RolledBack(i) <==> Turn(req, i, s).end == Interrupted)
  {
    block := Turn(req, i, s).log[|s.log|..];
  }

  lemma {:induction false} SettledAfter(req: Request, streaks: map<Key, nat>, n: nat, at: nat)
    requires n <= |Attempts(req)|
    ensures var log := After(req, streaks, n).log;
      && Count(log, Settles(at)) == Count(log, Reserves(at)) <= 1
      && Count(log, Leaves(at)) == Count(log, Enters(at)) == Count(log, Reserves(at))
      && (at >= n ==> Count(log, Reserves(at)) == 0)
  {
    hide Turn, Usable;
    if n > 0 {
      SettledAfter(req, streaks, n - 1, at);
      var s := After(req, streaks, n - 1);
      if !Stops(s) {
        var block := TurnAppends(req, n - 1, s);
        if block == [] {
          assert s.log + block == s.log;
        } else {
          BlockSettles(s.log, block, n - 1, |s.chain| + 1, at);
        }
      }
    }
  }

  lemma BlockSettles(log: seq<Op>, block: seq<Op>, i: nat, position: nat, at: nat)
    requires IsBlock(block, i, position)
    ensures var more, one := log + block, if at == i then 1 else 0;
      && Count(more, Settles(at)) == Count(log, Settles(at)) + one
      && Count(more, Reserves(at)) == Count(log, Reserves(at)) + one
      && Count(more, Enters(at)) == Count(log, Enters(at)) + one
      && Count(more, Leaves(at)) == Count(log, Leaves(at)) + one
  {
    BlockCounts(log, block, Settles(at));
    BlockCounts(log, block, Reserves(at));
    BlockCounts(log, block, Enters(at));
    BlockCounts(log, block, Leaves(at));
  }

  lemma BlockCounts(log: seq<Op>, block: seq<Op>, p: Op -> bool)
    requires |block| == 4
    ensures Count(log + block, p) == Count(log, p)
      + (if p(block[0]) then 1 else 0) + (if p(block[1]) then 1 else 0)
      + (if p(block[2]) then 1 else 0) + (if p(block[3]) then 1 else 0)
  {
    CountConcat(log, block, p);
    assert block == [block[0], block[1], block[2], block[3]];
    CountFour(block[0], block[1], block[2], block[3], p);
  }

  /** Every granted reservation is settled exactly once, by one commit or one rollback, and its
      in-flight slot is taken and given back exactly once, on every way out of the loop,
      cancellation included. */
  lemma EverySettledOnce(req: Request, streaks: map<Key, nat>, at: nat)
    ensures var log := ChatOnce(req, streaks).log;
      && Count(log, Settles(at)) == Count(log, Reserves(at)) <= 1
      && Count(log, Leaves(at)) == Count(log, Enters(at)) == Count(log, Reserves(at))
  {
    SettledAfter(req, streaks, |Attempts(req)|, at);
  }

  // ---------- fallback positions ----------

  /** The fallback positions recorded with the outcomes, in order. */
  function Positions(log: seq<Op>): seq<nat> {
    if log == [] then []
    else
      var op := log[|log| - 1];
      Positions(log[..|log| - 1]) + if op.CommittedOk? || op.CommittedError? then [op.position] else []
  }

  function Upto(n: nat): seq<nat> {
    seq(n, i => i + 1)
  }

  lemma {:induction false} PositionsConcat(a: seq<Op>, b: seq<Op>)
    ensures Positions(a + b) == Positions(a) + Positions(b)
    decreases |b|
  {
    if b == [] {
      assert a + b == a;
    } else {
      assert (a + b)[..|a + b| - 1] == a + b[..|b| - 1];
      PositionsConcat(a, b[..|b| - 1]);
    }
  }

  lemma PositionsOfBlock(block: seq<Op>, i: nat, position: nat)
    requires IsBlock(block, i, position)
    ensures Positions(block) == if block[3] == RolledBack(i) then [] else [position]
  {
    assert block[..3][..2][..1] == [block[0]] && block[..3][..2] == block[..2];
    assert Positions(block[..1]) == [] && Positions(block[..2]) == [];
  }

  /** Number of committed dispatches: all but one that was interrupted. */
  function Committed(s: Chat): nat {
    if s.end == Interrupted && s.chain != [] then |s.chain| - 1 else |s.chain|
  }

  lemma UptoStep(n: nat)
    ensures Upto(n + 1) == Upto(n) + [n + 1] && Upto(n) + [] == Upto(n)
  {
  }

  lemma PositionsStep(req: Request, i: nat, s: Chat)
    requires i < |Attempts(req)| && s.end.Running?
    requires Positions(s.log) == Upto(|s.chain|)
    ensures Positions(Turn(req, i, s).log) == Upto(Committed(Turn(req, i, s)))
  {
    hide Turn, Positions, Upto, FateOf, Attempts, Usable;
    var block := TurnAppends(req, i, s);
    TurnNames(req, i, s);
    TurnByFate(req, i, s);
    UptoStep(|s.chain|);
    if Usable(Attempts(req)[i]) {
      PositionsConcat(s.log, block);
      PositionsOfBlock(block, i, |s.chain| + 1);
    } else {
      assert s.log + block == s.log;
      SkippedTurn(req, i, s);
    }
  }

  lemma SkippedTurn(req: Request, i: nat, s: Chat)
    requires i < |Attempts(req)| && !Usable(Attempts(req)[i])
    ensures Turn(req, i, s).end == s.end && Turn(req, i, s).chain == s.chain
  {
  }

  /** The recorded fallback positions are 1, 2, ..., n: one per committed dispatch. */
  lemma {:induction false} PositionsAreConsecutive(req: Request, streaks: map<Key, nat>, n: nat)
    requires n <= |Attempts(req)|
    ensures Positions(After(req, streaks, n).log) == Upto(Committed(After(req, streaks, n)))
  {
    hide Turn, Committed;
    if n > 0 {
      PositionsAreConsecutive(req, streaks, n - 1);
      var s := After(req, streaks, n - 1);
      if !Stops(s) {
        RunningIsUncommitted(s);
        PositionsStep(req, n - 1, s);
      }
    } else {
      NothingCommitted(streaks);
    }
  }

  lemma RunningIsUncommitted(s: Chat)
    requires s.end.Running?
    ensures Committed(s) == |s.chain|
  {
  }

  lemma NothingCommitted(streaks: map<Key, nat>)
    ensures Positions(Fresh(streaks).log) == Upto(Committed(Fresh(streaks)))
  {
  }

  // ---------- cost ----------

  function TotalBudget(cs: seq<Candidate>, n: nat): nat
    requires n <= |cs|
  {
    if n == 0 then 0 else TotalBudget(cs, n - 1) + CallBudget(cs[n - 1])
  }

  lemma {:induction false} CallsAfter(req: Request, streaks: map<Key, nat>, n: nat)
    requires n <= |Attempts(req)|
    ensures After(req, streaks, n).calls <= TotalBudget(Attempts(req), n)
  {
    if n > 0 {
      CallsAfter(req, streaks, n - 1);
      var c := Attempts(req)[n - 1];
      if Usable(c) { ModelsWithinBudget(c); }
    }
  }

  /** An answer clears the provider's count of consecutive rate limits. */
  lemma {:induction false} AnswerForgetsRateLimits(req: Request, streaks: map<Key, nat>, n: nat)
    requires n <= |Attempts(req)|
    ensures var s := After(req, streaks, n);
      s.end.Served? ==> s.end.at < n && Key(req.user, Attempts(req)[s.end.at].name) !in s.streaks
  {
    hide ModelsFrom, Quarantine;
    if n > 0 {
      AnswerForgetsRateLimits(req, streaks, n - 1);
    }
  }

  // ---------- model cool-downs ----------

  /** What a run asks the memory for: everything its dispatches ask for. */
  lemma {:induction false} DispatchIsAsked(req: Request, streaks: map<Key, nat>, n: nat, k: nat, ask: Ask)
    requires k < n <= |Attempts(req)| && Quiet(Attempts(req), k) && Usable(Attempts(req)[k])
    requires var c := Attempts(req)[k]; ask in Asks(req.user, c.name, ModelsFrom(c, 0, 0, []).cooled)
    ensures ask in After(req, streaks, n).asked
    decreases n
  {
    hide Turn, Asks, ModelsFrom, Quiet, Usable;
    RunningAfter(req, streaks, n - 1);
    if k == n - 1 {
      DispatchingTurn(req, k, After(req, streaks, k));
    } else {
      DispatchIsAsked(req, streaks, n - 1, k, ask);
      TurnAsksMore(req, n - 1, After(req, streaks, n - 1));
    }
  }

  lemma TurnAsksMore(req: Request, i: nat, s: Chat)
    requires i < |Attempts(req)|
    ensures s.asked <= Turn(req, i, s).asked
  {
  }

  /** Model `j` of candidate `k` was tried in the run and answered "unavailable". */
  predicate FoundUnavailable(cs: seq<Candidate>, k: nat, j: nat) {
    && k < |cs| && Quiet(cs, k) && Usable(cs[k])
    && j < ModelsFrom(cs[k], 0, 0, []).upto <= |cs[k].models| && cs[k].models[j].Some?
    && ModelResult(cs[k], j).0.Lost? && ModelResult(cs[k], j).0.error.kind == ModelUnavailable
  }

  function UnavailableAsk(user: int, provider: string, model: string): Ask {
    Ask(Slot(user, provider, model), UNAVAILABLE_COOLDOWN_S, Unavailable)
  }

  lemma UnavailableIsAsked(req: Request, streaks: map<Key, nat>, k: nat, j: nat)
    requires FoundUnavailable(Attempts(req), k, j)
    ensures var c := Attempts(req)[k];
      UnavailableAsk(req.user, c.name, c.models[j].value) in ChatOnce(req, streaks).asked
  {
    hide Turn, After;
    var c := Attempts(req)[k];
    UnavailableModelsAreCooled(c, 0, 0, [], j);
    var cooled := ModelsFrom(c, 0, 0, []).cooled;
    var i :| 0 <= i < |cooled| && cooled[i] == CoolRequest(c.models[j].value, UNAVAILABLE_COOLDOWN_S, Unavailable);
    assert Asks(req.user, c.name, cooled)[i] == UnavailableAsk(req.user, c.name, c.models[j].value);
    DispatchIsAsked(req, streaks, |Attempts(req)|, k, UnavailableAsk(req.user, c.name, c.models[j].value));
  }

  /** A model that answered "unavailable" in a run is not chosen again for that user within six hours
      of the run's start, while another model of the chain is usable. The hypothesis on the memory is
      what `Orchestrator.Chat` ensures. */
  lemma AnsweredUnavailableIsAvoided(
    req: Request, streaks: map<Key, nat>, k: nat, j: nat, ever0: seq<Cooling>, lost0: nat, since: real,
    ever1: seq<Cooling>, lost1: nat, chain: seq<string>, other: string, now: real)
    requires FoundUnavailable(Attempts(req), k, j)
    requires Grown(ever0, lost0, since, ChatOnce(req, streaks).asked, ever1, lost1) && lost1 <= |ever0|
    requires now < since + UNAVAILABLE_COOLDOWN_S
    requires other in chain
    requires ReasonAt(ever1[lost1..], Slot(req.user, Attempts(req)[k].name, other), now).None?
    ensures Attempts(req)[k].models[j] !in
      UsableModels(ever1[lost1..], req.user, Attempts(req)[k].name, chain, None, now)
  {
    hide ChatOnce, Grown, ReasonAt, UsableModels;
    var c := Attempts(req)[k];
    UnavailableIsAsked(req, streaks, k, j);
    AskedIsAvoided(ever0, lost0, since, ChatOnce(req, streaks).asked, ever1, lost1,
                   UnavailableAsk(req.user, c.name, c.models[j].value), chain, other, now);
  }

  /** A run, and then the models for the next request: within six hours, and unless the memory was
      cleared meanwhile, a model the run found unavailable is chosen again only as the lone probe of a
      chain whose models are all cooling as unavailable. */
  method ChatThenModels(orch: Orchestrator, req: Request, chain: seq<string>, k: nat, ghost j: nat)
    returns (s: Chat, models: seq<Option<string>>)
    requires Lean(orch.inFlight) && Ready(orch.memory, orch.clock)
    requires chain != [] && FoundUnavailable(Attempts(req), k, j)
    modifies orch, orch.memory, orch.clock
    ensures s == ChatOnce(req, old(orch.streaks)) && Ready(orch.memory, orch.clock)
    ensures var model := Attempts(req)[k].models[j];
      orch.memory.lost <= |old(orch.memory.ever)|
      && orch.clock.now < old(orch.clock.now) + UNAVAILABLE_COOLDOWN_S && model in models
      ==> models == [model]
          && forall m | m in chain ::
               var slot := Slot(req.user, Attempts(req)[k].name, m);
               ReasonAt(orch.memory.calls, slot, orch.clock.now) == Some(Unavailable)
  {
    hide ChatOnce, ModelsFrom, Quiet;
    ghost var ever0, lost0, since := orch.memory.ever, orch.memory.lost, orch.clock.now;
    s := orch.Chat(req);
    ghost var ever1, lost1 := orch.memory.ever, orch.memory.lost;
    var c := Attempts(req)[k];
    var now := orch.clock.Read();
    models := orch.memory.ModelsFor(req.user, c.name, chain, None, now);
    UnavailableIsAsked(req, old(orch.streaks), k, j);
    if lost1 <= |ever0| && now < since + UNAVAILABLE_COOLDOWN_S && c.models[j] in models {
      var cooling := AskedIsRemembered(ever0, lost0, since, s.asked, ever1, lost1,
                                       UnavailableAsk(req.user, c.name, c.models[j].value));
      CoolingIsOnlyProbed(orch.memory.calls, req.user, c.name, chain, cooling, now);
    }
  }

  /** An answer that reports an empty quota of the account rests its provider: for the time reported no
      request of the user is sent there, whatever model it asks for. */
  lemma EmptyQuotaRestsProvider(
    req: Request, streaks: map<Key, nat>, k: nat, r: Response, wait: real, ever0: seq<Cooling>, lost0: nat,
    since: real, ever1: seq<Cooling>, lost1: nat, chain: seq<string>, explicit: Option<string>, now: real)
    requires ChatOnce(req, streaks).end == Served(k, r) && ReportsEmptyFor(r.rateLimit, wait)
    requires k < |Attempts(req)| && !Attempts(req)[k].perModelQuota
    requires Grown(ever0, lost0, since, ChatOnce(req, streaks).asked, ever1, lost1) && lost1 <= |ever0|
    requires now < since + wait
    ensures UsableModels(ever1[lost1..], req.user, Attempts(req)[k].name, chain, explicit, now) == []
  {
    hide ChatOnce, Grown, ReasonAt, ModelsFrom, Quiet, ReportsEmptyFor;
    var c := Attempts(req)[k];
    FirstUsableAnswerWins(req, streaks);
    var ask := Ask(Slot(req.user, c.name, "*"), wait, HeadersEmpty);
    AnswerHeadersAreAsked(c, req.user, r, wait);
    hide FateOf;
    AskedInRun(req, streaks, k, ask);
    var cooling := AskedIsRemembered(ever0, lost0, since, ChatOnce(req, streaks).asked, ever1, lost1, ask);
    CoolingIffCovered(ever1[lost1..], cooling.slot, now);
    NamedModelIsUsed(ever1[lost1..], req.user, c.name, chain, explicit, now);
  }

  lemma AnswerHeadersAreAsked(c: Candidate, user: int, r: Response, wait: real)
    requires FateOf(c) == Answers(r) && ReportsEmptyFor(r.rateLimit, wait) && !c.perModelQuota
    ensures Usable(c)
    ensures Ask(Slot(user, c.name, "*"), wait, HeadersEmpty) in Asks(user, c.name, ModelsFrom(c, 0, 0, []).cooled)
  {
    hide NoteRateLimit, ReportsEmptyFor;
    EachModelIsRemembered(c, 0, 0, []);
    ModelsInOrder(c, 0, 0, []);
    var t := ModelsFrom(c, 0, 0, []);
    var m := t.upto - 1;
    HeadersMean(false, c.models[m], r.model, r.rateLimit);
    assert OwnCools(c, m) == [CoolRequest("*", wait, HeadersEmpty)];
    LastCools(c, 0, t.upto);
    var i := |t.cooled| - 1;
    assert t.cooled[i] == CoolRequest("*", wait, HeadersEmpty);
    assert Asks(user, c.name, t.cooled)[i] == Ask(Slot(user, c.name, "*"), wait, HeadersEmpty);
  }

  lemma FirstOfCools(c: Candidate, i: nat, n: nat)
    requires i < n <= |c.models|
    ensures AllCools(c, i, n) == OwnCools(c, i) + (if i + 1 < n then AllCools(c, i + 1, n) else [])
  {
    hide OwnCools;
  }

  lemma {:induction false} LastCools(c: Candidate, i: nat, n: nat)
    requires i < n <= |c.models| && OwnCools(c, n - 1) != []
    ensures var all, own := AllCools(c, i, n), OwnCools(c, n - 1);
      all != [] && all[|all| - 1] == own[|own| - 1]
    decreases n - i
  {
    hide OwnCools, AllCools;
    FirstOfCools(c, i, n);
    if i + 1 < n {
      LastCools(c, i + 1, n);
    } else {
      assert OwnCools(c, i) + [] == OwnCools(c, i);
    }
  }

  lemma AskedInRun(req: Request, streaks: map<Key, nat>, k: nat, ask: Ask)
    requires k < |Attempts(req)| && Quiet(Attempts(req), k) && Usable(Attempts(req)[k])
    requires var c := Attempts(req)[k]; ask in Asks(req.user, c.name, ModelsFrom(c, 0, 0, []).cooled)
    ensures ask in ChatOnce(req, streaks).asked
  {
    hide After, Asks, ModelsFrom, Quiet, Usable;
    DispatchIsAsked(req, streaks, |Attempts(req)|, k, ask);
  }

  // ---------- chat: one more try as freeai-auto ----------

  /** A request that named a real (not a virtual) model is tried once more as freeai-auto, when the
      first run failed because the model is unavailable. */
  predicate RetriesAsAuto(namedRealModel: bool, first: Chat) {
    namedRealModel && first.end == Refused(ModelUnavailable)
  }

  method ChatWithRetry(orch: Orchestrator, req: Request, namedRealModel: bool, asAuto: Request)
    returns (first: Chat, last: Chat, calls: nat)
    requires Lean(orch.inFlight) && Ready(orch.memory, orch.clock)
    modifies orch, orch.memory, orch.clock
    ensures first == ChatOnce(req, old(orch.streaks))
    ensures last == if RetriesAsAuto(namedRealModel, first) then ChatOnce(asAuto, first.streaks) else first
    ensures orch.inFlight == old(orch.inFlight) && orch.streaks == last.streaks && Ready(orch.memory, orch.clock)
    ensures calls <= TotalBudget(Attempts(req), |Attempts(req)|) + TotalBudget(Attempts(asAuto), |Attempts(asAuto)|)
  {
    hide Grown, Ready;
    first := orch.Chat(req);
    last, calls := first, first.calls;
    CallsAfter(req, old(orch.streaks), |Attempts(req)|);
    if RetriesAsAuto(namedRealModel, first) {
      last := orch.Chat(asAuto);
      calls := calls + last.calls;
      CallsAfter(asAuto, first.streaks, |Attempts(asAuto)|);
    }
  }
}
