/** The two per-(user, provider) maps of the orchestrator: in-flight dispatches and consecutive
    rate-limit answers. */
module InFlight {
  import opened Common
  import opened Providers

  const MAX_KEYS := 10000

  // ---------- in-flight counters ----------

  function Inc(m: map<Key, int>, key: Key): map<Key, int> {
    if key !in m && |m| >= MAX_KEYS then m
    else m[key := (if key in m then m[key] else 0) + 1]
  }

  function Dec(m: map<Key, int>, key: Key): map<Key, int> {
    var n := (if key in m then m[key] else 1) - 1;
    if n <= 0 then m - {key} else m[key := n]
  }

  /** Stored counts are at least one. */
  predicate Lean(m: map<Key, int>) {
    forall k | k in m :: m[k] >= 1
  }

  /** A dispatch that starts and ends with nothing in between leaves the map as it was, also when
      the map is full and the start was not counted. */
  lemma DecUndoesInc(m: map<Key, int>, key: Key)
    requires Lean(m)
    ensures Dec(Inc(m, key), key) == m && Lean(Inc(m, key))
  {
    if key !in m && |m| < MAX_KEYS {
      assert m[key := 1] - {key} == m;
    }
  }

  /** The start or the end of one dispatch. */
  datatype FlightOp = Starts(key: Key) | Ends(key: Key)

  /** Dispatches of `key` that have started and not ended. */
  function Open(ops: seq<FlightOp>, key: Key): int {
    if ops == [] then 0
    else
      Open(ops[..|ops| - 1], key)
        + match ops[|ops| - 1]
          case Starts(k) => (if k == key then 1 else 0)
          case Ends(k) => (if k == key then -1 else 0)
  }

  /** No dispatch ends before it has started. */
  ghost predicate Balanced(ops: seq<FlightOp>) {
    ops == [] ||
    (&& Balanced(ops[..|ops| - 1])
     && (ops[|ops| - 1].Ends? ==> Open(ops[..|ops| - 1], ops[|ops| - 1].key) > 0))
  }

  function Counters(ops: seq<FlightOp>): map<Key, int> {
    if ops == [] then map[]
    else
      match ops[|ops| - 1]
      case Starts(k) => Inc(Counters(ops[..|ops| - 1]), k)
      case Ends(k) => Dec(Counters(ops[..|ops| - 1]), k)
  }

  /** In every interleaving of dispatches, stored counts are at least one and never exceed the true
      number of open dispatches, also after starts that were not counted because the map was full. */
  lemma {:induction false} CountersNeverExceedOpen(ops: seq<FlightOp>)
    requires Balanced(ops)
    ensures Lean(Counters(ops))
    ensures forall k | k in Counters(ops) :: Counters(ops)[k] <= Open(ops, k)
    ensures forall k :: Open(ops, k) >= 0
    decreases |ops|
  {
    if ops != [] {
      CountersNeverExceedOpen(ops[..|ops| - 1]);
    }
  }

  /** Once every dispatch has ended, the map is empty. */
  lemma EmptyWhenAllEnded(ops: seq<FlightOp>)
    requires Balanced(ops) && forall k :: Open(ops, k) == 0
    ensures Counters(ops) == map[]
  {
    CountersNeverExceedOpen(ops);
  }

  lemma OneMoreKey<V>(m: map<Key, V>, k: Key, v: V)
    ensures |m[k := v]| == |m| + if k in m then 0 else 1
  {
    assert m[k := v].Keys == m.Keys + {k};
    assert |m[k := v].Keys| == |m.Keys| + if k in m then 0 else 1;
  }

  lemma OneKeyLess<V>(m: map<Key, V>, k: Key)
    ensures |m - {k}| <= |m|
  {
    if k in m {
      assert m.Keys == (m - {k}).Keys + {k};
      assert |m.Keys| == |(m - {k}).Keys| + 1;
    } else {
      assert m - {k} == m;
    }
  }

  /** The map never holds more than ten thousand keys. */
  lemma {:induction false} CountersAreBounded(ops: seq<FlightOp>)
    ensures |Counters(ops)| <= 10000
    decreases |ops|
  {
    if ops != [] {
      var before, k := Counters(ops[..|ops| - 1]), ops[|ops| - 1].key;
      CountersAreBounded(ops[..|ops| - 1]);
      OneMoreKey(before, k, (if k in before then before[k] else 0) + 1);
      OneMoreKey(before, k, (if k in before then before[k] else 1) - 1);
      OneKeyLess(before, k);
    }
  }

  /** While it is never full, every dispatch is counted: the stored counts are the open dispatches. */
  lemma {:induction false} CountersAreExact(ops: seq<FlightOp>)
    requires Balanced(ops) && forall n | 0 <= n < |ops| :: |Counters(ops[..n])| < 10000
    ensures forall k :: (if k in Counters(ops) then Counters(ops)[k] else 0) == Open(ops, k)
    decreases |ops|
  {
    if ops != [] {
      var init := ops[..|ops| - 1];
      assert forall n | 0 <= n < |init| :: init[..n] == ops[..n];
      CountersAreExact(init);
      CountersNeverExceedOpen(init);
    }
  }

  // ---------- rate-limit escalation ----------

  const RL_ESCALATION_BASE_S := 60.0
  const RL_ESCALATION_MAX_S := 3600.0

  /** The streak map after one more RATE_LIMITED answer. */
  function BumpStreak(m: map<Key, nat>, key: Key): map<Key, nat> {
    var kept: map<Key, nat> := if key !in m && |m| >= MAX_KEYS then map[] else m;
    kept[key := (if key in kept then kept[key] else 0) + 1]
  }

  function EscalationFloor(streak: nat): real
    requires streak >= 1
  {
    MinReal(RL_ESCALATION_MAX_S, RL_ESCALATION_BASE_S * Pow2(streak - 1) as real)
  }

  /** The quarantine of one failure, and the streak map it leaves behind. */
  function Quarantine(m: map<Key, nat>, key: Key, e: ProviderError, allModelsUnavailable: bool)
    : (Option<real>, map<Key, nat>)
  {
    var seconds := QuarantineSecondsFor(e, allModelsUnavailable);
    if e.kind != RateLimited then (seconds, m)
    else
      var m' := BumpStreak(m, key);
      var streak := m'[key];
      if streak >= 2 && (!Truthy(seconds) || seconds.value < EscalationFloor(streak))
      then (Some(EscalationFloor(streak)), m')
      else (seconds, m')
  }

  /** What happens to the streak map over time, for all keys: a failure, or an answer that clears its
      key. */
  datatype StreakOp = Erred(key: Key, error: ProviderError, allModelsUnavailable: bool) | Cleared(key: Key)

  function Streaks(ops: seq<StreakOp>): map<Key, nat> {
    if ops == [] then map[]
    else
      var before := Streaks(ops[..|ops| - 1]);
      match ops[|ops| - 1]
      case Erred(k, e, all) => Quarantine(before, k, e, all).1
      case Cleared(k) => before - {k}
  }

  /** A new key finds the map full, and the map is cleared. */
  predicate Clears(m: map<Key, nat>, key: Key) {
    key !in m && |m| >= MAX_KEYS
  }

  /** How many RATE_LIMITED answers of `key` in a row: since its last answer and the last clearing. */
  function InARow(ops: seq<StreakOp>, key: Key): nat {
    if ops == [] then 0
    else
      var init := ops[..|ops| - 1];
      var n := InARow(init, key);
      match ops[|ops| - 1]
      case Cleared(k) => if k == key then 0 else n
      case Erred(k, e, _) =>
        if e.kind != RateLimited then n
        else (if Clears(Streaks(init), k) then 0 else n) + if k == key then 1 else 0
  }

  lemma {:induction false} StreaksCountInARow(ops: seq<StreakOp>, key: Key)
    ensures (if key in Streaks(ops) then Streaks(ops)[key] else 0) == InARow(ops, key)
    ensures key in Streaks(ops) ==> Streaks(ops)[key] >= 1
    decreases |ops|
  {
    if ops != [] {
      var init := ops[..|ops| - 1];
      StreaksCountInARow(init, key);
    }
  }

  /** The least wait after the n-th 429 in a row: a minute doubled each time, at most an hour. */
  function LeastWait(n: nat): real
    requires n >= 1
  {
    if n == 1 then 60.0 else MinReal(3600.0, 2.0 * LeastWait(n - 1))
  }

  lemma {:induction false} FloorIsLeastWait(n: nat)
    requires n >= 1
    ensures EscalationFloor(n) == LeastWait(n)
  {
    assert Pow2(0) == 1;
    if n > 1 {
      FloorIsLeastWait(n - 1);
      assert Pow2(n - 1) == 2 * Pow2(n - 2);
    }
  }

  /** Whatever other keys do in between, the n-th RATE_LIMITED in a row is quarantined for the wait the
      provider asked for, or a minute; but from the second one on for no less than the least wait. */
  lemma RepeatedLimitsEscalate(ops: seq<StreakOp>, key: Key, e: ProviderError, all: bool)
    requires e.kind == RateLimited
    ensures var n := InARow(ops + [Erred(key, e, all)], key);
      var (seconds, after) := Quarantine(Streaks(ops), key, e, all);
      var asked := if e.retryAfter.Some? && e.retryAfter.value != 0.0 then e.retryAfter.value else 60.0;
      && n >= 1 && key in after && after[key] == n
      && seconds == Some(if n == 1 then asked else MaxReal(asked, LeastWait(n)))
  {
    hide EscalationFloor, LeastWait;
    assert (ops + [Erred(key, e, all)])[..|ops|] == ops;
    StreaksCountInARow(ops, key);
    FloorIsLeastWait(InARow(ops + [Erred(key, e, all)], key));
  }

  /** The map of streaks never holds more than ten thousand keys, and forgets nothing before it does. */
  lemma {:induction false} StreaksAreBounded(ops: seq<StreakOp>)
    ensures |Streaks(ops)| <= 10000
    ensures forall m: map<Key, nat>, k :: Clears(m, k) ==> |m| >= 10000
    decreases |ops|
  {
    hide Quarantine;
    if ops != [] {
      var before, op := Streaks(ops[..|ops| - 1]), ops[|ops| - 1];
      StreaksAreBounded(ops[..|ops| - 1]);
      match op
      case Erred(k, e, all) => QuarantineIsBounded(before, k, e, all);
      case Cleared(k) => OneKeyLess(before, k);
    }
  }

  lemma QuarantineIsBounded(m: map<Key, nat>, key: Key, e: ProviderError, all: bool)
    requires |m| <= 10000
    ensures |Quarantine(m, key, e, all).1| <= 10000
  {
    hide QuarantineSecondsFor, EscalationFloor;
    var kept: map<Key, nat> := if Clears(m, key) then map[] else m;
    OneMoreKey(kept, key, (if key in kept then kept[key] else 0) + 1);
  }
}
