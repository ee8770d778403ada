/** The in-memory rate counters: per-key deques of call times, pruned lazily. */
module RateCounters {
  import opened Common
  import opened Windows

  /** How many of the times are at or after `lo`. */
  function CountSince(times: seq<real>, lo: real): nat {
    if times == [] then 0
    else CountSince(times[..|times| - 1], lo) + if times[|times| - 1] >= lo then 1 else 0
  }

  ghost predicate Sorted(times: seq<real>) {
    forall i, j | 0 <= i <= j < |times| :: times[i] <= times[j]
  }

  lemma {:induction false} CountConcat(a: seq<real>, b: seq<real>, lo: real)
    ensures CountSince(a + b, lo) == CountSince(a, lo) + CountSince(b, lo)
    decreases |b|
  {
    if b == [] {
      assert a + b == a;
    } else {
      var cut := |b| - 1;
      assert (a + b)[..|a + b| - 1] == a + b[..cut];
      CountConcat(a, b[..cut], lo);
    }
  }

  lemma {:induction false} CountNone(times: seq<real>, lo: real)
    requires forall i | 0 <= i < |times| :: times[i] < lo
    ensures CountSince(times, lo) == 0
    decreases |times|
  {
    if times != [] { CountNone(times[..|times| - 1], lo); }
  }

  lemma {:induction false} CountAll(times: seq<real>, lo: real)
    requires forall i | 0 <= i < |times| :: times[i] >= lo
    ensures CountSince(times, lo) == |times|
    decreases |times|
  {
    if times != [] { CountAll(times[..|times| - 1], lo); }
  }

  /** What is left of a history after old entries were popped from the front still answers every
      later window. */
  lemma PrunedAnswers(history: seq<real>, kept: seq<real>, horizon: real, lo: real)
    requires |kept| <= |history| && kept == history[|history| - |kept|..]
    requires forall i | 0 <= i < |history| - |kept| :: history[i] < horizon
    requires horizon <= lo
    ensures CountSince(kept, lo) == CountSince(history, lo)
  {
    var dropped := history[..|history| - |kept|];
    assert history == dropped + kept;
    CountConcat(dropped, kept, lo);
    CountNone(dropped, lo);
  }

  /** A deque is what pruning may have left of the full, time-ordered history. */
  ghost predicate PrunedFrom(history: seq<real>, kept: seq<real>, clock: real) {
    && Sorted(history)
    && (forall i | 0 <= i < |history| :: history[i] <= clock)
    && |kept| <= |history|
    && kept == history[|history| - |kept|..]
    && (forall i | 0 <= i < |history| - |kept| :: history[i] < clock - DAY)
  }

  lemma PrunedLater(history: seq<real>, kept: seq<real>, clock: real, now: real)
    requires PrunedFrom(history, kept, clock) && now >= clock
    ensures PrunedFrom(history, kept, now)
  {
  }

  lemma PrunedAppend(history: seq<real>, kept: seq<real>, now: real)
    requires PrunedFrom(history, kept, now)
    ensures PrunedFrom(history + [now], kept + [now], now)
  {
  }

  class RateCounterStore {
    var deques: map<Key, seq<real>>
    ghost var history: map<Key, seq<real>> // every call ever recorded
    ghost var clock: real                  // the latest time read so far

    ghost predicate Valid()
      reads this
    {
      && deques.Keys == history.Keys
      && forall k | k in deques :: PrunedFrom(history[k], deques[k], clock)
    }

    ghost function Recorded(key: Key): seq<real>
      reads this
    {
      if key in history then history[key] else []
    }

    constructor ()
      ensures Valid() && history == map[]
    {
      deques, history, clock := map[], map[], 0.0;
    }

    method Record(key: Key, now: real)
      requires Valid() && now >= clock
      modifies this
      ensures Valid() && clock == now
      ensures history == old(history)[key := old(Recorded(key)) + [now]]
    {
      forall k | k in deques ensures PrunedFrom(history[k], deques[k], now) {
        PrunedLater(history[k], deques[k], clock, now);
      }
      clock := now;
      var dq := if key in deques then deques[key] else [];
      PrunedAppend(Recorded(key), dq, now);
      deques := deques[key := dq + [now]];
      history := history[key := Recorded(key) + [now]];
    }

    /** Pops entries older than a day and hands back the deque (an empty one for an unknown key). */
    method Prune(key: Key, now: real) returns (dq: seq<real>)
      requires Valid() && now >= clock
      modifies this
      ensures Valid() && clock == now && history == old(history)
      ensures dq == if key in deques then deques[key] else []
      ensures forall i | 0 <= i < |dq| :: dq[i] >= now - DAY
    {
      forall k | k in deques ensures PrunedFrom(history[k], deques[k], now) {
        PrunedLater(history[k], deques[k], clock, now);
      }
      clock := now;
      if key !in deques {
        return [];
      }
      dq := PopOld(deques[key], history[key], now);
      deques := deques[key := dq];
    }

    method Rpm(key: Key, now: real) returns (n: nat)
      requires Valid() && now >= clock
      modifies this
      ensures Valid() && clock == now && history == old(history)
      ensures n == CountSince(Recorded(key), now - MINUTE)
    {
      var dq := Prune(key, now);
      n := CountFrom(dq, now - MINUTE);
      if key in history {
        PrunedAnswers(history[key], dq, now - DAY, now - MINUTE);
      }
    }

    method Rpd(key: Key, now: real) returns (n: nat)
      requires Valid() && now >= clock
      modifies this
      ensures Valid() && clock == now && history == old(history)
      ensures n == CountSince(Recorded(key), now - DAY)
    {
      var dq := Prune(key, now);
      n := |dq|;
      CountAll(dq, now - DAY);
      if key in history {
        PrunedAnswers(history[key], dq, now - DAY, now - DAY);
      }
    }

    /** Both counts in one pass: exactly what counting the full, unpruned history would give. */
    method Counts(key: Key, now: real) returns (rpm: nat, rpd: nat)
      requires Valid() && now >= clock
      modifies this
      ensures Valid() && clock == now && history == old(history)
      ensures rpm == CountSince(Recorded(key), now - MINUTE)
      ensures rpd == CountSince(Recorded(key), now - DAY)
    {
      var dq := Prune(key, now);
      rpm := CountFrom(dq, now - MINUTE);
      rpd := |dq|;
      CountAll(dq, now - DAY);
      if key in history {
        PrunedAnswers(history[key], dq, now - DAY, now - MINUTE);
        PrunedAnswers(history[key], dq, now - DAY, now - DAY);
      }
    }
  }

  /** The pruning loop. */
  method PopOld(full: seq<real>, ghost history: seq<real>, now: real) returns (dq: seq<real>)
    requires PrunedFrom(history, full, now)
    ensures PrunedFrom(history, dq, now)
    ensures forall i | 0 <= i < |dq| :: dq[i] >= now - DAY
  {
    dq := full;
    var cutoff := now - DAY;
    while |dq| > 0 && dq[0] < cutoff
      invariant PrunedFrom(history, dq, now)
      decreases |dq|
    {
      dq := dq[1..];
    }
  }

  /** `sum(1 for t in dq if t >= cutoff)`. */
  method CountFrom(times: seq<real>, lo: real) returns (n: nat)
    ensures n == CountSince(times, lo)
  {
    n := 0;
    for i := 0 to |times|
      invariant n == CountSince(times[..i], lo)
    {
      assert times[..i + 1][..i] == times[..i];
      if times[i] >= lo { n := n + 1; }
    }
    assert times[..|times|] == times;
  }

  /** A granted reservation of one key and when the dispatcher recorded it, which is no earlier than the
      transaction start its row is stamped with. */
  datatype Grant = Grant(row: Event, recordedAt: real)

  function RecordTimes(grants: seq<Grant>): (times: seq<real>)
    ensures |times| == |grants|
    ensures forall i | 0 <= i < |grants| :: times[i] == grants[i].recordedAt
  {
    seq(|grants|, i requires 0 <= i < |grants| => grants[i].recordedAt)
  }

  function RowsOf(grants: seq<Grant>): set<Event> {
    set g | g in grants :: g.row
  }

  /** The grants of a key account for what was recorded and for the given rows of the key. */
  ghost predicate Accounts(grants: seq<Grant>, recorded: seq<real>, rows: set<Event>, key: Key) {
    && (forall g | g in grants :: g.row.key == key && g.row.at <= g.recordedAt)
    && recorded == RecordTimes(grants)
    && forall e | e in rows && e.key == key :: e in RowsOf(grants)
  }

  lemma {:induction false} RecordsCoverRows(grants: seq<Grant>, rows: set<Event>, key: Key, lo: real)
    requires Accounts(grants, RecordTimes(grants), rows, key)
    ensures |Since(rows, key, lo)| <= CountSince(RecordTimes(grants), lo)
    decreases |grants|
  {
    var n := |grants|;
    if n == 0 {
      assert Since(rows, key, lo) == {};
    } else {
      var row := grants[n - 1].row;
      var others := rows - {row};
      assert grants == grants[..n - 1] + [grants[n - 1]];
      RecordsCoverRows(grants[..n - 1], others, key, lo);
      assert RecordTimes(grants)[..n - 1] == RecordTimes(grants[..n - 1]);
      if row.at >= lo {
        SubsetCard(Since(rows, key, lo), Since(others, key, lo) + {row});
      } else {
        assert Since(rows, key, lo) == Since(others, key, lo);
      }
    }
  }

  // ---------- the store beside the table, over runs ----------

  /** With chat and stream traffic only: a reservation is granted and recorded; rows are deleted by a
      rollback, an abort or a purge; the process restarts, with an empty store and the same table. */
  datatype Step = Granted(grant: Grant) | Deleted(doomed: set<Event>) | Restarted

  /** `before` are the rows that were there at the last start. */
  datatype Traffic = Traffic(rows: set<Event>, before: set<Event>, recorded: map<Key, seq<real>>)

  function RecordedIn(t: Traffic, key: Key): seq<real> {
    if key in t.recorded then t.recorded[key] else []
  }

  function Next(t: Traffic, step: Step): Traffic {
    match step
    case Granted(g) =>
      t.(rows := t.rows + {g.row},
         recorded := t.recorded[g.row.key := RecordedIn(t, g.row.key) + [g.recordedAt]])
    case Deleted(doomed) => t.(rows := t.rows - doomed)
    case Restarted => Traffic(t.rows, t.rows, map[])
  }

  function After(start: set<Event>, steps: seq<Step>): Traffic {
    if steps == [] then Traffic(start, start, map[])
    else Next(After(start, steps[..|steps| - 1]), steps[|steps| - 1])
  }

  /** A row is stamped with the start of its transaction, so not after it is recorded. */
  ghost predicate Stamped(steps: seq<Step>) {
    forall i | 0 <= i < |steps| && steps[i].Granted? :: steps[i].grant.row.at <= steps[i].grant.recordedAt
  }

  lemma OneMoreStep(start: set<Event>, steps: seq<Step>, step: Step)
    requires Stamped(steps) && (step.Granted? ==> step.grant.row.at <= step.grant.recordedAt)
    ensures After(start, steps + [step]) == Next(After(start, steps), step) && Stamped(steps + [step])
  {
    assert (steps + [step])[..|steps|] == steps;
  }

  /** The grants of a key since the last start. */
  function GrantsOf(steps: seq<Step>, key: Key): seq<Grant> {
    if steps == [] then []
    else
      var grants := GrantsOf(steps[..|steps| - 1], key);
      match steps[|steps| - 1]
      case Granted(g) => if g.row.key == key then grants + [g] else grants
      case Deleted(_) => grants
      case Restarted => []
  }

  /** In every run the grants since the last start account for the store's records and for all rows that
      are not older than that start. */
  lemma {:induction false} GrantsAccount(start: set<Event>, steps: seq<Step>, key: Key)
    requires Stamped(steps)
    ensures var t := After(start, steps);
      Accounts(GrantsOf(steps, key), RecordedIn(t, key), t.rows - t.before, key)
    decreases |steps|
  {
    if steps != [] {
      GrantsAccount(start, steps[..|steps| - 1], key);
    }
  }

  /** So in every run the store's count falls short of the table's by no more than the surviving rows
      from before the last start. */
  lemma ShortfallIsOldRows(start: set<Event>, steps: seq<Step>, key: Key, lo: real)
    requires Stamped(steps)
    ensures var t := After(start, steps);
      |Since(t.rows, key, lo)| <= CountSince(RecordedIn(t, key), lo) + |Since(t.rows * t.before, key, lo)|
  {
    var t := After(start, steps);
    GrantsAccount(start, steps, key);
    RecordsCoverRows(GrantsOf(steps, key), t.rows - t.before, key, lo);
    var young, aged := Since(t.rows - t.before, key, lo), Since(t.rows * t.before, key, lo);
    assert Since(t.rows, key, lo) == young + aged && young !! aged;
  }

  /** No restart in the run. */
  ghost predicate Uninterrupted(steps: seq<Step>) {
    forall i | 0 <= i < |steps| :: !steps[i].Restarted?
  }

  lemma {:induction false} OldRowsAreStartRows(start: set<Event>, steps: seq<Step>)
    requires Uninterrupted(steps)
    ensures After(start, steps).before == start
    decreases |steps|
  {
    if steps != [] {
      OldRowsAreStartRows(start, steps[..|steps| - 1]);
    }
  }

  /** The store never reports fewer calls than the table holds, in any run from a start on, if and only if
      the table had no row of the key in the window at the start. A restart with rows in the window
      (the table keeps them for two days) is the input on which it does. */
  lemma NeverUnderreportsIff(start: set<Event>, key: Key, lo: real)
    ensures (forall steps | Stamped(steps) && Uninterrupted(steps) ::
               |Since(After(start, steps).rows, key, lo)| <= CountSince(RecordedIn(After(start, steps), key), lo))
      <==> Since(start, key, lo) == {}
  {
    if Since(start, key, lo) == {} {
      forall steps | Stamped(steps) && Uninterrupted(steps)
        ensures |Since(After(start, steps).rows, key, lo)| <= CountSince(RecordedIn(After(start, steps), key), lo)
      {
        ShortfallIsOldRows(start, steps, key, lo);
        OldRowsAreStartRows(start, steps);
        assert Since(After(start, steps).rows * start, key, lo) <= Since(start, key, lo);
      }
    } else {
      assert Stamped([]) && Uninterrupted([]);
      assert After(start, []) == Traffic(start, start, map[]);
    }
  }

  /** One call, and then a restart: the table holds the call and the store reports none. */
  lemma RestartForgets(g: Grant, lo: real)
    requires lo <= g.row.at <= g.recordedAt
    ensures var t := After({}, [Granted(g), Restarted]);
      |Since(t.rows, g.row.key, lo)| == 1 && CountSince(RecordedIn(t, g.row.key), lo) == 0
  {
    OneMoreStep({}, [], Granted(g));
    OneMoreStep({}, [Granted(g)], Restarted);
    assert [] + [Granted(g)] == [Granted(g)] && [Granted(g)] + [Restarted] == [Granted(g), Restarted];
    var t := After({}, [Granted(g), Restarted]);
    assert t.rows == {} + {g.row} == {g.row};
    assert Since(t.rows, g.row.key, lo) == {g.row};
  }

  // ---------- the same for the store object ----------

  /** The table and the store of one process, with the run that led here. */
  class CountedTable {
    var rows: set<Event>
    var store: RateCounterStore
    ghost var start: set<Event>
    ghost var steps: seq<Step>

    ghost predicate Valid()
      reads this, store
    {
      var t := After(start, steps);
      store.Valid() && Stamped(steps) && rows == t.rows && store.history == t.recorded
    }

    constructor (table: set<Event>)
      ensures Valid() && fresh(store) && start == rows == table && steps == []
    {
      rows, start, steps := table, table, [];
      store := new RateCounterStore();
    }

    method Grant(g: Grant)
      requires Valid() && g.row.at <= g.recordedAt && g.recordedAt >= store.clock
      modifies this`rows, this`steps, store
      ensures Valid() && steps == old(steps) + [Granted(g)]
    {
      hide After, Stamped;
      store.Record(g.row.key, g.recordedAt);
      rows := rows + {g.row};
      OneMoreStep(start, steps, Granted(g));
      steps := steps + [Granted(g)];
    }

    method Delete(doomed: set<Event>)
      requires Valid()
      modifies this`rows, this`steps
      ensures Valid() && steps == old(steps) + [Deleted(doomed)]
    {
      hide After, Stamped;
      rows := rows - doomed;
      OneMoreStep(start, steps, Deleted(doomed));
      steps := steps + [Deleted(doomed)];
    }

    method Restart()
      requires Valid()
      modifies this
      ensures Valid() && fresh(store) && steps == old(steps) + [Restarted]
    {
      hide After, Stamped;
      store := new RateCounterStore();
      OneMoreStep(start, steps, Restarted);
      steps := steps + [Restarted];
    }

    /** What the ranking reads: never fewer calls than the table's rows of the window, but for the rows
        from before the last start. */
    method Counts(key: Key, now: real) returns (rpm: nat, rpd: nat)
      requires Valid() && now >= store.clock
      modifies store
      ensures Valid()
      ensures var before := After(start, steps).before;
        && |Since(rows, key, now - MINUTE)| <= rpm + |Since(rows * before, key, now - MINUTE)|
        && |Since(rows, key, now - DAY)| <= rpd + |Since(rows * before, key, now - DAY)|
    {
      rpm, rpd := store.Counts(key, now);
      ShortfallIsOldRows(start, steps, key, now - MINUTE);
      ShortfallIsOldRows(start, steps, key, now - DAY);
    }
  }
}
