/** A request keeps its transaction, and with it the lock of the stats row, from the reservation to
    the commit. Two requests of a key therefore overlap only through the unlocked first-row path, and
    then the later commit can cut short a quarantine the earlier one has set. */
module RequestOverlap {
  import opened Common
  import opened Windows
  import opened Admission
  import opened RollingCap
  import opened FirstRowRace
  import opened ReserveRefinement
  import Providers
  import StatsRow

  /** The transaction has an uncommitted reservation of the key. */
  ghost predicate Reserving(s: State, tx: nat, key: Key) {
    tx in s.txs && exists e | e in s.txs[tx].inserted :: e.key == key
  }

  ghost predicate Overlap(s: State, key: Key) {
    exists a: nat, b: nat :: a != b && Reserving(s, a, key) && Reserving(s, b, key)
  }

  ghost predicate CanOverlap(caps: Key -> Caps, s: State, key: Key) {
    exists s' :: Reaches(SelectThenInsert, caps, s, s') && Overlap(s', key)
  }

  lemma LockedRowMeansNoOverlap(s: State, key: Key, caps: Caps, first: nat)
    requires Inv(SelectThenInsert, s, key, caps, first)
    ensures !Overlap(s, key)
  {
    forall tx: nat | Reserving(s, tx, key)
      ensures key in s.txs[tx].locks && !HeldByOther(s, tx, key)
    {
      assert TxInv(s, tx, key, caps, first);
    }
  }

  /** The two transactions of the first-row race, each with its reservation. */
  lemma FirstRowOverlaps(caps: Key -> Caps, s: State, key: Key) returns (s': State)
    requires Quiescent(s) && TableInOrder(s) && key !in s.rows && !Closed(caps(key))
    ensures Reaches(SelectThenInsert, caps, s, s')
    ensures s'.txs.Keys == {2, 3} && Reserving(s', 2, key) && Reserving(s', 3, key)
    ensures Filling(s', 3, key, s'.txs[3].start, 1) && s'.txs[2].pc.Idle? && s'.txs[2].locks == {}
    ensures s'.txs[2].rows == map[]
  {
    var v := SelectThenInsert;
    var s1 := FirstRowUnlocked(caps, s, key);
    var s3 := UnlockedAdmits(caps, s1, key);
    ReachesThen(v, caps, s, s1, s3);
    s' := FillOne(caps, s3, 3, key, s1.clock, 0, 1);
    ReachesThen(v, caps, s, s3, s');
    var row := Event(s1.nextId, key, s1.clock);
    assert row in s'.txs[2].inserted && row.key == key;
    var e :| e in s'.txs[3].inserted;
    assert e.key == key;
  }

  /** Two requests of a key can hold reservations at the same time if and only if its stats row is
      missing and its caps let something through. */
  lemma OverlapIff(caps: Key -> Caps, s: State, key: Key)
    requires Quiescent(s) && TableInOrder(s)
    ensures CanOverlap(caps, s, key) <==> key !in s.rows && !Closed(caps(key))
  {
    var v := SelectThenInsert;
    if key !in s.rows && !Closed(caps(key)) {
      var s' := FirstRowOverlaps(caps, s, key);
      assert Overlap(s', key);
    }
    if s' :| Reaches(v, caps, s, s') && Overlap(s', key) {
      var steps :| Run(v, caps, s, steps) == Some(s');
      if key in s.rows {
        RunKeepsInv(v, caps, s, steps, s', key, s.nextId);
        LockedRowMeansNoOverlap(s', key, caps(key), s.nextId);
      } else if Closed(caps(key)) {
        ClosedAdmitsNone(v, caps, s, steps, s', key, s.nextId);
      }
    }
  }

  /** The end of a dispatch: the row is written and the transaction commits. */
  lemma WriteAndCommit(caps: Key -> Caps, s: State, tx: nat, key: Key, gate: Gate) returns (s': State)
    requires tx in s.txs && s.txs[tx].pc.Idle? && key in s.rows && !HeldByOther(s, tx, key)
    ensures Reaches(SelectThenInsert, caps, s, s')
    ensures key in s'.rows && s'.rows[key] == gate && s'.txs == s.txs - {tx}
  {
    var v, t := SelectThenInsert, s.txs[tx];
    var s1 := Put(s, tx, t.(locks := t.locks + {key}, rows := t.rows[key := gate]));
    s' := Apply(v, caps, s1, Commit(tx)).value;
    Stay(v, caps, s);
    OneMore(v, caps, s, s, WriteStats(tx, key, gate), s1);
    OneMore(v, caps, s, s1, Commit(tx), s');
    assert s1.txs - {tx} == s.txs - {tx};
  }

  /** The row after a 429 that asks for six hours, and after a failure that then trips the breaker. */
  function Limited(now: real): StatsRow.Row {
    StatsRow.CommitRow(StatsRow.FRESH, now, StatsRow.Failure(0, Providers.RateLimited, Some(21600.0)), ONE_STRIKE)
  }

  function TrippedAfterwards(now: real): StatsRow.Row {
    StatsRow.CommitRow(Limited(now), now, StatsRow.Failure(0, Providers.ServerError, None), ONE_STRIKE)
  }

  const ONE_STRIKE := StatsRow.DEFAULT_TUNABLES.(threshold := 1)

  /** With the stats row missing, a run in which one request commits a six-hour quarantine while
      another one holds its reservation, and that other one's commit cuts the quarantine to 30 s. */
  lemma OverlappingTripShortens(caps: Key -> Caps, s: State, key: Key) returns (mid: State, last: State, now: real)
    requires Quiescent(s) && TableInOrder(s) && key !in s.rows && !Closed(caps(key))
    ensures Reaches(SelectThenInsert, caps, s, mid) && Reaches(SelectThenInsert, caps, mid, last)
    ensures Reserving(mid, 2, key) && Quiescent(last) && key in mid.rows && key in last.rows
    ensures mid.rows[key] == GateOf(Limited(now)) && last.rows[key] == GateOf(TrippedAfterwards(now))
    ensures mid.rows[key].quarantinedUntil == now + 21600.0 && last.rows[key].quarantinedUntil == now + 30.0
  {
    var v := SelectThenInsert;
    var s1 := FirstRowOverlaps(caps, s, key);
    now := s1.txs[3].start;
    mid := WriteAndCommit(caps, s1, 3, key, GateOf(Limited(now)));
    ReachesThen(v, caps, s, s1, mid);
    last := WriteAndCommit(caps, mid, 2, key, GateOf(TrippedAfterwards(now)));
    QuarantineCutShort(now);
    assert last.txs == map[];
  }

  lemma QuarantineCutShort(now: real)
    requires now >= 0.0
    ensures Limited(now).quarantinedUntil == now + 21600.0
    ensures TrippedAfterwards(now).quarantinedUntil == now + 30.0
  {
    assert Pow2(0) == 1;
  }
}
