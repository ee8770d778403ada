/** The statement-by-statement reservation of module Admission, when nobody holds the key, does
    exactly what the repository's single call does. */
module ReserveRefinement {
  import opened Common
  import opened Windows
  import opened Admission
  import opened FirstRowRace
  import StatsRow
  import RateRepo

  function GateOf(row: StatsRow.Row): Gate {
    Gate(row.healthy, row.quarantinedUntil)
  }

  lemma PutTwice(s: State, tx: nat, a: Tx, b: Tx)
    ensures Put(Put(s, tx, a), tx, b) == Put(s, tx, b)
  {
    assert s.txs[tx := a][tx := b] == s.txs[tx := b];
  }

  /** From the gate on, the call of the deployed function runs to its verdict. */
  lemma VerdictFromGate(caps: Key -> Caps, s: State, tx: nat, key: Key, gate: Gate) returns (s': State)
    requires tx in s.txs && s.txs[tx].pc == Gated(key, gate) && s.txs[tx].token == None
    ensures Reaches(SelectThenInsert, caps, s, s')
    ensures var t, c := s.txs[tx], caps(key);
      var ok := GateOpen(SelectThenInsert, gate, t.start)
        && UnderCap(s, t, key, c.rpm, MINUTE) && UnderCap(s, t, key, c.rpd, DAY);
      s' == if ok
            then Put(s, tx, t.(inserted := t.inserted + {Event(s.nextId, key, t.start)}, pc := Idle,
                               token := Some(s.nextId))).(nextId := s.nextId + 1)
            else Put(s, tx, t.(pc := Idle, token := None))
  {
    var v, t, c := SelectThenInsert, s.txs[tx], caps(key);
    Stay(v, caps, s);
    if !GateOpen(v, gate, t.start) {
      s' := Put(s, tx, t.(pc := Idle, token := None));
      OneMore(v, caps, s, s, Continue(tx), s');
      return;
    }
    var s1 := Put(s, tx, t.(pc := CountMinute(key)));
    OneMore(v, caps, s, s, Continue(tx), s1);
    s' := VerdictFromCounts(v, caps, s, s1, tx, key);
    ReachesThen(v, caps, s, s1, s');
  }

  /** From the counts on, the call of any of the functions runs to its verdict. */
  lemma VerdictFromCounts(v: Variant, caps: Key -> Caps, s: State, s1: State, tx: nat, key: Key) returns (s': State)
    requires tx in s.txs && s.txs[tx].token == None
    requires s1 == Put(s, tx, s.txs[tx].(pc := CountMinute(key)))
    ensures Reaches(v, caps, s1, s')
    ensures var t, c := s.txs[tx], Enforced(v, caps(key));
      var ok := UnderCap(s, t, key, c.rpm, MINUTE) && UnderCap(s, t, key, c.rpd, DAY);
      s' == if ok
            then Put(s, tx, t.(inserted := t.inserted + {Event(s.nextId, key, t.start)}, pc := Idle,
                               token := Some(s.nextId))).(nextId := s.nextId + 1)
            else Put(s, tx, t.(pc := Idle, token := None))
  {
    var t, c := s.txs[tx], Enforced(v, caps(key));
    var denied := Put(s, tx, t.(pc := Idle, token := None));
    assert View(s1, s1.txs[tx]) == View(s, t);
    Stay(v, caps, s1);
    if !UnderCap(s, t, key, c.rpm, MINUTE) {
      s' := denied;
      PutTwice(s, tx, s1.txs[tx], s'.txs[tx]);
      OneMore(v, caps, s1, s1, Continue(tx), s');
      return;
    }
    var s2 := Put(s, tx, t.(pc := CountDay(key)));
    assert View(s2, s2.txs[tx]) == View(s, t);
    PutTwice(s, tx, s1.txs[tx], s2.txs[tx]);
    OneMore(v, caps, s1, s1, Continue(tx), s2);
    if !UnderCap(s, t, key, c.rpd, DAY) {
      s' := denied;
      PutTwice(s, tx, s2.txs[tx], s'.txs[tx]);
      OneMore(v, caps, s1, s2, Continue(tx), s');
      return;
    }
    var s3 := Put(s, tx, t.(pc := Insert(key)));
    PutTwice(s, tx, s2.txs[tx], s3.txs[tx]);
    OneMore(v, caps, s1, s2, Continue(tx), s3);
    s' := Put(s, tx, t.(inserted := t.inserted + {Event(s.nextId, key, t.start)}, pc := Idle,
                        token := Some(s.nextId))).(nextId := s.nextId + 1);
    PutTwice(s, tx, s3.txs[tx], s'.txs[tx]);
    OneMore(v, caps, s1, s3, Continue(tx), s');
  }

  /** The first statements: select and lock the row, or insert it. */
  lemma LockOrInsert(caps: Key -> Caps, s: State, tx: nat, key: Key) returns (s': State)
    requires tx in s.txs && s.txs[tx].pc.Idle?
    requires !HeldByOther(s, tx, key) && !InsertPendingElsewhere(s, tx, key)
    ensures Reaches(SelectThenInsert, caps, s, s')
    ensures var t := s.txs[tx];
      s' == Put(s, tx, t.(locks := t.locks + {key}, pc := Gated(key, RowOf(s, t, key)), token := None,
                          rows := if RowVisible(s, t, key) then t.rows else t.rows[key := FRESH_GATE]))
  {
    var v, t := SelectThenInsert, s.txs[tx];
    Stay(v, caps, s);
    if RowVisible(s, t, key) {
      s' := Put(s, tx, t.(locks := t.locks + {key}, pc := Gated(key, RowOf(s, t, key)), token := None));
      OneMore(v, caps, s, s, Call(tx, key), s');
    } else {
      var s1 := Put(s, tx, t.(pc := RowMissing(key), token := None));
      OneMore(v, caps, s, s, Call(tx, key), s1);
      s' := Put(s, tx, t.(locks := t.locks + {key}, pc := Gated(key, FRESH_GATE), token := None,
                          rows := t.rows[key := FRESH_GATE]));
      assert !InsertPendingElsewhere(s1, tx, key);
      PutTwice(s, tx, s1.txs[tx], s'.txs[tx]);
      OneMore(v, caps, s, s1, Continue(tx), s');
    }
  }

  /** A call that finds the key free ends with the token and the table of the repository's
      `TryReserve` on what the transaction sees. */
  lemma DeployedCallIsAtomic(caps: Key -> Caps, s: State, tx: nat, key: Key, stats: map<Key, StatsRow.Row>)
    returns (s': State)
    requires tx in s.txs && s.txs[tx].pc.Idle?
    requires !HeldByOther(s, tx, key) && !InsertPendingElsewhere(s, tx, key)
    requires s.txs[tx].deleted !! s.txs[tx].inserted
    requires GateOf(RateRepo.RowOrFresh(stats, key)) == RowOf(s, s.txs[tx], key)
    ensures Reaches(SelectThenInsert, caps, s, s')
    ensures tx in s'.txs && s'.txs[tx].pc.Idle? && s'.events == s.events && RowVisible(s', s'.txs[tx], key)
    ensures var granted := RateRepo.Grants(stats, View(s, s.txs[tx]), key, caps(key), s.txs[tx].start);
      && s'.txs[tx].token == (if granted then Some(s.nextId) else None)
      && View(s', s'.txs[tx]) == View(s, s.txs[tx]) + if granted then {Event(s.nextId, key, s.txs[tx].start)} else {}
  {
    var s1 := LockOrInsert(caps, s, tx, key);
    var t1 := s1.txs[tx];
    assert View(s1, t1) == View(s, s.txs[tx]);
    s' := VerdictFromGate(caps, s1, tx, key, RowOf(s, s.txs[tx], key));
    ReachesThen(SelectThenInsert, caps, s, s1, s');
  }

  // ---------- the other statements ----------

  /** Rolling a reservation back takes exactly its row out of what the transaction sees, purging exactly the
      older ones, and writing the stats row replaces it. */
  lemma StatementsMean(v: Variant, caps: Key -> Caps, s: State, tx: nat, step: Step, s': State)
    requires step.Rollback? || step.Purge? || step.WriteStats?
    requires step.tx == tx && Apply(v, caps, s, step) == Some(s') && s.txs[tx].deleted !! s.txs[tx].inserted
    ensures s'.events == s.events && s'.rows == s.rows && tx in s'.txs
    ensures forall u | u in s.txs && u != tx :: u in s'.txs && s'.txs[u] == s.txs[u]
    ensures var before, after := View(s, s.txs[tx]), View(s', s'.txs[tx]);
      match step
      case Rollback(_, id) => after == set e | e in before && e.id != id
      case Purge(_, cutoff) => after == set e | e in before && e.at >= cutoff
      case WriteStats(_, key, gate) =>
        after == before && (key in s.rows || key in s.txs[tx].rows ==> RowOf(s', s'.txs[tx], key) == gate)
  {
  }

  /** A commit makes what the transaction sees the table, and gives its locks back; an abort leaves the
      tables as they were. */
  lemma EndsMean(v: Variant, caps: Key -> Caps, s: State, tx: nat, s': State)
    ensures Apply(v, caps, s, Commit(tx)) == Some(s') ==>
      && s'.events == View(s, s.txs[tx]) && tx !in s'.txs
      && forall key :: RowOf(s', Tx(s.clock, Idle, {}, {}, {}, map[], None), key) == RowOf(s, s.txs[tx], key)
    ensures Apply(v, caps, s, Abort(tx)) == Some(s') ==>
      s'.events == s.events && s'.rows == s.rows && tx !in s'.txs
  {
  }

  // ---------- who is let in, by each of the functions ----------

  /** Fewer rows than the cap in the seconds before `now`, if there is a cap. */
  predicate RoomFor(rows: set<Event>, key: Key, cap: Option<int>, now: real, seconds: real) {
    cap.None? || |set e | e in rows && e.key == key && e.at >= now - seconds| < cap.value
  }

  /** 0004 asks for room in the minute; 0007 for an expired quarantine besides and room in the day; 0014
      also for a row that is not unhealthy without a quarantine. */
  predicate LetIn(v: Variant, row: Gate, caps: Caps, rows: set<Event>, key: Key, now: real) {
    && RoomFor(rows, key, caps.rpm, now, 60.0)
    && (v.Advisory? || (row.quarantinedUntil <= now && RoomFor(rows, key, caps.rpd, now, 86400.0)))
    && (v.SelectThenInsert? ==> row.healthy || row.quarantinedUntil != 0.0)
  }

  /** 0007 heals a row whose quarantine is over; the others leave the row to the commit. */
  function HealedBy0007(row: Gate, now: real): Gate {
    if row.quarantinedUntil > now || (row.healthy && row.quarantinedUntil <= 0.0) then row else Gate(true, 0.0)
  }

  /** A call that finds the key free is let in exactly then. It runs through without waiting, and the row
      it adds, if any, is stamped with the start of its transaction. */
  lemma LoneCallIsLetInIff(v: Variant, caps: Key -> Caps, s: State, tx: nat, key: Key) returns (s': State)
    requires tx in s.txs && s.txs[tx].pc.Idle?
    requires !HeldByOther(s, tx, key) && !InsertPendingElsewhere(s, tx, key)
    requires s.txs[tx].deleted !! s.txs[tx].inserted
    ensures Reaches(v, caps, s, s') && tx in s'.txs && s'.txs[tx].pc.Idle? && key in s'.txs[tx].locks
    ensures var t := s.txs[tx];
      var ok := LetIn(v, RowOf(s, t, key), caps(key), View(s, t), key, t.start);
      && s'.txs[tx].token == (if ok then Some(s.nextId) else None)
      && View(s', s'.txs[tx]) == View(s, t) + (if ok then {Event(s.nextId, key, t.start)} else {})
    ensures var row := RowOf(s, s.txs[tx], key);
      RowOf(s', s'.txs[tx], key) == if v.CreateOrLock? then HealedBy0007(row, s.txs[tx].start) else row
  {
    var t, row := s.txs[tx], RowOf(s, s.txs[tx], key);
    RoomMeans(s, t, key, caps(key));
    hide RoomFor, UnderCap;
    match v {
      case SelectThenInsert =>
        var s1 := LockOrInsert(caps, s, tx, key);
        SameRoom(s, s1, tx, key, caps(key));
        s' := VerdictFromGate(caps, s1, tx, key, row);
        ReachesThen(v, caps, s, s1, s');
      case CreateOrLock =>
        var t1 := t.(locks := t.locks + {key}, rows := t.rows[key := row], pc := Gated(key, row), token := None);
        var s1 := Put(s, tx, t1);
        Stay(v, caps, s);
        OneMore(v, caps, s, s, Call(tx, key), s1);
        SameRoom(s, s1, tx, key, caps(key));
        s' := FromGateOf0007(caps, s1, tx, key, row);
        ReachesThen(v, caps, s, s1, s');
      case Advisory =>
        var t1 := t.(locks := t.locks + {key}, pc := CountMinute(key), token := None);
        var s1 := Put(s, tx, t1);
        Stay(v, caps, s);
        OneMore(v, caps, s, s, Call(tx, key), s1);
        SameRoom(s, s1, tx, key, caps(key));
        s' := FromMinute(v, caps, s1, tx, key);
        ReachesThen(v, caps, s, s1, s');
    }
  }

  /** Taking the lock changes nothing of what is counted. */
  lemma SameRoom(s: State, s1: State, tx: nat, key: Key, caps: Caps)
    requires tx in s.txs && tx in s1.txs && s1.events == s.events
    requires var t, t1 := s.txs[tx], s1.txs[tx];
      t1.start == t.start && t1.inserted == t.inserted && t1.deleted == t.deleted
    ensures View(s1, s1.txs[tx]) == View(s, s.txs[tx])
    ensures UnderCap(s1, s1.txs[tx], key, caps.rpm, MINUTE) == UnderCap(s, s.txs[tx], key, caps.rpm, MINUTE)
    ensures UnderCap(s1, s1.txs[tx], key, caps.rpd, DAY) == UnderCap(s, s.txs[tx], key, caps.rpd, DAY)
    ensures UnderCap(s1, s1.txs[tx], key, None, DAY)
  {
  }

  lemma RoomMeans(s: State, t: Tx, key: Key, caps: Caps)
    ensures UnderCap(s, t, key, caps.rpm, MINUTE) == RoomFor(View(s, t), key, caps.rpm, t.start, 60.0)
    ensures UnderCap(s, t, key, caps.rpd, DAY) == RoomFor(View(s, t), key, caps.rpd, t.start, 86400.0)
  {
  }

  /** A call at its first count. */
  lemma FromMinute(v: Variant, caps: Key -> Caps, s: State, tx: nat, key: Key) returns (s': State)
    requires tx in s.txs && s.txs[tx].pc == CountMinute(key) && s.txs[tx].token == None
    requires key in s.txs[tx].locks
    ensures Reaches(v, caps, s, s') && tx in s'.txs && s'.txs[tx].pc.Idle? && key in s'.txs[tx].locks
    ensures s'.rows == s.rows && s'.txs[tx].rows == s.txs[tx].rows
    ensures var t, c := s.txs[tx], Enforced(v, caps(key));
      var ok := UnderCap(s, t, key, c.rpm, MINUTE) && UnderCap(s, t, key, c.rpd, DAY);
      && s'.txs[tx].token == (if ok then Some(s.nextId) else None)
      && (s.txs[tx].deleted !! s.txs[tx].inserted ==>
            View(s', s'.txs[tx]) == View(s, t) + (if ok then {Event(s.nextId, key, t.start)} else {}))
  {
    assert s == Put(s, tx, s.txs[tx].(pc := CountMinute(key)));
    s' := VerdictFromCounts(v, caps, s, s, tx, key);
  }

  lemma FromGateOf0007(caps: Key -> Caps, s: State, tx: nat, key: Key, row: Gate) returns (s': State)
    requires tx in s.txs && s.txs[tx].pc == Gated(key, row) && s.txs[tx].token == None
    requires key in s.txs[tx].locks && s.txs[tx].deleted !! s.txs[tx].inserted
    ensures Reaches(CreateOrLock, caps, s, s') && tx in s'.txs && s'.txs[tx].pc.Idle? && key in s'.txs[tx].locks
    ensures var t, c := s.txs[tx], caps(key);
      var ok := row.quarantinedUntil <= t.start
        && UnderCap(s, t, key, c.rpm, MINUTE) && UnderCap(s, t, key, c.rpd, DAY);
      && s'.txs[tx].token == (if ok then Some(s.nextId) else None)
      && View(s', s'.txs[tx]) == View(s, t) + (if ok then {Event(s.nextId, key, t.start)} else {})
    ensures s'.rows == s.rows
    ensures key in s.txs[tx].rows && s.txs[tx].rows[key] == row ==>
      key in s'.txs[tx].rows && s'.txs[tx].rows[key] == HealedBy0007(row, s.txs[tx].start)
  {
    var v, t := CreateOrLock, s.txs[tx];
    var s1 := Put(s, tx, PassGate(v, t, key, row));
    Stay(v, caps, s);
    OneMore(v, caps, s, s, Continue(tx), s1);
    assert View(s1, s1.txs[tx]) == View(s, t);
    if row.quarantinedUntil > t.start {
      s' := s1;
    } else {
      s' := FromMinute(v, caps, s1, tx, key);
      ReachesThen(v, caps, s, s1, s');
    }
  }
}
