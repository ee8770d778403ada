/** Requests lock the stats rows of several providers, in the order of their ranking, and keep the locks
    to the end. Two requests that rank two providers differently can each wait for the other; requests
    that follow a common order cannot. */
module LockOrder {
  import opened Common
  import opened Windows
  import opened Admission
  import opened FirstRowRace
  import opened ReserveRefinement

  /** The key the transaction asks for is held by another one of these. */
  ghost predicate WaitsForOneOf(s: State, waits: map<nat, Key>, tx: nat)
    requires tx in waits
  {
    exists u: nat :: u in waits && u != tx && u in s.txs && waits[tx] in s.txs[u].locks
  }

  /** Each of these transactions is about to reserve the given key, which another one of them holds. */
  ghost predicate Deadlocked(s: State, waits: map<nat, Key>) {
    && waits != map[]
    && (forall tx | tx in waits :: tx in s.txs && s.txs[tx].pc.Idle?)
    && forall tx {:trigger WaitsForOneOf(s, waits, tx)} | tx in waits :: WaitsForOneOf(s, waits, tx)
  }

  /** A reservation of an existing row waits exactly while another transaction holds it. */
  lemma CallWaitsIffHeld(v: Variant, caps: Key -> Caps, s: State, tx: nat, key: Key)
    requires tx in s.txs && s.txs[tx].pc.Idle? && key in s.rows
    ensures Apply(v, caps, s, Call(tx, key)).None? <==> HeldByOther(s, tx, key)
  {
    hide HeldByOther;
  }

  /** The insert of a row that the SELECT did not find waits exactly while another open transaction has
      inserted it; once that has committed it does nothing. */
  lemma InsertWaitsIffPending(caps: Key -> Caps, s: State, tx: nat, key: Key)
    requires tx in s.txs && s.txs[tx].pc == RowMissing(key)
    ensures Apply(SelectThenInsert, caps, s, Continue(tx)).None?
      <==> key !in s.rows && exists u :: u in s.txs && u != tx && key in s.txs[u].rows
    ensures key in s.rows ==>
      Apply(SelectThenInsert, caps, s, Continue(tx)) == Some(Put(s, tx, s.txs[tx].(pc := Gated(key, Gate(true, 0.0)))))
  {
  }

  lemma WaitingMeansHeld(s: State, waits: map<nat, Key>, tx: nat)
    requires tx in waits && WaitsForOneOf(s, waits, tx)
    ensures HeldByOther(s, tx, waits[tx])
  {
  }

  /** None of them can go on. */
  lemma DeadlockedCannotCall(v: Variant, caps: Key -> Caps, s: State, waits: map<nat, Key>, tx: nat)
    requires Deadlocked(s, waits) && tx in waits && waits[tx] in s.rows
    ensures Apply(v, caps, s, Call(tx, waits[tx])).None?
  {
    hide Apply, WaitsForOneOf;
    CallWaitsIffHeld(v, caps, s, tx, waits[tx]);
    WaitingMeansHeld(s, waits, tx);
  }

  // ---------- opposite orders ----------

  /** One whole call of the deployed function; whatever its verdict, the row stays locked. */
  lemma CallLocks(caps: Key -> Caps, s: State, tx: nat, key: Key) returns (s': State)
    requires tx in s.txs && s.txs[tx].pc.Idle? && key in s.rows && !HeldByOther(s, tx, key)
    ensures Reaches(SelectThenInsert, caps, s, s')
    ensures s'.rows == s.rows && s'.txs.Keys == s.txs.Keys
    ensures s'.txs[tx].pc.Idle? && s'.txs[tx].locks == s.txs[tx].locks + {key}
    ensures forall u | u in s.txs && u != tx :: s'.txs[u] == s.txs[u]
  {
    var s1 := LockOrInsert(caps, s, tx, key);
    s' := VerdictFromGate(caps, s1, tx, key, RowOf(s, s.txs[tx], key));
    ReachesThen(SelectThenInsert, caps, s, s1, s');
  }

  /** The input: one request reserves `a` and goes on to `b`, the other reserves `b` and goes on to `a`. */
  lemma OppositeOrdersDeadlock(caps: Key -> Caps, s: State, a: Key, b: Key) returns (s': State)
    requires Quiescent(s) && a != b && a in s.rows && b in s.rows
    ensures Reaches(SelectThenInsert, caps, s, s') && Deadlocked(s', map[1 := b, 2 := a])
    ensures Apply(SelectThenInsert, caps, s', Call(1, b)).None? && Apply(SelectThenInsert, caps, s', Call(2, a)).None?
  {
    var v := SelectThenInsert;
    var idle := Tx(s.clock, Idle, {}, {}, {}, map[], None);
    var s1 := Put(s, 1, idle);
    var s2 := Put(s1, 2, idle);
    Stay(v, caps, s);
    OneMore(v, caps, s, s, Begin(1), s1);
    OneMore(v, caps, s, s1, Begin(2), s2);
    var s3 := CallLocks(caps, s2, 1, a);
    ReachesThen(v, caps, s, s2, s3);
    s' := CallLocks(caps, s3, 2, b);
    ReachesThen(v, caps, s, s3, s');
    var waits := map[1 := b, 2 := a];
    assert b in s'.txs[2].locks && a in s'.txs[1].locks;
    assert WaitsForOneOf(s', waits, 1) && WaitsForOneOf(s', waits, 2);
    DeadlockedCannotCall(v, caps, s', waits, 1);
    DeadlockedCannotCall(v, caps, s', waits, 2);
  }

  // ---------- a common order ----------

  /** Every transaction asks for keys in increasing rank. */
  ghost predicate InOrder(s: State, waits: map<nat, Key>, rank: Key -> int) {
    forall tx, k | tx in waits && tx in s.txs && k in s.txs[tx].locks :: rank(k) < rank(waits[tx])
  }

  lemma {:induction false} HighestWait(waits: map<nat, Key>, rank: Key -> int) returns (top: nat)
    requires waits != map[]
    ensures top in waits && forall tx | tx in waits :: rank(waits[tx]) <= rank(waits[top])
    decreases |waits|
  {
    assert waits.Keys != {};
    var tx :| tx in waits;
    var rest := waits - {tx};
    if rest == map[] {
      top := tx;
      assert forall u | u in waits :: u == tx || u in rest;
    } else {
      assert rest.Keys == waits.Keys - {tx};
      assert |rest| == |waits| - 1 by { assert |rest.Keys| == |waits.Keys| - 1; }
      var other := HighestWait(rest, rank);
      top := if rank(waits[tx]) > rank(waits[other]) then tx else other;
      assert forall u | u in waits :: u == tx || u in rest;
    }
  }

  lemma CommonOrderNeverDeadlocks(s: State, waits: map<nat, Key>, rank: Key -> int)
    requires InOrder(s, waits, rank)
    ensures !Deadlocked(s, waits)
  {
    hide WaitsForOneOf;
    if waits != map[] {
      var top := HighestWait(waits, rank);
      NobodyHoldsHighest(s, waits, rank, top);
    }
  }

  lemma NobodyHoldsHighest(s: State, waits: map<nat, Key>, rank: Key -> int, top: nat)
    requires InOrder(s, waits, rank)
    requires top in waits && forall tx | tx in waits :: rank(waits[tx]) <= rank(waits[top])
    ensures !WaitsForOneOf(s, waits, top)
  {
    forall u: nat | u in waits && u != top && u in s.txs ensures waits[top] !in s.txs[u].locks {
      assert rank(waits[u]) <= rank(waits[top]);
    }
  }

  /** So when every open transaction waits for its next key, one of the calls goes through. */
  lemma CommonOrderGoesOn(v: Variant, caps: Key -> Caps, s: State, waits: map<nat, Key>, rank: Key -> int)
    returns (tx: nat)
    requires InOrder(s, waits, rank) && s.txs != map[] && waits.Keys == s.txs.Keys
    requires forall u | u in s.txs :: s.txs[u].pc.Idle? && waits[u] in s.rows
    ensures tx in waits && Apply(v, caps, s, Call(tx, waits[tx])).Some?
  {
    hide Apply, InOrder, WaitsForOneOf, HeldByOther;
    CommonOrderNeverDeadlocks(s, waits, rank);
    tx :| tx in waits && !WaitsForOneOf(s, waits, tx);
    HeldMeansWaiting(s, waits, tx);
    CallWaitsIffHeld(v, caps, s, tx, waits[tx]);
  }

  lemma HeldMeansWaiting(s: State, waits: map<nat, Key>, tx: nat)
    requires tx in waits && waits.Keys == s.txs.Keys
    ensures HeldByOther(s, tx, waits[tx]) ==> WaitsForOneOf(s, waits, tx)
  {
    if HeldByOther(s, tx, waits[tx]) {
      var u :| u in s.txs && u != tx && waits[tx] in s.txs[u].locks;
      assert u in waits.Keys;
    }
  }
}
