/** Rows of the rate-event tables and the rolling-window counts taken over them. */
module Windows {
  import opened Common

  /** One row: a reservation of `key`, stamped with the start time of its transaction. */
  datatype Event = Event(id: nat, key: Key, at: real)

  /** The rows a `COUNT(*) ... occurred_at >= lo` statement counts. */
  function Since(events: set<Event>, key: Key, lo: real): set<Event> {
    set e | e in events && e.key == key && e.at >= lo
  }

  /** The rows of one closed interval [lo, lo + width]. */
  function Window(events: set<Event>, key: Key, lo: real, width: real): set<Event> {
    set e | e in events && e.key == key && lo <= e.at <= lo + width
  }

  /** No closed interval of `width` seconds that holds a row numbered `first` or later holds
      more than `cap` rows. With `first == 0` this is the plain rolling cap; with a later
      `first` it says that rows admitted from then on never make a window exceed the cap, even
      in a table that was over the cap to begin with. */
  ghost predicate Capped(events: set<Event>, key: Key, cap: Option<int>, width: real, first: nat) {
    cap.Some? ==>
      forall lo: real, e: Event | e in Window(events, key, lo, width) && e.id >= first ::
        |Window(events, key, lo, width)| <= cap.value
  }

  lemma SubsetCard<T>(a: set<T>, b: set<T>)
    requires a <= b
    ensures |a| <= |b|
  {
    if a != b {
      var x :| x in b && x !in a;
      SubsetCard(a, b - {x});
    }
  }

  /** Removing rows keeps the cap. */
  lemma FewerRowsKeepCap(small: set<Event>, big: set<Event>, key: Key, cap: Option<int>, width: real, first: nat)
    requires Capped(big, key, cap, width, first)
    requires forall e | e in small && e.key == key :: e in big
    ensures Capped(small, key, cap, width, first)
  {
    if cap.Some? {
      forall lo: real, e: Event | e in Window(small, key, lo, width) && e.id >= first
        ensures |Window(small, key, lo, width)| <= cap.value
      {
        assert e in Window(big, key, lo, width);
        SubsetCard(Window(small, key, lo, width), Window(big, key, lo, width));
      }
    }
  }

  /** The heart of the rolling cap. A row stamped `at` may be added once fewer than `cap` rows
      lie at or after `at - width`, although rows with later stamps may already be there: any
      closed window holding the new row starts at or after `at - width`, so all of its other
      rows were counted. */
  lemma AdmittedRowKeepsCap(events: set<Event>, row: Event, cap: int, width: real, first: nat)
    requires width >= 0.0
    requires Capped(events, row.key, Some(cap), width, first)
    requires |Since(events, row.key, row.at - width)| < cap
    ensures Capped(events + {row}, row.key, Some(cap), width, first)
  {
    var key, after := row.key, events + {row};
    forall lo: real, e: Event | e in Window(after, key, lo, width) && e.id >= first
      ensures |Window(after, key, lo, width)| <= cap
    {
      if lo <= row.at <= lo + width {
        var counted := Since(events, key, row.at - width);
        SubsetCard(Window(after, key, lo, width), counted + {row});
      } else {
        assert Window(after, key, lo, width) == Window(events, key, lo, width);
      }
    }
  }
}
