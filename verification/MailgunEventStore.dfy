/**
 * Linking and status derivation as they are programmed: loops over query
 * results that update rows and counters, proved against the functions of the
 * event model.
 */
module MailgunEventStore {
  import opened Wrappers
  import opened MailgunEvents

  // ---- The query behind the snapshot --------------------------------------------

  /** Newer by provider time, then by row. */
  predicate Newer(events: seq<EventRow>, i: nat, j: nat) {
    && i < |events| && j < |events|
    && (events[i].timestamp > events[j].timestamp || (events[i].timestamp == events[j].timestamp && i > j))
  }

  /** Rows of the table, newest first. */
  predicate Sorted(events: seq<EventRow>, rows: seq<nat>) {
    && (forall j | 0 <= j < |rows| :: rows[j] < |events|)
    && (forall j, k | 0 <= j < k < |rows| :: Newer(events, rows[j], rows[k]))
  }

  lemma SortedInsert(events: seq<EventRow>, rows: seq<nat>, n: nat, k: nat)
    requires Sorted(events, rows) && n < |events| && k <= |rows|
    requires forall j | 0 <= j < k :: Newer(events, rows[j], n)
    requires forall j | k <= j < |rows| :: Newer(events, n, rows[j])
    ensures
      var r := rows[..k] + [n] + rows[k..];
      Sorted(events, r) && forall i :: i in r <==> i in rows || i == n
  {}

  /** The linked rows of a message, newest first. */
  predicate IsResult(events: seq<EventRow>, x: External, rows: seq<nat>) {
    && (forall j | 0 <= j < |rows| :: rows[j] < |events| && events[rows[j]].linkedTo == Some(x))
    && (forall i: nat | i < |events| && events[i].linkedTo == Some(x) :: i in rows)
    && Sorted(events, rows)
  }

  /** b has a delivery state and no newer linked row has one. */
  predicate IsLatest(events: seq<EventRow>, x: External, b: nat, n: nat) {
    && b < n <= |events| && events[b].linkedTo == Some(x) && events[b].delivery.Some?
    && forall i: nat | i < n && events[i].linkedTo == Some(x) && events[i].delivery.Some? && i != b ::
         Newer(events, b, i)
  }

  lemma {:induction false} LatestIsNewest(events: seq<EventRow>, x: External, n: nat)
    requires n <= |events|
    ensures Latest(events, x, n).Some? ==> IsLatest(events, x, Latest(events, x, n).value, n)
    ensures Latest(events, x, n).None? ==> forall i: nat | i < n ::
      !(events[i].linkedTo == Some(x) && events[i].delivery.Some?)
  {
    if n > 0 { LatestIsNewest(events, x, n - 1); }
  }

  lemma {:induction false} CountsTheRows(rows: seq<nat>, s: set<nat>)
    requires forall i :: i in rows <==> i in s
    requires forall j, k | 0 <= j < k < |rows| :: rows[j] != rows[k]
    ensures |rows| == |s|
    decreases rows
  {
    if rows != [] {
      var n := |rows| - 1;
      assert forall i :: i in rows <==> i in rows[..n] || i == rows[n];
      assert rows[n] !in rows[..n];
      CountsTheRows(rows[..n], s - {rows[n]});
    } else {
      assert s == {};
    }
  }

  lemma MaxRowIs(events: seq<EventRow>, x: External, m: nat)
    requires m <= |events| && (m > 0 ==> events[m - 1].linkedTo == Some(x))
    requires forall i | m <= i < |events| :: events[i].linkedTo != Some(x)
    ensures MaxRow(events, x, |events|) == m
  {}

  /** What the two unique indexes keep. */
  predicate EventsUnique(events: seq<EventRow>) {
    forall i, j | 0 <= i < j < |events| ::
      events[i].eventId != events[j].eventId && events[i].callbackKey != events[j].callbackKey
  }

  class Store {
    var messages: map<External, Status>
    var events: seq<EventRow>

    function Value(): Tables
      reads this
    {
      Tables(messages, events)
    }

    constructor ()
      ensures Value() == Tables(map[], [])
    {
      messages, events := map[], [];
    }

    /** Events already there are ignored, by provider id or by callback. */
    method Insert(row: EventRow)
      modifies `events
      ensures Value() == InsertEvent(old(Value()), row)
      ensures old(EventsUnique(events)) ==> EventsUnique(events)
      ensures old(events) <= events && |events| <= |old(events)| + 1
      ensures InsertEvent(Value(), row) == Value()
    {
      if exists i | 0 <= i < |events| :: events[i].eventId == row.eventId || events[i].callbackKey == row.callbackKey {
        return;
      }
      events := events + [row];
      assert events[|events| - 1] == row;
    }

    /** Links every unmatched event of the message and counts them. */
    method LinkUnmatchedEvents(x: External) returns (linked: nat)
      modifies `events
      ensures |events| == |old(events)|
      ensures forall i | 0 <= i < |events| ::
        events[i] == if old(events[i].linkedTo.None? && events[i].external == Some(x))
          then old(events[i]).(linkedTo := Some(x)) else old(events[i])
      ensures linked == |Linked(events, x)| - |Linked(old(events), x)|
    {
      linked := 0;
      var before := events;
      var k := 0;
      while k < |before|
        invariant 0 <= k <= |before| == |events|
        invariant forall i | k <= i < |events| :: events[i] == before[i]
        invariant forall i | 0 <= i < k ::
          events[i] == if before[i].linkedTo.None? && before[i].external == Some(x)
            then before[i].(linkedTo := Some(x)) else before[i]
        invariant linked == |Linked(events, x)| - |Linked(before, x)|
      {
        if before[k].linkedTo.None? && before[k].external == Some(x) {
          ghost var was := Linked(events, x);
          events := events[k := events[k].(linkedTo := Some(x))];
          assert Linked(events, x) == was + {k};
          linked := linked + 1;
        }
        k := k + 1;
      }
    }

    /** Where the next row goes among those already sorted. */
    method PlaceFor(rows: seq<nat>, n: nat) returns (k: nat)
      requires n < |events| && Sorted(events, rows) && forall j | 0 <= j < |rows| :: rows[j] < n
      ensures k <= |rows|
      ensures forall j | 0 <= j < k :: Newer(events, rows[j], n)
      ensures forall j | k <= j < |rows| :: Newer(events, n, rows[j])
    {
      k := 0;
      while k < |rows| && events[rows[k]].timestamp > events[n].timestamp
        invariant 0 <= k <= |rows|
        invariant forall j | 0 <= j < k :: Newer(events, rows[j], n)
      {
        k := k + 1;
      }
      forall j | k <= j < |rows| ensures Newer(events, n, rows[j]) {
        assert j > k ==> Newer(events, rows[k], rows[j]);
      }
    }

    /** SELECT ... ORDER BY event_timestamp DESC, rowid DESC. */
    method SelectLinked(x: External) returns (rows: seq<nat>)
      ensures IsResult(events, x, rows)
    {
      rows := [];
      var n := 0;
      while n < |events|
        invariant 0 <= n <= |events|
        invariant forall j | 0 <= j < |rows| :: rows[j] < n && events[rows[j]].linkedTo == Some(x)
        invariant forall i: nat | i < n && events[i].linkedTo == Some(x) :: i in rows
        invariant Sorted(events, rows)
      {
        if events[n].linkedTo == Some(x) {
          var k := PlaceFor(rows, n);
          SortedInsert(events, rows, n, k);
          rows := rows[..k] + [n] + rows[k..];
        }
        n := n + 1;
      }
    }

    /** One pass over the rows, newest first: the first delivery state, the count, the greatest row. */
    method LatestDeliverySnapshot(x: External) returns (status: Option<Status>, eventCount: nat, maxSequence: nat)
      ensures status == Derive(events, x)
      ensures eventCount == |Linked(events, x)|
      ensures maxSequence == MaxRow(events, x, |events|)
    {
      var rows := SelectLinked(x);
      status, maxSequence := None, 0;
      ghost var from: Option<nat> := None;
      var k := 0;
      while k < |rows|
        invariant 0 <= k <= |rows|
        invariant maxSequence <= |events| && (maxSequence > 0 ==> events[maxSequence - 1].linkedTo == Some(x))
        invariant forall j | 0 <= j < k :: rows[j] + 1 <= maxSequence
        invariant status.None? ==> from.None? && forall j | 0 <= j < k :: events[rows[j]].delivery.None?
        invariant status.Some? ==> from.Some? && from.value in rows && events[from.value].delivery == status
        invariant forall j | 0 <= j < |rows| && from.Some? && rows[j] != from.value
          && events[rows[j]].delivery.Some? :: Newer(events, from.value, rows[j])
      {
        var row := rows[k];
        if row + 1 > maxSequence { maxSequence := row + 1; }
        if status.None? && events[row].delivery.Some? {
          status := events[row].delivery;
          from := Some(row);
        }
        k := k + 1;
      }
      eventCount := |rows|;
      CountsTheRows(rows, Linked(events, x));
      MaxRowIs(events, x, maxSequence);
      LatestIsNewest(events, x, |events|);
    }

    /**
     * Up to three optimistic attempts. Between a snapshot and its update other
     * processes may append rows and link any of them: the event table becomes
     * the next one of those given. A status that is written is right at that
     * moment, and when all three attempts are overtaken nothing is written.
     */
    method RefreshDeliveryStatus(x: External, tables: seq<seq<EventRow>>) returns (status: Option<Status>)
      requires x in messages && |tables| == ATTEMPTS
      requires Extends(events, tables[0]) && forall k | 0 < k < ATTEMPTS :: Extends(tables[k - 1], tables[k])
      modifies this
      ensures status.Some? ==> status == Derive(events, x)
      ensures messages == if status.Some? then old(messages)[x := status.value] else old(messages)
      ensures events == old(events) || events in tables
      ensures status.None? ==> Derive(events, x).None? || events == tables[ATTEMPTS - 1]
    {
      var attempt := 0;
      while attempt < ATTEMPTS
        invariant attempt <= ATTEMPTS && messages == old(messages)
        invariant events == if attempt == 0 then old(events) else tables[attempt - 1]
      {
        var derived, eventCount, maxSequence := LatestDeliverySnapshot(x);
        if derived.None? { return None; }
        ghost var before := events;
        events := tables[attempt];
        var (t, changed) := UpdateStatus(Value(), x, derived.value, eventCount, maxSequence);
        if changed {
          LinkedGrows(before, events, x);
          SameCountSameSet(Linked(before, x), Linked(events, x));
          DeriveStable(before, events, x);
          messages := t.messages;
          return derived;
        }
        attempt := attempt + 1;
      }
      status := None;
    }
  }
}
