/** The acceptance log of a run, row by row, and why there is only one. */
module AcceptanceLog {
  import opened Sql
  import opened AgentModel

  /** The first event was accepted before the second. */
  ghost predicate Before(x: Event, y: Event, events: seq<Event>) {
    exists p, q :: 0 <= p < q < |events| && events[p] == x && events[q] == y
  }

  ghost predicate InOrder(log: seq<Event>, events: seq<Event>) {
    forall i, j :: 0 <= i < j < |log| ==> Before(log[i], log[j], events)
  }

  /** The events whose attempt row belongs to the run, and no others, in the order of their acceptance. */
  ghost predicate IsRunLog(log: seq<Event>, db: Db, runId: Uuid) {
    && (forall e :: e in log <==>
          e in db.events && e.attemptId in db.attempts && db.attempts[e.attemptId].runId == runId)
    && InOrder(log, db.events)
  }

  ghost predicate IsPrefixOfLog(read: seq<Event>, db: Db, runId: Uuid) {
    exists log :: IsRunLog(log, db, runId) && read <= log
  }

  ghost predicate Distinct(events: seq<Event>) {
    forall i, j :: 0 <= i < j < |events| ==> events[i].id != events[j].id
  }

  lemma NothingAfterLast(x: Event, y: Event, events: seq<Event>)
    requires events != [] && Distinct(events) && Before(x, y, events)
    ensures x != events[|events| - 1] && x != y
  {
    var p, q :| 0 <= p < q < |events| && events[p] == x && events[q] == y;
    assert p < |events| - 1;
  }

  lemma BeforeWithoutLast(x: Event, y: Event, events: seq<Event>)
    requires events != [] && Before(x, y, events) && y != events[|events| - 1]
    ensures Before(x, y, events[..|events| - 1])
  {
    var n := |events| - 1;
    var p, q :| 0 <= p < q < |events| && events[p] == x && events[q] == y;
    assert q < n;
    assert events[..n][p] == x && events[..n][q] == y;
  }

  lemma BeforeWithMore(x: Event, y: Event, events: seq<Event>, e: Event)
    requires Before(x, y, events)
    ensures Before(x, y, events + [e])
  {
    var p, q :| 0 <= p < q < |events| && events[p] == x && events[q] == y;
    assert (events + [e])[p] == x && (events + [e])[q] == y;
  }

  lemma BeforeTheNew(x: Event, events: seq<Event>, e: Event)
    requires x in events
    ensures Before(x, e, events + [e])
  {
    var p :| 0 <= p < |events| && events[p] == x;
    assert (events + [e])[p] == x && (events + [e])[|events|] == e;
  }

  /** The last event comes last in an ordered selection, and only there. */
  lemma LastComesLast(log: seq<Event>, events: seq<Event>)
    requires events != [] && Distinct(events) && InOrder(log, events) && events[|events| - 1] in log
    ensures log[|log| - 1] == events[|events| - 1]
    ensures events[|events| - 1] !in log[..|log| - 1]
  {
    forall i | 0 <= i < |log| - 1 ensures log[i] != events[|events| - 1] {
      assert Before(log[i], log[|log| - 1], events);
      NothingAfterLast(log[i], log[|log| - 1], events);
    }
    var k :| 0 <= k < |log| && log[k] == events[|events| - 1];
  }

  /** An ordered selection without the last event is one from the events before. */
  lemma InOrderBefore(log: seq<Event>, events: seq<Event>)
    requires events != [] && InOrder(log, events) && events[|events| - 1] !in log
    ensures InOrder(log, events[..|events| - 1])
  {
    forall i, j | 0 <= i < j < |log| ensures Before(log[i], log[j], events[..|events| - 1]) {
      assert log[j] in log;
      BeforeWithoutLast(log[i], log[j], events);
    }
  }

  lemma InOrderFront(log: seq<Event>, events: seq<Event>)
    requires InOrder(log, events) && log != []
    ensures InOrder(log[..|log| - 1], events)
  {}

  lemma SplitLast(log: seq<Event>, e: Event)
    requires log != [] && log[|log| - 1] == e && e !in log[..|log| - 1]
    ensures forall x :: x in log[..|log| - 1] <==> x in log && x != e
  {
    assert log == log[..|log| - 1] + [e];
  }

  /** Selections with the same members in the same order are equal. */
  lemma {:induction false} SameSelection(a: seq<Event>, b: seq<Event>, events: seq<Event>)
    requires Distinct(events) && InOrder(a, events) && InOrder(b, events)
    requires forall e :: e in a <==> e in b
    requires forall e :: e in a ==> e in events
    ensures a == b
    decreases |events|
  {
    if events == [] {
      MembersNeedEvents(a, events);
      MembersNeedEvents(b, events);
    } else {
      var n := |events| - 1;
      var last := events[n];
      SplitMembers(events);
      if last in a {
        LastComesLast(a, events);
        LastComesLast(b, events);
        SplitLast(a, last);
        SplitLast(b, last);
        var x, y := a[..|a| - 1], b[..|b| - 1];
        InOrderFront(a, events);
        InOrderFront(b, events);
        InOrderBefore(x, events);
        InOrderBefore(y, events);
        forall e ensures e in x <==> e in y { assert e in a <==> e in b; }
        forall e | e in x ensures e in events[..n] { assert e in a; }
        SameSelection(x, y, events[..n]);
        assert a == x + [last] && b == y + [last];
      } else {
        InOrderBefore(a, events);
        InOrderBefore(b, events);
        SameSelection(a, b, events[..n]);
      }
    }
  }

  lemma SplitMembers(events: seq<Event>)
    requires events != []
    ensures forall e :: e in events ==> e == events[|events| - 1] || e in events[..|events| - 1]
  {
    assert events == events[..|events| - 1] + [events[|events| - 1]];
  }

  lemma MembersNeedEvents(s: seq<Event>, events: seq<Event>)
    requires forall e :: e in s ==> e in events
    ensures |s| > 0 ==> |events| > 0
  {
    if |s| > 0 {
      assert s[0] in s;
      var k :| 0 <= k < |events| && events[k] == s[0];
    }
  }

  /** A run has at most one acceptance log. */
  lemma LogIsUnique(a: seq<Event>, b: seq<Event>, db: Db, runId: Uuid)
    requires Distinct(db.events) && IsRunLog(a, db, runId) && IsRunLog(b, db, runId)
    ensures a == b
  {
    SameSelection(a, b, db.events);
  }
}
