/** Properties of whole runs of event acceptance, cancellation and resumption. */
module AgentHistory {
  import opened Basics
  import opened Sql
  import opened AgentModel
  import opened AgentCommands
  import opened AgentRuns

  ghost predicate StepAt(dbs: seq<Db>, ls: seq<Label>, digest: Event -> string, i: nat)
    requires i < |ls| && |dbs| == |ls| + 1
  {
    Enabled(dbs[i], ls[i]) && dbs[i + 1] == Apply(dbs[i], ls[i], digest)
  }

  /** Any sequence of committed transactions, starting from any sound database. */
  ghost predicate IsRun(dbs: seq<Db>, ls: seq<Label>, digest: Event -> string) {
    |dbs| == |ls| + 1 && Inv(dbs[0]) && forall i :: 0 <= i < |ls| ==> StepAt(dbs, ls, digest, i)
  }

  lemma {:induction false} RunKeepsInv(dbs: seq<Db>, ls: seq<Label>, digest: Event -> string, i: nat)
    requires IsRun(dbs, ls, digest) && i < |dbs|
    ensures Inv(dbs[i])
  {
    if i > 0 {
      RunKeepsInv(dbs, ls, digest, i - 1);
      assert StepAt(dbs, ls, digest, i - 1);
      StepKeepsInv(dbs[i - 1], ls[i - 1], digest);
    }
  }

  // ---------------------------------------------------------------- sequences

  lemma {:induction false} EventsOfMembers(es: seq<Event>, a: Uuid, g: nat)
    ensures forall e :: e in EventsOf(es, a, g) <==> e in es && e.attemptId == a && e.generation == g
  {
    if |es| > 0 {
      var n := |es| - 1;
      EventsOfMembers(es[..n], a, g);
      assert es == es[..n] + [es[n]];
    }
  }

  /** Some accepted event of the attempt and generation carries this sequence. */
  ghost predicate Accepted(events: seq<Event>, a: Uuid, g: nat, s: int) {
    exists e :: e in events && e.attemptId == a && e.generation == g && e.sequence == s
  }

  /** In every reachable database the accepted sequences of each attempt and generation are exactly 1..n. */
  lemma SequencesAreOneToN(dbs: seq<Db>, ls: seq<Label>, digest: Event -> string, i: nat, a: Uuid, g: nat)
    requires IsRun(dbs, ls, digest) && i < |dbs| && a in dbs[i].attempts
    ensures var n := |EventsOf(dbs[i].events, a, g)|;
            && (forall s :: Accepted(dbs[i].events, a, g, s) <==> 1 <= s <= n)
            && (g == dbs[i].attempts[a].generation ==> n == dbs[i].attempts[a].eventSequence)
            && (g > dbs[i].attempts[a].generation ==> n == 0)
  {
    RunKeepsInv(dbs, ls, digest, i);
    var es := EventsOf(dbs[i].events, a, g);
    EventsOfMembers(dbs[i].events, a, g);
    assert Contiguous(es);
    forall s ensures Accepted(dbs[i].events, a, g, s) <==> 1 <= s <= |es| {
      if 1 <= s <= |es| {
        assert es[s - 1] in es && es[s - 1].sequence == s;
      }
    }
  }

  // ---------------------------------------------------------------- growth

  /** The log and the receipts only grow, and generations behind the current one are closed. */
  ghost predicate Grows(db: Db, v: Db) {
    && db.events <= v.events
    && (forall id :: id in db.receipts ==> id in v.receipts && v.receipts[id] == db.receipts[id])
    && (forall a :: a in db.attempts ==>
          a in v.attempts && v.attempts[a].runId == db.attempts[a].runId &&
          v.attempts[a].number == db.attempts[a].number &&
          v.attempts[a].generation >= db.attempts[a].generation)
    && (forall a, g: nat :: a in db.attempts && g < db.attempts[a].generation ==>
          EventsOf(v.events, a, g) == EventsOf(db.events, a, g))
  }

  lemma AppendGrows(db: Db, v: Db, e: Event, r: Receipt)
    requires v.events == db.events + [e] && e.id !in db.receipts && v.receipts == db.receipts[e.id := r]
    requires e.attemptId in db.attempts ==> e.generation == db.attempts[e.attemptId].generation
    requires forall a :: a in db.attempts ==>
      a in v.attempts && v.attempts[a].runId == db.attempts[a].runId &&
      v.attempts[a].number == db.attempts[a].number && v.attempts[a].generation == db.attempts[a].generation
    ensures Grows(db, v)
  {
    forall a: Uuid, g: nat | a in db.attempts && g < db.attempts[a].generation
      ensures EventsOf(v.events, a, g) == EventsOf(db.events, a, g)
    {
      EventsOfAppend(db.events, e, a, g);
    }
  }

  lemma CommittedGrows(db: Db, a: Attempt, e: Event, target: AttemptState, now: Time)
    requires EventsOk(db) && FindEvent(db.events, e.id).None? && a.runId in db.runs
    requires e.attemptId in db.attempts && a == db.attempts[e.attemptId] && a.id == e.attemptId
    requires e.generation == a.generation
    ensures Grows(db, Committed(db, a, e, target, now))
  {
    var v := Committed(db, a, e, target, now);
    AppendGrows(db, v, e, v.receipts[e.id]);
  }

  lemma AcceptGrows(db: Db, e: Event, now: Time, digest: Event -> string)
    requires AttemptsOk(db) && EventsOk(db)
    ensures Grows(db, Accept(db, e, now, digest).0)
  {
    var v := Accept(db, e, now, digest).0;
    if v.events != db.events {
      assert AttemptOk(db, e.attemptId);
      CommittedGrows(db, db.attempts[e.attemptId], e, EventTarget(e.body).value, now);
    } else {
      AcceptKeepsWithoutEvent(db, e, now, digest);
    }
  }

  lemma AcceptKeepsWithoutEvent(db: Db, e: Event, now: Time, digest: Event -> string)
    requires Accept(db, e, now, digest).0.events == db.events
    ensures Facts(Accept(db, e, now, digest).0) == Facts(db)
  {
    assert |db.events + [e]| == |db.events| + 1;
  }

  lemma ControlGrows(db: Db, v: Db, id: Uuid)
    requires v.events == db.events && v.receipts == db.receipts
    requires v == db || (id in db.attempts && v.attempts.Keys == db.attempts.Keys)
    requires forall a :: a in db.attempts && a != id ==> a in v.attempts && v.attempts[a] == db.attempts[a]
    requires id in db.attempts ==>
      var a, b := db.attempts[id], v.attempts[id];
      b.runId == a.runId && b.number == a.number && b.generation >= a.generation
    ensures Grows(db, v)
  {}

  lemma CancelGrows(db: Db, l: Label, digest: Event -> string)
    requires AttemptsOk(db) && l.CancelAttempt?
    ensures Grows(db, Apply(db, l, digest))
  {
    var v := Apply(db, l, digest);
    CancelShape(db, l);
    if Facts(v) == Facts(db) {
      assert v.events == db.events && v.receipts == db.receipts && v.attempts == db.attempts;
    } else {
      ControlGrows(db, v, l.attemptId);
    }
  }

  lemma ResumeGrows(db: Db, l: Label, digest: Event -> string)
    requires AttemptsOk(db) && l.ResumeAttempt?
    ensures Grows(db, Apply(db, l, digest))
  {
    if l.attemptId in db.attempts { assert AttemptOk(db, l.attemptId); }
    ControlGrows(db, Apply(db, l, digest), l.attemptId);
  }

  lemma StepGrows(db: Db, l: Label, digest: Event -> string)
    requires Inv(db) && Enabled(db, l)
    ensures Grows(db, Apply(db, l, digest))
  {
    match l
    case StartRun(_, _, _, _, _) =>
      var v := Apply(db, l, digest);
      var e := v.events[|db.events|];
      AppendGrows(db, v, e, v.receipts[e.id]);
    case AcceptEvent(e, now) => AcceptGrows(db, e, now, digest);
    case CancelAttempt(_, _, _, _, _) => CancelGrows(db, l, digest);
    case ResumeAttempt(_, _, _, _, _, _, _) => ResumeGrows(db, l, digest);
  }

  lemma GrowsTransitive(a: Db, b: Db, c: Db)
    requires Grows(a, b) && Grows(b, c)
    ensures Grows(a, c)
  {}

  lemma RunStepGrows(dbs: seq<Db>, ls: seq<Label>, digest: Event -> string, i: nat)
    requires IsRun(dbs, ls, digest) && i < |ls|
    ensures Grows(dbs[i], dbs[i + 1])
  {
    RunKeepsInv(dbs, ls, digest, i);
    assert StepAt(dbs, ls, digest, i);
    StepGrows(dbs[i], ls[i], digest);
  }

  lemma {:induction false} RunGrows(dbs: seq<Db>, ls: seq<Label>, digest: Event -> string, i: nat, j: nat)
    requires IsRun(dbs, ls, digest) && i <= j < |dbs|
    ensures Grows(dbs[i], dbs[j])
  {
    if i < j {
      RunGrows(dbs, ls, digest, i, j - 1);
      RunStepGrows(dbs, ls, digest, j - 1);
      GrowsTransitive(dbs[i], dbs[j - 1], dbs[j]);
    }
  }

  /** Once an attempt has moved to a later generation, no event of an earlier one is ever added. */
  lemma OldGenerationsAreFrozen(dbs: seq<Db>, ls: seq<Label>, digest: Event -> string, i: nat, j: nat, a: Uuid, g: nat)
    requires IsRun(dbs, ls, digest) && i <= j < |dbs|
    requires a in dbs[i].attempts && g < dbs[i].attempts[a].generation
    ensures EventsOf(dbs[j].events, a, g) == EventsOf(dbs[i].events, a, g)
  {
    RunGrows(dbs, ls, digest, i, j);
  }

  // ---------------------------------------------------------------- replay

  lemma FindsThe(events: seq<Event>, e: Event)
    requires e in events
    requires forall i, j :: 0 <= i < j < |events| ==> events[i].id != events[j].id
    ensures FindEvent(events, e.id) == Some(e)
  {
    var found := FindEvent(events, e.id);
    var i :| 0 <= i < |events| && events[i] == e;
    var j :| 0 <= j < |events| && events[j] == found.value;
    assert i == j;
  }

  /** The database holds this acceptance of `e`. */
  ghost predicate Recorded(db: Db, e: Event, first: Acceptance, digest: Event -> string) {
    && WellFormed(e) && first.event in db.events && first.event.id == e.id && digest(first.event) == digest(e)
    && e.id in db.receipts && db.receipts[e.id] == Receipt(first.attempt, first.checkpoint)
  }

  /** An acceptance, new or replayed, leaves its event and its receipt behind. */
  lemma AcceptanceIsRecorded(db: Db, e: Event, now: Time, digest: Event -> string)
    requires Accept(db, e, now, digest).1.Ok?
    ensures var (v, r) := Accept(db, e, now, digest); Recorded(v, e, r.value, digest)
  {
    var v := Accept(db, e, now, digest).0;
    if FindEvent(db.events, e.id).None? {
      assert v.events[|db.events|] == e;
    }
  }

  lemma RecordsSurvive(db: Db, v: Db, e: Event, first: Acceptance, digest: Event -> string)
    requires Grows(db, v) && Recorded(db, e, first, digest)
    ensures Recorded(v, e, first, digest)
  {
    var k :| 0 <= k < |db.events| && db.events[k] == first.event;
    assert v.events[k] == first.event;
  }

  /** A sound database that holds an acceptance answers with it, and stays as it is. */
  lemma RecordedAcceptanceReplays(db: Db, e: Event, first: Acceptance, later: Time, digest: Event -> string)
    requires Inv(db) && Recorded(db, e, first, digest)
    ensures Accept(db, e, later, digest) == (db, Ok(first))
  {
    FindsThe(db.events, first.event);
    var k :| 0 <= k < |db.events| && db.events[k] == first.event;
    assert EventOk(db, db.events[k]);
    assert AttemptOk(db, first.event.attemptId);
  }

  /** Redelivering an accepted event, after anything that happened since, returns the original and changes nothing. */
  lemma RedeliveryReturnsOriginal(dbs: seq<Db>, ls: seq<Label>, digest: Event -> string, i: nat, j: nat,
                                  first: Acceptance, later: Time)
    requires IsRun(dbs, ls, digest) && i < j < |dbs| && ls[i].AcceptEvent?
    requires Accept(dbs[i], ls[i].event, ls[i].now, digest).1 == Ok(first)
    ensures Accept(dbs[j], ls[i].event, later, digest) == (dbs[j], Ok(first))
  {
    assert Recorded(dbs[i + 1], ls[i].event, first, digest) by {
      assert StepAt(dbs, ls, digest, i);
      AcceptanceIsRecorded(dbs[i], ls[i].event, ls[i].now, digest);
    }
    RunGrows(dbs, ls, digest, i + 1, j);
    RecordsSurvive(dbs[i + 1], dbs[j], ls[i].event, first, digest);
    RunKeepsInv(dbs, ls, digest, j);
    RecordedAcceptanceReplays(dbs[j], ls[i].event, first, later, digest);
  }

  /** A refused event changes no agent fact; only a stale generation leaves a trace, one audit entry. */
  lemma RefusalLeavesFacts(db: Db, e: Event, now: Time, digest: Event -> string)
    requires Accept(db, e, now, digest).1.Err?
    ensures var (v, r) := Accept(db, e, now, digest);
            && Facts(v) == Facts(db)
            && (r.error != StaleGeneration ==> v == db)
            && (r.error == StaleGeneration ==>
                  |v.audit| == |db.audit| + 1 && db.audit <= v.audit)
  {}

  /** A new WAITING_INPUT event must carry its question; this is checked before the generation. */
  predicate HasQuestion(e: Event) { e.body.WaitingBody? ==> e.body.question.Some? }

  /** A new event is refused as stale, with exactly one audit entry, if and only if it is of another generation and
      lacks no question; without its question it is refused for that, and leaves no trace. */
  lemma OtherGenerationsAreStale(db: Db, e: Event, now: Time, digest: Event -> string)
    requires Inv(db) && WellFormed(e) && FindEvent(db.events, e.id).None? && e.attemptId in db.attempts
    ensures var (v, r) := Accept(db, e, now, digest);
            && (r == Err(StaleGeneration) <==> e.generation != db.attempts[e.attemptId].generation && HasQuestion(e))
            && (r == Err(StaleGeneration) ==>
                  v == db.(audit := db.audit + [Audit(StaleGenerationRejected, e.attemptId, None, now)]))
            && (!HasQuestion(e) ==> v == db && r == Err(QuestionRequired))
  {
    assert AttemptOk(db, e.attemptId);
  }

  // ---------------------------------------------------------------- revisions and control

  /** The step mutated the attempt: it accepted a new event, resumed it, or effectively canceled it. */
  ghost predicate Mutates(db: Db, l: Label, digest: Event -> string, a: Uuid) {
    match l
    case StartRun(_, _, _, _, _) => false
    case AcceptEvent(e, now) =>
      e.attemptId == a && FindEvent(db.events, e.id).None? && Accept(db, e, now, digest).1.Ok?
    case CancelAttempt(r, id, rev, c, now) =>
      id == a && Cancel(db, r, id, rev, c, now).1.Ok? && Cancel(db, r, id, rev, c, now).1.value.command.Some?
    case ResumeAttempt(r, id, rev, c, first, now, p) => id == a && Resume(db, r, id, rev, c, first, now, p).1.Ok?
  }

  lemma AcceptRevision(db: Db, l: Label, digest: Event -> string, a: Uuid)
    requires AttemptsOk(db) && l.AcceptEvent? && a in db.attempts
    ensures a in Apply(db, l, digest).attempts
    ensures Apply(db, l, digest).attempts[a].revision == db.attempts[a].revision + Bit(Mutates(db, l, digest, a))
    ensures !Mutates(db, l, digest, a) ==> Apply(db, l, digest).attempts[a] == db.attempts[a]
  {
    if l.event.attemptId in db.attempts { assert AttemptOk(db, l.event.attemptId); }
  }

  lemma CancelRevision(db: Db, l: Label, digest: Event -> string, a: Uuid)
    requires AttemptsOk(db) && l.CancelAttempt? && a in db.attempts
    ensures a in Apply(db, l, digest).attempts
    ensures Apply(db, l, digest).attempts[a].revision == db.attempts[a].revision + Bit(Mutates(db, l, digest, a))
    ensures Mutates(db, l, digest, a) ==> l.expected == db.attempts[a].revision
    ensures !Mutates(db, l, digest, a) ==> Apply(db, l, digest).attempts[a] == db.attempts[a]
  {
    if l.attemptId in db.attempts { assert AttemptOk(db, l.attemptId); }
  }

  lemma ResumeRevision(db: Db, l: Label, digest: Event -> string, a: Uuid)
    requires AttemptsOk(db) && l.ResumeAttempt? && a in db.attempts
    ensures a in Apply(db, l, digest).attempts
    ensures Apply(db, l, digest).attempts[a].revision == db.attempts[a].revision + Bit(Mutates(db, l, digest, a))
    ensures Mutates(db, l, digest, a) ==> l.expected == db.attempts[a].revision
    ensures !Mutates(db, l, digest, a) ==> Apply(db, l, digest).attempts[a] == db.attempts[a]
  {
    if l.attemptId in db.attempts { assert AttemptOk(db, l.attemptId); }
  }

  /** A control command mutates only at the expected revision, and then raises it by one. */
  lemma ControlRevision(db: Db, l: Label, digest: Event -> string, a: Uuid)
    requires AttemptsOk(db) && (l.CancelAttempt? || l.ResumeAttempt?) && a in db.attempts
    ensures a in Apply(db, l, digest).attempts
    ensures Apply(db, l, digest).attempts[a].revision == db.attempts[a].revision + Bit(Mutates(db, l, digest, a))
    ensures Mutates(db, l, digest, a) ==> l.expected == db.attempts[a].revision
    ensures !Mutates(db, l, digest, a) ==> Apply(db, l, digest).attempts[a] == db.attempts[a]
  {
    if l.CancelAttempt? { CancelRevision(db, l, digest, a); } else { ResumeRevision(db, l, digest, a); }
  }

  lemma RevisionStep(db: Db, l: Label, digest: Event -> string, a: Uuid)
    requires Inv(db) && Enabled(db, l) && a in db.attempts
    ensures a in Apply(db, l, digest).attempts
    ensures Apply(db, l, digest).attempts[a].revision == db.attempts[a].revision + Bit(Mutates(db, l, digest, a))
    ensures !Mutates(db, l, digest, a) ==> Apply(db, l, digest).attempts[a] == db.attempts[a]
  {
    if l.AcceptEvent? {
      AcceptRevision(db, l, digest, a);
    } else if !l.StartRun? {
      ControlRevision(db, l, digest, a);
    }
  }

  ghost function Mutations(dbs: seq<Db>, ls: seq<Label>, digest: Event -> string, a: Uuid, i: nat, j: nat): nat
    requires i <= j < |dbs| == |ls| + 1
  {
    if i == j then 0
    else Mutations(dbs, ls, digest, a, i, j - 1) + Bit(Mutates(dbs[j - 1], ls[j - 1], digest, a))
  }

  /** The revision counts exactly the accepted events, resumes and effective cancels. */
  lemma {:induction false} RevisionCountsMutations(dbs: seq<Db>, ls: seq<Label>, digest: Event -> string, a: Uuid,
      i: nat, j: nat)
    requires IsRun(dbs, ls, digest) && i <= j < |dbs| && a in dbs[i].attempts
    ensures a in dbs[j].attempts
    ensures dbs[j].attempts[a].revision == dbs[i].attempts[a].revision + Mutations(dbs, ls, digest, a, i, j)
  {
    if i < j {
      RevisionCountsMutations(dbs, ls, digest, a, i, j - 1);
      RunKeepsInv(dbs, ls, digest, j - 1);
      assert StepAt(dbs, ls, digest, j - 1);
      RevisionStep(dbs[j - 1], ls[j - 1], digest, a);
    }
  }

  ghost predicate MutatingControl(db: Db, l: Label, digest: Event -> string, a: Uuid) {
    (l.CancelAttempt? || l.ResumeAttempt?) && a in db.attempts && Mutates(db, l, digest, a)
  }

  lemma ControlRevisionInRun(dbs: seq<Db>, ls: seq<Label>, digest: Event -> string, a: Uuid, i: nat)
    requires IsRun(dbs, ls, digest) && i < |ls| && MutatingControl(dbs[i], ls[i], digest, a)
    ensures a in dbs[i + 1].attempts
    ensures ls[i].expected == dbs[i].attempts[a].revision < dbs[i + 1].attempts[a].revision
  {
    RunKeepsInv(dbs, ls, digest, i);
    assert StepAt(dbs, ls, digest, i);
    ControlRevision(dbs[i], ls[i], digest, a);
  }

  /** At most one mutating control command succeeds per attempt and revision. */
  lemma OneControlPerRevision(dbs: seq<Db>, ls: seq<Label>, digest: Event -> string, a: Uuid, i: nat, j: nat)
    requires IsRun(dbs, ls, digest) && i < j < |ls|
    requires MutatingControl(dbs[i], ls[i], digest, a) && MutatingControl(dbs[j], ls[j], digest, a)
    ensures ls[i].expected < ls[j].expected
  {
    ControlRevisionInRun(dbs, ls, digest, a, i);
    RevisionCountsMutations(dbs, ls, digest, a, i + 1, j);
    ControlRevisionInRun(dbs, ls, digest, a, j);
  }

  /** A run ends exactly when its one attempt does, and in the same way. */
  lemma RunsMirrorAttempts(dbs: seq<Db>, ls: seq<Label>, digest: Event -> string, i: nat, a: Uuid)
    requires IsRun(dbs, ls, digest) && i < |dbs| && a in dbs[i].attempts
    ensures var t := dbs[i].attempts[a];
            && t.runId in dbs[i].runs && t.fence == Fence(a, t.generation)
            && match dbs[i].runs[t.runId].state
               case RunSucceeded => t.state == Succeeded
               case RunFailed => t.state == Failed
               case RunCanceled => t.state == Canceled
               case RunTimedOut => t.state == TimedOut
               case Active =>
                 t.state != Succeeded && t.state != Failed && t.state != Canceled && t.state != TimedOut
  {
    RunKeepsInv(dbs, ls, digest, i);
    assert AttemptOk(dbs[i], a);
  }
}
