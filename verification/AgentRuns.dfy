/** What every reachable agent database satisfies, and what holds along whole runs. */
module AgentRuns {
  import opened Sql
  import opened AgentModel
  import opened AgentCommands

  // ---------------------------------------------------------------- invariant

  /** One attempt per run, named by its own fence; the run mirrors the attempt's terminal state. */
  ghost predicate AttemptOk(db: Db, id: Uuid)
    requires id in db.attempts
  {
    var a := db.attempts[id];
    && a.id == id && a.number == 1 && a.generation >= 1 && a.fence == Fence(id, a.generation)
    && a.runId in db.runs && db.runs[a.runId].id == a.runId && db.runs[a.runId].latestAttemptId == id
    && db.runs[a.runId].state == RunStateOf(a.state)
    && (a.state == WaitingInput ==> a.checkpoint.Some? && a.waitingDeadline.Some?)
  }

  ghost predicate AttemptsOk(db: Db) {
    forall id :: id in db.attempts ==> AttemptOk(db, id)
  }

  /** The event lies at or before its attempt's current position. */
  ghost predicate EventOk(db: Db, e: Event) {
    && e.attemptId in db.attempts && e.sequence >= 1
    && e.generation <= db.attempts[e.attemptId].generation
    && (e.generation == db.attempts[e.attemptId].generation ==>
          e.sequence <= db.attempts[e.attemptId].eventSequence)
  }

  predicate PositionLess(d: Event, e: Event) {
    d.generation < e.generation || (d.generation == e.generation && d.sequence < e.sequence)
  }

  ghost predicate EventsOk(db: Db) {
    && (forall i :: 0 <= i < |db.events| ==> EventOk(db, db.events[i]))
    && (forall i, j :: 0 <= i < j < |db.events| ==> db.events[i].id != db.events[j].id)
    && (forall i, j :: 0 <= i < j < |db.events| && db.events[i].attemptId == db.events[j].attemptId ==>
          PositionLess(db.events[i], db.events[j]))
    && (forall id :: id in db.receipts ==> FindEvent(db.events, id).Some?)
  }

  ghost predicate Contiguous(es: seq<Event>) {
    forall k :: 0 <= k < |es| ==> es[k].sequence == k + 1
  }

  /** Accepted sequences are 1..n in every generation, and n is the attempt's counter in the current one. */
  ghost predicate SequencesOk(db: Db) {
    && (forall a, g :: a in db.attempts ==> Contiguous(EventsOf(db.events, a, g)))
    && (forall a :: a in db.attempts ==>
          |EventsOf(db.events, a, db.attempts[a].generation)| == db.attempts[a].eventSequence)
    && (forall a, g :: a in db.attempts && g > db.attempts[a].generation ==> EventsOf(db.events, a, g) == [])
  }

  ghost predicate CommandOk(db: Db, k: CommandKey) {
    && k.attemptId in db.attempts
    && match k.kind
       case StartKind => k.generation == 1
       case ResumeKind => 2 <= k.generation <= db.attempts[k.attemptId].generation
       case CancelKind =>
         && k.generation == db.attempts[k.attemptId].generation
         && CancelRequestedIn(db.attempts[k.attemptId].state)
  }

  ghost predicate CommandsOk(db: Db) {
    && (forall c :: c in db.commands ==> CommandOk(db, db.commands[c]))
    && (forall c, d :: c in db.commands && d in db.commands && db.commands[c] == db.commands[d] ==> c == d)
  }

  ghost predicate Inv(db: Db) {
    AttemptsOk(db) && EventsOk(db) && SequencesOk(db) && CommandsOk(db)
  }

  lemma EmptyIsSound()
    ensures Inv(Db(map[], map[], map[], [], map[], map[], map[], []))
  {}

  // ---------------------------------------------------------------- steps

  datatype Label =
    | StartRun(ids: StartIds, workspaceId: Uuid, context: BusinessContext, bindingDigest: string, now: Time)
    | AcceptEvent(event: Event, now: Time)
    | CancelAttempt(runId: Uuid, attemptId: Uuid, expected: nat, commandId: Uuid, now: Time)
    | ResumeAttempt(runId: Uuid, attemptId: Uuid, expected: nat, commandId: Uuid,
                    first: Time, now: Time, protection: Protection)

  predicate Enabled(db: Db, l: Label) {
    match l
    case StartRun(ids, _, _, _, _) => FreshIds(db, ids)
    case AcceptEvent(_, _) => true
    case CancelAttempt(_, _, _, commandId, _) => commandId !in db.commands
    case ResumeAttempt(_, _, _, commandId, _, _, _) => commandId !in db.commands
  }

  function Apply(db: Db, l: Label, digest: Event -> string): Db {
    match l
    case StartRun(ids, w, c, d, now) => Start(db, ids, w, c, d, now)
    case AcceptEvent(e, now) => Accept(db, e, now, digest).0
    case CancelAttempt(r, a, rev, c, now) => Cancel(db, r, a, rev, c, now).0
    case ResumeAttempt(r, a, rev, c, first, now, p) => Resume(db, r, a, rev, c, first, now, p).0
  }

  lemma EventsOfAppend(es: seq<Event>, e: Event, a: Uuid, g: nat)
    ensures EventsOf(es + [e], a, g) ==
            if e.attemptId == a && e.generation == g then EventsOf(es, a, g) + [e] else EventsOf(es, a, g)
  {
    assert (es + [e])[..|es|] == es;
  }

  lemma FindAppend(es: seq<Event>, e: Event, id: Uuid)
    ensures FindEvent(es + [e], id) == if e.id == id then Some(e) else FindEvent(es, id)
  {
    assert (es + [e])[..|es|] == es;
  }

  lemma {:induction false} NoEvents(es: seq<Event>, a: Uuid, g: nat)
    requires forall i :: 0 <= i < |es| ==> es[i].attemptId != a
    ensures EventsOf(es, a, g) == []
  {
    if |es| > 0 { NoEvents(es[..|es| - 1], a, g); }
  }

  /** Appending one event to the log of an attempt whose row moves to that event's position. */
  lemma AppendKeepsEvents(db: Db, v: Db, e: Event)
    requires EventsOk(db) && FindEvent(db.events, e.id).None?
    requires v.events == db.events + [e] && v.receipts.Keys == db.receipts.Keys + {e.id}
    requires forall a :: a in db.attempts && a != e.attemptId ==> a in v.attempts && v.attempts[a] == db.attempts[a]
    requires e.attemptId in v.attempts && e.sequence >= 1
    requires (v.attempts[e.attemptId].generation, v.attempts[e.attemptId].eventSequence) == (e.generation, e.sequence)
    requires e.attemptId in db.attempts ==>
      (db.attempts[e.attemptId].generation, db.attempts[e.attemptId].eventSequence + 1) == (e.generation, e.sequence)
    ensures EventsOk(v)
  {
    forall i | 0 <= i < |v.events| ensures EventOk(v, v.events[i]) {
      if i < |db.events| { assert EventOk(db, db.events[i]); }
    }
    forall i, j | 0 <= i < j < |v.events|
      ensures v.events[i].id != v.events[j].id
      ensures v.events[i].attemptId == v.events[j].attemptId ==> PositionLess(v.events[i], v.events[j])
    {
      assert v.events[i] == db.events[i] && EventOk(db, db.events[i]);
      if j == |db.events| { assert db.events[i] in db.events; }
    }
    forall id | id in v.receipts ensures FindEvent(v.events, id).Some? { FindAppend(db.events, e, id); }
  }

  lemma AppendKeepsSequences(db: Db, v: Db, e: Event)
    requires SequencesOk(db) && EventsOk(db)
    requires v.events == db.events + [e] && v.attempts.Keys == db.attempts.Keys + {e.attemptId}
    requires forall a :: a in db.attempts && a != e.attemptId ==> v.attempts[a] == db.attempts[a]
    requires (v.attempts[e.attemptId].generation, v.attempts[e.attemptId].eventSequence) == (e.generation, e.sequence)
    requires e.attemptId in db.attempts ==>
      (db.attempts[e.attemptId].generation, db.attempts[e.attemptId].eventSequence + 1) == (e.generation, e.sequence)
    requires e.attemptId !in db.attempts ==> e.sequence == 1
    ensures SequencesOk(v)
  {
    forall a: Uuid, g: nat | a in v.attempts
      ensures Contiguous(EventsOf(v.events, a, g))
      ensures g == v.attempts[a].generation ==> |EventsOf(v.events, a, g)| == v.attempts[a].eventSequence
      ensures g > v.attempts[a].generation ==> EventsOf(v.events, a, g) == []
    {
      EventsOfAppend(db.events, e, a, g);
      if a !in db.attempts {
        forall i | 0 <= i < |db.events| ensures db.events[i].attemptId != a { assert EventOk(db, db.events[i]); }
        NoEvents(db.events, a, g);
      }
    }
  }

  /** Every attempt row but one, and every run but that attempt's, stays as it is. */
  lemma AttemptsKept(db: Db, v: Db, id: Uuid)
    requires AttemptsOk(db) && id in v.attempts && AttemptOk(v, id)
    requires v.attempts.Keys == db.attempts.Keys + {id}
    requires forall a :: a in db.attempts && a != id ==> v.attempts[a] == db.attempts[a]
    requires forall r :: r in db.runs && r != v.attempts[id].runId ==> r in v.runs && v.runs[r] == db.runs[r]
    requires forall a :: a in db.attempts && a != id ==> db.attempts[a].runId != v.attempts[id].runId
    ensures AttemptsOk(v)
  {
    forall a | a in v.attempts ensures AttemptOk(v, a) {
      if a != id { assert AttemptOk(db, a); }
    }
  }

  /** Two attempts never share a run. */
  lemma RunsAreNotShared(db: Db, id: Uuid)
    requires AttemptsOk(db) && id in db.attempts
    ensures AttemptOk(db, id)
    ensures forall a :: a in db.attempts && a != id ==> db.attempts[a].runId != db.attempts[id].runId
  {
    forall a | a in db.attempts && a != id ensures db.attempts[a].runId != db.attempts[id].runId {
      assert AttemptOk(db, a);
    }
  }

  /** The attempt moved on without falling back, and no cancellation was pending unless the state stays canceled. */
  ghost predicate MovesOn(a: Attempt, b: Attempt) {
    && a.generation <= b.generation
    && (CancelRequestedIn(a.state) ==>
          b.generation == a.generation && CancelRequestedIn(b.state))
  }

  lemma CommandsKept(db: Db, v: Db)
    requires CommandsOk(db) && v.commands == db.commands
    requires forall a :: a in db.attempts ==> a in v.attempts && MovesOn(db.attempts[a], v.attempts[a])
    ensures CommandsOk(v)
  {
    forall c | c in v.commands ensures CommandOk(v, v.commands[c]) { assert CommandOk(db, db.commands[c]); }
  }

  lemma CommandFiled(db: Db, v: Db, commandId: Uuid, key: CommandKey)
    requires CommandsOk(db) && commandId !in db.commands && v.commands == db.commands[commandId := key]
    requires forall a :: a in db.attempts ==> a in v.attempts && MovesOn(db.attempts[a], v.attempts[a])
    requires CommandOk(v, key) && forall c :: c in db.commands ==> db.commands[c] != key
    ensures CommandsOk(v)
  {
    forall c | c in v.commands ensures CommandOk(v, v.commands[c]) {
      if c != commandId { assert CommandOk(db, db.commands[c]); }
    }
  }

  /** The log is untouched; one attempt may have opened its next, still empty, generation. */
  lemma EventsKept(db: Db, v: Db)
    requires EventsOk(db) && SequencesOk(db)
    requires v.events == db.events && v.receipts == db.receipts && v.attempts.Keys == db.attempts.Keys
    requires forall a :: a in db.attempts ==>
      var n, m := db.attempts[a], v.attempts[a];
      || (m.generation == n.generation && m.eventSequence == n.eventSequence)
      || (m.generation == n.generation + 1 && m.eventSequence == 0)
    ensures EventsOk(v) && SequencesOk(v)
  {
    forall i | 0 <= i < |v.events| ensures EventOk(v, v.events[i]) { assert EventOk(db, db.events[i]); }
    forall a | a in v.attempts
      ensures |EventsOf(v.events, a, v.attempts[a].generation)| == v.attempts[a].eventSequence
    {
      assert EventsOf(db.events, a, db.attempts[a].generation + 1) == [];
    }
  }

  lemma AuditIsIrrelevant(db: Db, v: Db)
    requires Inv(db) && Facts(v) == Facts(db)
    ensures Inv(v)
  {
    assert v.attempts == db.attempts && v.runs == db.runs && v.commands == db.commands;
    assert v.events == db.events && v.receipts == db.receipts;
    forall id | id in v.attempts ensures AttemptOk(v, id) { assert AttemptOk(db, id); }
    EventsKept(db, v);
    CommandsKept(db, v);
  }

  lemma StartKeepsAttempts(db: Db, l: Label, digest: Event -> string)
    requires AttemptsOk(db) && l.StartRun? && Enabled(db, l)
    ensures AttemptsOk(Apply(db, l, digest))
  {
    var v := Apply(db, l, digest);
    forall a | a in db.attempts ensures db.attempts[a].runId != l.ids.run { assert AttemptOk(db, a); }
    assert AttemptOk(v, l.ids.attempt);
    AttemptsKept(db, v, l.ids.attempt);
  }

  lemma StartKeepsLog(db: Db, l: Label, digest: Event -> string)
    requires EventsOk(db) && SequencesOk(db) && l.StartRun? && Enabled(db, l)
    ensures EventsOk(Apply(db, l, digest)) && SequencesOk(Apply(db, l, digest))
  {
    var v := Apply(db, l, digest);
    var e := v.events[|db.events|];
    AppendKeepsEvents(db, v, e);
    AppendKeepsSequences(db, v, e);
  }

  lemma StartKeepsCommands(db: Db, l: Label, digest: Event -> string)
    requires CommandsOk(db) && l.StartRun? && Enabled(db, l)
    ensures CommandsOk(Apply(db, l, digest))
  {
    var key := CommandKey(StartKind, l.ids.attempt, 1);
    forall c | c in db.commands ensures db.commands[c] != key { assert CommandOk(db, db.commands[c]); }
    CommandFiled(db, Apply(db, l, digest), l.ids.command, key);
  }

  /** The event is new, belongs to the current generation and passes every check. */
  ghost predicate Acceptable(db: Db, e: Event) {
    && WellFormed(e) && FindEvent(db.events, e.id).None? && e.attemptId in db.attempts
    && db.attempts[e.attemptId].id == e.attemptId && db.attempts[e.attemptId].runId in db.runs
    && e.generation == db.attempts[e.attemptId].generation
    && Refusal(db, db.attempts[e.attemptId], e).None?
  }

  ghost function AfterEvent(db: Db, e: Event, now: Time): Db
    requires Acceptable(db, e)
  {
    Committed(db, db.attempts[e.attemptId], e, EventTarget(e.body).value, now)
  }

  lemma CommittedKeepsAttempts(db: Db, e: Event, now: Time)
    requires AttemptsOk(db) && Acceptable(db, e)
    ensures AttemptsOk(AfterEvent(db, e, now))
  {
    RunsAreNotShared(db, e.attemptId);
    assert AttemptOk(AfterEvent(db, e, now), e.attemptId);
    AttemptsKept(db, AfterEvent(db, e, now), e.attemptId);
  }

  /** How the log and the attempt's position move when an event is accepted. */
  lemma CommittedMovesOneStep(db: Db, e: Event, now: Time)
    requires Acceptable(db, e)
    ensures var v := AfterEvent(db, e, now);
            && v.events == db.events + [e] && v.receipts.Keys == db.receipts.Keys + {e.id}
            && v.attempts.Keys == db.attempts.Keys
            && (forall a :: a in db.attempts && a != e.attemptId ==> v.attempts[a] == db.attempts[a])
            && v.attempts[e.attemptId].generation == db.attempts[e.attemptId].generation == e.generation
            && v.attempts[e.attemptId].eventSequence == db.attempts[e.attemptId].eventSequence + 1 == e.sequence
  {}

  lemma CommittedKeepsEvents(db: Db, e: Event, now: Time)
    requires EventsOk(db) && Acceptable(db, e)
    ensures EventsOk(AfterEvent(db, e, now))
  {
    CommittedMovesOneStep(db, e, now);
    AppendKeepsEvents(db, AfterEvent(db, e, now), e);
  }

  lemma CommittedKeepsSequences(db: Db, e: Event, now: Time)
    requires EventsOk(db) && SequencesOk(db) && Acceptable(db, e)
    ensures SequencesOk(AfterEvent(db, e, now))
  {
    CommittedMovesOneStep(db, e, now);
    AppendKeepsSequences(db, AfterEvent(db, e, now), e);
  }

  lemma CommittedKeepsCommands(db: Db, e: Event, now: Time)
    requires CommandsOk(db) && Acceptable(db, e)
    ensures CommandsOk(AfterEvent(db, e, now))
  {
    CommandsKept(db, AfterEvent(db, e, now));
  }

  lemma AcceptKeeps(db: Db, e: Event, now: Time, digest: Event -> string)
    requires Inv(db)
    ensures Inv(Accept(db, e, now, digest).0)
  {
    var v := Accept(db, e, now, digest).0;
    if Facts(v) == Facts(db) {
      AuditIsIrrelevant(db, v);
    } else {
      assert AttemptOk(db, e.attemptId) && Acceptable(db, e) && v == AfterEvent(db, e, now);
      CommittedKeepsAttempts(db, e, now);
      CommittedKeepsEvents(db, e, now);
      CommittedKeepsSequences(db, e, now);
      CommittedKeepsCommands(db, e, now);
    }
  }

  /** Cancel and resume replace one attempt row and file one new command. */
  lemma ControlKeeps(db: Db, v: Db, next: Attempt, commandId: Uuid, key: CommandKey)
    requires Inv(db) && next.id in db.attempts && commandId !in db.commands
    requires v.attempts == db.attempts[next.id := next] && v.commands == db.commands[commandId := key]
    requires v.runs == db.runs && v.events == db.events && v.receipts == db.receipts
    requires AttemptOk(v, next.id) && next.runId == db.attempts[next.id].runId
    requires CommandOk(v, key) && forall c :: c in db.commands ==> db.commands[c] != key
    requires MovesOn(db.attempts[next.id], next)
    requires var a := db.attempts[next.id];
             || (next.generation == a.generation && next.eventSequence == a.eventSequence)
             || (next.generation == a.generation + 1 && next.eventSequence == 0)
    ensures Inv(v)
  {
    RunsAreNotShared(db, next.id);
    AttemptsKept(db, v, next.id);
    EventsKept(db, v);
    CommandFiled(db, v, commandId, key);
  }

  /** What an effective cancellation does. */
  lemma CancelShape(db: Db, l: Label)
    requires AttemptsOk(db) && l.CancelAttempt?
    ensures var v := Cancel(db, l.runId, l.attemptId, l.expected, l.commandId, l.now).0;
      if Facts(v) == Facts(db) then true
      else
        && l.attemptId in db.attempts && !CancelRequestedIn(db.attempts[l.attemptId].state)
        && var next := db.attempts[l.attemptId].(state := Canceling, revision := db.attempts[l.attemptId].revision + 1,
                                                updatedAt := l.now);
           && next.id == l.attemptId
           && v.attempts == db.attempts[next.id := next]
           && v.commands == db.commands[l.commandId := CommandKey(CancelKind, next.id, next.generation)]
           && v.runs == db.runs && v.events == db.events && v.receipts == db.receipts
  {
    if l.attemptId in db.attempts { assert AttemptOk(db, l.attemptId); }
  }

  lemma CancelKeeps(db: Db, l: Label, digest: Event -> string)
    requires Inv(db) && l.CancelAttempt? && Enabled(db, l)
    ensures Inv(Apply(db, l, digest))
  {
    var v := Apply(db, l, digest);
    CancelShape(db, l);
    if Facts(v) == Facts(db) {
      AuditIsIrrelevant(db, v);
    } else {
      var next, key := v.attempts[l.attemptId], v.commands[l.commandId];
      assert AttemptOk(db, l.attemptId);
      forall c | c in db.commands ensures db.commands[c] != key { assert CommandOk(db, db.commands[c]); }
      ControlKeeps(db, v, next, l.commandId, key);
    }
  }

  /** What a successful resume does. */
  lemma ResumeShape(db: Db, l: Label)
    requires AttemptsOk(db) && l.ResumeAttempt?
    ensures var v := Resume(db, l.runId, l.attemptId, l.expected, l.commandId, l.first, l.now, l.protection).0;
      if Facts(v) == Facts(db) then true
      else
        && l.attemptId in db.attempts && db.attempts[l.attemptId].id == l.attemptId
        && v == Resumed(db, db.attempts[l.attemptId], l.commandId, l.now)
  {
    if l.attemptId in db.attempts { assert AttemptOk(db, l.attemptId); }
  }

  lemma ResumedKeeps(db: Db, a: Attempt, commandId: Uuid, now: Time)
    requires Inv(db) && a.id in db.attempts && a == db.attempts[a.id] && commandId !in db.commands
    requires a.state == WaitingInput
    ensures Inv(Resumed(db, a, commandId, now))
  {
    var next, key := Requeued(a, now), CommandKey(ResumeKind, a.id, a.generation + 1);
    assert AttemptOk(db, a.id);
    forall c | c in db.commands ensures db.commands[c] != key { assert CommandOk(db, db.commands[c]); }
    ControlKeeps(db, Resumed(db, a, commandId, now), next, commandId, key);
  }

  lemma ResumeKeeps(db: Db, l: Label, digest: Event -> string)
    requires Inv(db) && l.ResumeAttempt? && Enabled(db, l)
    ensures Inv(Apply(db, l, digest))
  {
    var v := Apply(db, l, digest);
    ResumeShape(db, l);
    if Facts(v) == Facts(db) {
      AuditIsIrrelevant(db, v);
    } else {
      ResumedOnlyWaiting(db, l);
      ResumedKeeps(db, db.attempts[l.attemptId], l.commandId, l.now);
    }
  }

  lemma ResumedOnlyWaiting(db: Db, l: Label)
    requires l.ResumeAttempt? && l.attemptId in db.attempts
    requires var v := Resume(db, l.runId, l.attemptId, l.expected, l.commandId, l.first, l.now, l.protection).0;
             Facts(v) != Facts(db)
    ensures db.attempts[l.attemptId].state == WaitingInput
  {}

  lemma StepKeepsInv(db: Db, l: Label, digest: Event -> string)
    requires Inv(db) && Enabled(db, l)
    ensures Inv(Apply(db, l, digest))
  {
    match l
    case StartRun(_, _, _, _, _) =>
      StartKeepsAttempts(db, l, digest);
      StartKeepsLog(db, l, digest);
      StartKeepsCommands(db, l, digest);
    case AcceptEvent(e, now) => AcceptKeeps(db, e, now, digest);
    case CancelAttempt(_, _, _, _, _) => CancelKeeps(db, l, digest);
    case ResumeAttempt(_, _, _, _, _, _, _) => ResumeKeeps(db, l, digest);
  }
}
