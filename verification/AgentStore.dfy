/** The transactions as the code performs them: locked reads, then one guarded statement after another. */
module AgentStore {
  import opened Sql
  import opened AgentModel
  import opened AgentCommands
  import opened AgentRuns

  /** The attempt columns one compare-and-set may write. */
  datatype AttemptMutation = AttemptMutation(
    state: AttemptState,
    generation: nat,
    fence: Fence,
    checkpoint: Option<Checkpoint>,
    eventSequence: nat,
    waitingDeadline: Option<Time>,
    terminalEvidence: Option<string>,
    now: Time)

  function MutationOf(a: Attempt, now: Time): AttemptMutation {
    AttemptMutation(a.state, a.generation, a.fence, a.checkpoint, a.eventSequence, a.waitingDeadline,
                    a.terminalEvidence, now)
  }

  function Mutated(a: Attempt, m: AttemptMutation): Attempt {
    a.(state := m.state, generation := m.generation, fence := m.fence, checkpoint := m.checkpoint,
       eventSequence := m.eventSequence, waitingDeadline := m.waitingDeadline,
       terminalEvidence := m.terminalEvidence,
       revision := a.revision + 1, updatedAt := m.now)
  }

  /** The repository inside one open transaction. */
  class UnitOfWork {
    var db: Db

    constructor (initial: Db)
      ensures db == initial
    {
      db := initial;
    }

    method CompareAndSetAttempt(id: Uuid, expected: nat, m: AttemptMutation) returns (r: Option<Attempt>)
      modifies this
      ensures var hit := id in old(db).attempts && old(db).attempts[id].revision == expected;
              && (hit ==> r == Some(Mutated(old(db).attempts[id], m)) &&
                          db == old(db).(attempts := old(db).attempts[id := r.value]))
              && (!hit ==> r == None && db == old(db))
    {
      if id !in db.attempts || db.attempts[id].revision != expected {
        return None;
      }
      var row := Mutated(db.attempts[id], m);
      db := db.(attempts := db.attempts[id := row]);
      return Some(row);
    }

    method CompareAndSetRun(id: Uuid, expected: nat, state: RunState, latestAttemptId: Uuid) returns (r: Option<Run>)
      modifies this
      ensures var hit := id in old(db).runs && old(db).runs[id].revision == expected;
              && (hit ==> r == Some(old(db).runs[id].(state := state, latestAttemptId := latestAttemptId,
                                                     revision := expected + 1)) &&
                          db == old(db).(runs := old(db).runs[id := r.value]))
              && (!hit ==> r == None && db == old(db))
    {
      if id !in db.runs || db.runs[id].revision != expected {
        return None;
      }
      var row := db.runs[id].(state := state, latestAttemptId := latestAttemptId, revision := expected + 1);
      db := db.(runs := db.runs[id := row]);
      return Some(row);
    }

    /** INSERT ... ON CONFLICT DO NOTHING against the identity and the position index, then classification. */
    method AppendEvent(e: Event, digest: Event -> string) returns (r: Result<Event, Error>)
      modifies this
      ensures var known := FindEvent(old(db).events, e.id);
              && (known.None? && !PositionTaken(old(db).events, e) ==>
                    r == Ok(e) && db == old(db).(events := old(db).events + [e]))
              && (known.Some? || PositionTaken(old(db).events, e) ==> db == old(db))
              && (known.Some? ==>
                    r == if digest(known.value) == digest(e) then Ok(known.value) else Err(AppendConflict))
              && (known.None? && PositionTaken(old(db).events, e) ==> r == Err(AppendConflict))
    {
      var existing := FindEvent(db.events, e.id);
      if existing.None? && !PositionTaken(db.events, e) {
        db := db.(events := db.events + [e]);
        return Ok(e);
      }
      if existing.Some? {
        return if digest(existing.value) == digest(e) then Ok(existing.value) else Err(AppendConflict);
      }
      return Err(AppendConflict);
    }

    method AppendReceipt(id: Uuid, receipt: Receipt) returns (ok: bool)
      modifies this
      ensures ok == (id !in old(db).receipts)
      ensures db == if ok then old(db).(receipts := old(db).receipts[id := receipt]) else old(db)
    {
      ok := id !in db.receipts;
      if ok {
        db := db.(receipts := db.receipts[id := receipt]);
      }
    }

    method InsertCheckpoint(c: Checkpoint) returns (ok: bool)
      modifies this
      ensures ok == (c.id !in old(db).checkpoints)
      ensures db == if ok then old(db).(checkpoints := old(db).checkpoints[c.id := c]) else old(db)
    {
      ok := c.id !in db.checkpoints;
      if ok {
        db := db.(checkpoints := db.checkpoints[c.id := c]);
      }
    }

    /** The primary key and the unique command key may both refuse. */
    method InsertCommand(id: Uuid, key: CommandKey) returns (ok: bool)
      modifies this
      ensures ok == (id !in old(db).commands && forall c :: c in old(db).commands ==> old(db).commands[c] != key)
      ensures db == if ok then old(db).(commands := old(db).commands[id := key]) else old(db)
    {
      ok := id !in db.commands && forall c :: c in db.commands ==> db.commands[c] != key;
      if ok {
        db := db.(commands := db.commands[id := key]);
      }
    }

    method AppendAudit(entry: Audit)
      modifies this
      ensures db == old(db).(audit := old(db).audit + [entry])
    {
      db := db.(audit := db.audit + [entry]);
    }
  }

  /** The writing half of acceptance: checkpoint, attempt, event, receipt, run and audit, in this order. */
  method Persist(tx: UnitOfWork, a: Attempt, run: Run, e: Event, target: AttemptState, now: Time,
                 digest: Event -> string)
    returns (r: Result<Acceptance, Error>)
    requires FindEvent(tx.db.events, e.id).None? && !PositionTaken(tx.db.events, e) && e.id !in tx.db.receipts
    requires e.attemptId in tx.db.attempts && a == tx.db.attempts[e.attemptId] && a.id == e.attemptId
    requires a.runId in tx.db.runs && run == tx.db.runs[a.runId] && run.id == a.runId
    requires e.sequence == a.eventSequence + 1 && EventTarget(e.body) == Some(target)
    requires e.body.LifecycleBody? ==> target != WaitingInput
    modifies tx
    ensures Refusal(old(tx.db), a, e).Some? ==> r == Err(Refusal(old(tx.db), a, e).value)
    ensures Refusal(old(tx.db), a, e).None? ==>
              && tx.db == Committed(old(tx.db), a, e, target, now)
              && r == Ok(Acceptance(e, Advanced(a, e, target, now), NewCheckpoint(e)))
  {
    if target == WaitingInput {
      var inserted := tx.InsertCheckpoint(e.body.checkpoint);
      if !inserted {
        return Err(CheckpointExists);
      }
    }
    var transitioned := TransitionAttempt(a, target, NewCheckpoint(e), now);
    if transitioned.Err? {
      return Err(transitioned.error);
    }
    var m := MutationOf(transitioned.value, now).(
      waitingDeadline := if e.body.WaitingBody? then Some(e.body.deadline) else a.waitingDeadline,
      eventSequence := e.sequence);
    var persisted := tx.CompareAndSetAttempt(a.id, a.revision, m);
    if persisted.None? {
      return Err(LostRowLock);
    }
    assert persisted.value == Advanced(a, e, target, now);
    var appended := tx.AppendEvent(e, digest);
    if appended.Err? {
      return Err(AppendConflict);
    }
    var receipted := tx.AppendReceipt(e.id, Receipt(persisted.value, NewCheckpoint(e)));
    if !receipted {
      return Err(ReceiptExists);
    }
    if Terminal(target) {
      var ended := tx.CompareAndSetRun(run.id, run.revision, RunStateOf(target), run.latestAttemptId);
      if ended.None? {
        return Err(LostRowLock);
      }
    }
    tx.AppendAudit(Audit(AcceptanceAudit(target), a.id, Some(target), now));
    return Ok(Acceptance(appended.value, persisted.value, NewCheckpoint(e)));
  }

  /** The writing half of an effective cancellation: the attempt row, its command, and the audit entry. */
  method FileCancel(tx: UnitOfWork, a: Attempt, commandId: Uuid, now: Time) returns (r: Result<ControlResult, Error>)
    requires a.id in tx.db.attempts && a == tx.db.attempts[a.id] && !Terminal(a.state) && a.state != Canceling
    requires commandId !in tx.db.commands
    requires forall c :: c in tx.db.commands ==> tx.db.commands[c] != CommandKey(CancelKind, a.id, a.generation)
    modifies tx
    ensures r == Ok(ControlResult(AsCanceling(a, now), Some(CommandKey(CancelKind, a.id, a.generation))))
    ensures tx.db == CancelFiled(old(tx.db), a, commandId, now)
  {
    var canceling := TransitionAttempt(a, Canceling, None, now);
    if canceling.Err? {
      return Err(IllegalTransition);
    }
    var updated := tx.CompareAndSetAttempt(a.id, a.revision, MutationOf(canceling.value, now));
    if updated.None? {
      return Err(LostRowLock);
    }
    var key := CommandKey(CancelKind, a.id, a.generation);
    var filed := tx.InsertCommand(commandId, key);
    if !filed {
      return Err(CommandExists);
    }
    tx.AppendAudit(Audit(CancelRequested, a.id, Some(updated.value.state), now));
    return Ok(ControlResult(updated.value, Some(key)));
  }

  /** The writing half of a resume: the attempt row, its command, and the audit entry. */
  method Requeue(tx: UnitOfWork, a: Attempt, commandId: Uuid, now: Time) returns (r: Result<ControlResult, Error>)
    requires a.id in tx.db.attempts && a == tx.db.attempts[a.id] && a.state == WaitingInput && a.checkpoint.Some?
    requires a.fence == Fence(a.id, a.generation) && commandId !in tx.db.commands
    requires forall c :: c in tx.db.commands ==> tx.db.commands[c] != CommandKey(ResumeKind, a.id, a.generation + 1)
    modifies tx
    ensures r == Ok(ControlResult(Requeued(a, now), Some(CommandKey(ResumeKind, a.id, a.generation + 1))))
    ensures tx.db == Resumed(old(tx.db), a, commandId, now)
  {
    var resumed := ResumeGeneration(a, Fence(a.id, a.generation + 1), now);
    if resumed.Err? {
      return Err(InvalidFence);
    }
    var m := MutationOf(resumed.value, now).(eventSequence := 0, waitingDeadline := None);
    var persisted := tx.CompareAndSetAttempt(a.id, a.revision, m);
    if persisted.None? {
      return Err(LostRowLock);
    }
    var key := CommandKey(ResumeKind, a.id, persisted.value.generation);
    var filed := tx.InsertCommand(commandId, key);
    if !filed {
      return Err(CommandExists);
    }
    tx.AppendAudit(Audit(ResumeRequested, a.id, Some(persisted.value.state), now));
    return Ok(ControlResult(persisted.value, Some(key)));
  }

  /** The failures with which the code blames a lost lock or a row that someone else wrote. */
  predicate LostRace(r: Error) {
    r.LostRowLock? || r.AppendConflict? || r.ReceiptExists? || r.CommandExists?
  }

  lemma AcceptLosesNoRace(db: Db, e: Event, now: Time, digest: Event -> string)
    ensures Accept(db, e, now, digest).1.Err? ==> !LostRace(Accept(db, e, now, digest).1.error)
  {}

  lemma CancelLosesNoRace(db: Db, runId: Uuid, attemptId: Uuid, expected: nat, commandId: Uuid, now: Time)
    ensures var r := Cancel(db, runId, attemptId, expected, commandId, now).1; r.Err? ==> !LostRace(r.error)
  {}

  lemma ResumeLosesNoRace(db: Db, runId: Uuid, attemptId: Uuid, expected: nat, commandId: Uuid, first: Time, now: Time,
                          p: Protection)
    ensures var r := Resume(db, runId, attemptId, expected, commandId, first, now, p).1; r.Err? ==> !LostRace(r.error)
  {}

  /** The committed database; each method runs one transaction and commits it only if nothing was raised. */
  class AgentPlatform {
    var db: Db

    constructor (initial: Db)
      requires Inv(initial)
      ensures db == initial && Inv(db)
    {
      db := initial;
    }

    /** As the migrations leave it: no row in any table. */
    constructor Empty()
      ensures db == Db(map[], map[], map[], [], map[], map[], map[], []) && Inv(db)
    {
      EmptyIsSound();
      db := Db(map[], map[], map[], [], map[], map[], map[], []);
    }

    /** Refines the simple form: every branch that blames a lost lock or a conflicting row is dead. */
    method AcceptWorkflowEvent(e: Event, now: Time, digest: Event -> string) returns (r: Result<Acceptance, Error>)
      requires Inv(db)
      modifies this
      ensures db == Accept(old(db), e, now, digest).0 && r == Accept(old(db), e, now, digest).1
      ensures r.Err? ==> !LostRace(r.error)
    {
      AcceptLosesNoRace(db, e, now, digest);
      if !WellFormed(e) {
        return Err(InvalidEvent);
      }
      var tx := new UnitOfWork(db);
      var existing := FindEvent(tx.db.events, e.id);
      var lockId := if existing.Some? then existing.value.attemptId else e.attemptId;
      if lockId !in tx.db.attempts {
        return Err(UnknownAttempt);
      }
      var a := tx.db.attempts[lockId];
      assert AttemptOk(db, lockId);
      if a.runId !in tx.db.runs {
        return Err(UnknownRun);
      }
      if existing.Some? {
        r := Replay(tx.db, existing.value, e, digest);
        return;
      }
      if e.body.WaitingBody? && e.body.question.None? {
        return Err(QuestionRequired);
      }
      if e.generation != a.generation {
        tx.AppendAudit(Audit(StaleGenerationRejected, a.id, None, now));
        db := tx.db;
        return Err(StaleGeneration);
      }
      if e.sequence != a.eventSequence + 1 {
        return Err(SequenceGap);
      }
      if EventTarget(e.body).None? {
        return Err(UnknownEventType);
      }
      AppendCannotConflict(db, e);
      r := Persist(tx, a, tx.db.runs[a.runId], e, EventTarget(e.body).value, now, digest);
      if r.Ok? {
        db := tx.db;
      }
    }

    method CancelAttempt(runId: Uuid, attemptId: Uuid, expected: nat, commandId: Uuid, now: Time)
      returns (r: Result<ControlResult, Error>)
      requires Inv(db) && commandId !in db.commands
      modifies this
      ensures db == Cancel(old(db), runId, attemptId, expected, commandId, now).0
      ensures r == Cancel(old(db), runId, attemptId, expected, commandId, now).1
      ensures r.Err? ==> !LostRace(r.error)
    {
      CancelLosesNoRace(db, runId, attemptId, expected, commandId, now);
      var tx := new UnitOfWork(db);
      if runId !in tx.db.runs {
        return Err(UnknownRun);
      }
      if attemptId !in tx.db.attempts || tx.db.attempts[attemptId].runId != tx.db.runs[runId].id {
        return Err(UnknownAttempt);
      }
      var a := tx.db.attempts[attemptId];
      assert AttemptOk(db, attemptId);
      if a.revision != expected {
        return Err(RevisionConflict);
      }
      if Terminal(a.state) || a.state == Canceling {
        tx.AppendAudit(Audit(CancelRequested, a.id, Some(a.state), now));
        db := tx.db;
        return Ok(ControlResult(a, None));
      }
      CancelKeyIsNew(db, a.id);
      r := FileCancel(tx, a, commandId, now);
      if r.Ok? {
        db := tx.db;
      }
    }

    /** `first` and `now` are the two clock readings; `p` is the Requirement owner's answer between them. */
    method ResumeAttempt(runId: Uuid, attemptId: Uuid, expected: nat, commandId: Uuid,
                         first: Time, now: Time, p: Protection)
      returns (r: Result<ControlResult, Error>)
      requires Inv(db) && commandId !in db.commands
      modifies this
      ensures db == Resume(old(db), runId, attemptId, expected, commandId, first, now, p).0
      ensures r == Resume(old(db), runId, attemptId, expected, commandId, first, now, p).1
      ensures r.Err? ==> !LostRace(r.error)
    {
      ResumeLosesNoRace(db, runId, attemptId, expected, commandId, first, now, p);
      var tx := new UnitOfWork(db);
      if runId !in tx.db.runs {
        return Err(UnknownRun);
      }
      if attemptId !in tx.db.attempts || tx.db.attempts[attemptId].runId != tx.db.runs[runId].id {
        return Err(UnknownAttempt);
      }
      var a := tx.db.attempts[attemptId];
      assert AttemptOk(db, attemptId);
      if a.revision != expected {
        return Err(RevisionConflict);
      }
      if a.state != WaitingInput || a.checkpoint.None? {
        return Err(NotResumable);
      }
      if a.waitingDeadline.None? || a.waitingDeadline.value <= first {
        return Err(WaitingExpired);
      }
      if a.id !in tx.db.bindings || tx.db.bindings[a.id] != ExecutionBinding(a.bindingId, a.bindingDigest) {
        return Err(BindingMismatch);
      }
      var refusal := SourceRefusal(tx.db.runs[runId], p);
      if refusal.Some? {
        return Err(refusal.value);
      }
      if a.waitingDeadline.value <= now {
        return Err(WaitingExpired);
      }
      ResumeKeyIsNew(db, a.id);
      r := Requeue(tx, a, commandId, now);
      if r.Ok? {
        db := tx.db;
      }
    }
  }

  // ---------------------------------------------------------------- why no guard ever fails

  /** At the expected next position neither the identity nor the position is taken. */
  lemma AppendCannotConflict(db: Db, e: Event)
    requires Inv(db) && FindEvent(db.events, e.id).None? && e.attemptId in db.attempts
    requires e.generation == db.attempts[e.attemptId].generation
    requires e.sequence == db.attempts[e.attemptId].eventSequence + 1
    ensures !PositionTaken(db.events, e) && e.id !in db.receipts
  {
    forall i | 0 <= i < |db.events| && db.events[i].attemptId == e.attemptId && db.events[i].generation == e.generation
      ensures db.events[i].sequence != e.sequence
    {
      assert EventOk(db, db.events[i]);
    }
  }

  /** An attempt that can still be canceled has no cancel command in its generation. */
  lemma CancelKeyIsNew(db: Db, a: Uuid)
    requires Inv(db) && a in db.attempts && !CancelRequestedIn(db.attempts[a].state)
    ensures forall c :: c in db.commands ==> db.commands[c] != CommandKey(CancelKind, a, db.attempts[a].generation)
  {
    forall c | c in db.commands ensures db.commands[c] != CommandKey(CancelKind, a, db.attempts[a].generation) {
      assert CommandOk(db, db.commands[c]);
    }
  }

  /** The next generation has no resume command yet. */
  lemma ResumeKeyIsNew(db: Db, a: Uuid)
    requires Inv(db) && a in db.attempts
    ensures forall c :: c in db.commands ==> db.commands[c] != CommandKey(ResumeKind, a, db.attempts[a].generation + 1)
  {
    forall c | c in db.commands ensures db.commands[c] != CommandKey(ResumeKind, a, db.attempts[a].generation + 1) {
      assert CommandOk(db, db.commands[c]);
    }
  }
}
