/** Event acceptance, cancellation and resumption, stated simply: one function per transaction. */
module AgentCommands {
  import opened Sql
  import opened AgentModel

  datatype Acceptance = Acceptance(event: Event, attempt: Attempt, checkpoint: Option<Checkpoint>)

  datatype ControlResult = ControlResult(attempt: Attempt, command: Option<CommandKey>)

  // ---------------------------------------------------------------- events

  function Replay(db: Db, existing: Event, e: Event, digest: Event -> string): Result<Acceptance, Error> {
    if existing.attemptId !in db.attempts then Err(UnknownAttempt)
    else if db.attempts[existing.attemptId].runId !in db.runs then Err(UnknownRun)
    else if digest(existing) != digest(e) then Err(ReplayConflict)
    else if e.id !in db.receipts then Err(ReplayUnavailable)
    else Ok(Acceptance(existing, db.receipts[e.id].attempt, db.receipts[e.id].checkpoint))
  }

  function NewCheckpoint(e: Event): Option<Checkpoint> {
    if e.body.WaitingBody? then Some(e.body.checkpoint) else None
  }

  /** Why a new event of the current generation is refused, in the order of the code's checks. */
  function Refusal(db: Db, a: Attempt, e: Event): Option<Error> {
    if e.sequence != a.eventSequence + 1 then Some(SequenceGap)
    else if EventTarget(e.body).None? then Some(UnknownEventType)
    else if e.body.WaitingBody? && e.body.checkpoint.id in db.checkpoints then Some(CheckpointExists)
    else match TransitionAttempt(a, EventTarget(e.body).value, NewCheckpoint(e), 0)
      case Err(error) => Some(error)
      case Ok(_) => None
  }

  /** The attempt row after the event. */
  function Advanced(a: Attempt, e: Event, target: AttemptState, now: Time): Attempt {
    a.(state := target,
       checkpoint := if e.body.WaitingBody? then Some(e.body.checkpoint) else a.checkpoint,
       waitingDeadline := if e.body.WaitingBody? then Some(e.body.deadline) else a.waitingDeadline,
       eventSequence := e.sequence, revision := a.revision + 1, updatedAt := now)
  }

  function AcceptanceAudit(target: AttemptState): AuditAction {
    if target == WaitingInput then WaitingInputReached
    else if target == Succeeded then AttemptSucceeded
    else EventAccepted
  }

  function Committed(db: Db, a: Attempt, e: Event, target: AttemptState, now: Time): Db
    requires a.runId in db.runs
  {
    var next := Advanced(a, e, target, now);
    var run := db.runs[a.runId];
    db.(attempts := db.attempts[a.id := next],
        events := db.events + [e],
        receipts := db.receipts[e.id := Receipt(next, NewCheckpoint(e))],
        checkpoints := if e.body.WaitingBody? then db.checkpoints[e.body.checkpoint.id := e.body.checkpoint]
                       else db.checkpoints,
        runs := if Terminal(target) then
                  db.runs[run.id := run.(state := RunStateOf(target), revision := run.revision + 1)]
                else db.runs,
        audit := db.audit + [Audit(AcceptanceAudit(target), a.id, Some(target), now)])
  }

  /** `digest` stands for the canonical payload digest. */
  function Accept(db: Db, e: Event, now: Time, digest: Event -> string): (Db, Result<Acceptance, Error>) {
    if !WellFormed(e) then (db, Err(InvalidEvent))
    else match FindEvent(db.events, e.id)
      case Some(existing) => (db, Replay(db, existing, e, digest))
      case None =>
        if e.attemptId !in db.attempts then (db, Err(UnknownAttempt))
        else
          var a := db.attempts[e.attemptId];
          if a.runId !in db.runs then (db, Err(UnknownRun))
          else if e.body.WaitingBody? && e.body.question.None? then (db, Err(QuestionRequired))
          else if e.generation != a.generation then
            (db.(audit := db.audit + [Audit(StaleGenerationRejected, a.id, None, now)]), Err(StaleGeneration))
          else if Refusal(db, a, e).Some? then (db, Err(Refusal(db, a, e).value))
          else
            var target := EventTarget(e.body).value;
            (Committed(db, a, e, target, now), Ok(Acceptance(e, Advanced(a, e, target, now), NewCheckpoint(e))))
  }

  // ---------------------------------------------------------------- control

  /** The locked rows, or why there are none. */
  function Locked(db: Db, runId: Uuid, attemptId: Uuid): (r: Result<Attempt, Error>)
    ensures r.Ok? ==> attemptId in db.attempts && r.value == db.attempts[attemptId] && runId in db.runs
  {
    if runId !in db.runs then Err(UnknownRun)
    else if attemptId !in db.attempts || db.attempts[attemptId].runId != db.runs[runId].id then Err(UnknownAttempt)
    else Ok(db.attempts[attemptId])
  }

  /** The attempt row after an effective cancellation. */
  function AsCanceling(a: Attempt, now: Time): Attempt {
    a.(state := Canceling, revision := a.revision + 1, updatedAt := now)
  }

  function CancelFiled(db: Db, a: Attempt, commandId: Uuid, now: Time): Db {
    db.(attempts := db.attempts[a.id := AsCanceling(a, now)],
        commands := db.commands[commandId := CommandKey(CancelKind, a.id, a.generation)],
        audit := db.audit + [Audit(CancelRequested, a.id, Some(Canceling), now)])
  }

  function Cancel(db: Db, runId: Uuid, attemptId: Uuid, expected: nat, commandId: Uuid, now: Time)
    : (Db, Result<ControlResult, Error>)
  {
    match Locked(db, runId, attemptId)
    case Err(error) => (db, Err(error))
    case Ok(a) =>
      if a.revision != expected then (db, Err(RevisionConflict))
      else if Terminal(a.state) || a.state == Canceling then
        (db.(audit := db.audit + [Audit(CancelRequested, a.id, Some(a.state), now)]), Ok(ControlResult(a, None)))
      else
        (CancelFiled(db, a, commandId, now),
         Ok(ControlResult(AsCanceling(a, now), Some(CommandKey(CancelKind, a.id, a.generation)))))
  }

  /** What the Requirement owner answers while its row lock is held. */
  datatype Protection =
    | NotProtected(unavailable: bool)
    | Protected(workspaceId: Uuid, requirementId: Uuid, workItemId: Uuid, assignmentId: Uuid)

  function SourceRefusal(run: Run, p: Protection): Option<Error> {
    match run.context
    case None => Some(NotResumable)
    case Some(source) =>
      match p
      case NotProtected(unavailable) => Some(if unavailable then SourceUnavailable else NotResumable)
      case Protected(workspaceId, requirementId, workItemId, assignmentId) =>
        if requirementId != source.requirementId || workItemId != source.workItemId then Some(SourceUnavailable)
        else if workspaceId != run.workspaceId || assignmentId != source.assignmentId then Some(NotResumable)
        else None
  }

  /** Reasons to refuse a resume before the Requirement owner is asked, in the order of the code's checks. */
  function EarlyRefusal(db: Db, a: Attempt, expected: nat, first: Time): Option<Error> {
    if a.revision != expected then Some(RevisionConflict)
    else if a.state != WaitingInput || a.checkpoint.None? then Some(NotResumable)
    else if a.waitingDeadline.None? || a.waitingDeadline.value <= first then Some(WaitingExpired)
    else if a.id !in db.bindings || db.bindings[a.id] != ExecutionBinding(a.bindingId, a.bindingDigest) then
      Some(BindingMismatch)
    else None
  }

  /** Every reason to refuse a resume; `first` and `now` are its clock readings. */
  function ResumeRefusal(db: Db, run: Run, a: Attempt, expected: nat, first: Time, now: Time, p: Protection)
    : Option<Error>
  {
    if EarlyRefusal(db, a, expected, first).Some? then EarlyRefusal(db, a, expected, first)
    else if SourceRefusal(run, p).Some? then SourceRefusal(run, p)
    else if a.waitingDeadline.value <= now then Some(WaitingExpired)
    else None
  }

  /** The attempt row after a resume: a new generation with its own fence, nothing accepted in it yet. */
  function Requeued(a: Attempt, now: Time): Attempt {
    a.(state := Queued, generation := a.generation + 1, fence := Fence(a.id, a.generation + 1),
       eventSequence := 0, waitingDeadline := None, revision := a.revision + 1, updatedAt := now)
  }

  function Resumed(db: Db, a: Attempt, commandId: Uuid, now: Time): Db {
    var next := Requeued(a, now);
    db.(attempts := db.attempts[a.id := next],
        commands := db.commands[commandId := CommandKey(ResumeKind, a.id, next.generation)],
        audit := db.audit + [Audit(ResumeRequested, a.id, Some(Queued), now)])
  }

  function Resume(db: Db, runId: Uuid, attemptId: Uuid, expected: nat, commandId: Uuid,
                  first: Time, now: Time, p: Protection): (Db, Result<ControlResult, Error>)
  {
    match Locked(db, runId, attemptId)
    case Err(error) => (db, Err(error))
    case Ok(a) =>
      var refusal := ResumeRefusal(db, db.runs[runId], a, expected, first, now, p);
      if refusal.Some? then (db, Err(refusal.value))
      else
        (Resumed(db, a, commandId, now),
         Ok(ControlResult(Requeued(a, now), Some(CommandKey(ResumeKind, a.id, a.generation + 1)))))
  }

  // ---------------------------------------------------------------- starting a run

  datatype StartIds = StartIds(run: Uuid, attempt: Uuid, binding: Uuid, event: Uuid, command: Uuid)

  /** The identifiers come from `new_id` and name nothing yet. */
  predicate FreshIds(db: Db, ids: StartIds) {
    && ids.run !in db.runs && ids.attempt !in db.attempts && ids.attempt !in db.bindings
    && ids.command !in db.commands && FindEvent(db.events, ids.event).None? && ids.event !in db.receipts
  }

  const INITIAL_REVISION := 3

  function Start(db: Db, ids: StartIds, workspaceId: Uuid, context: BusinessContext, digest: string, now: Time): Db {
    var attempt := Attempt(ids.attempt, ids.run, 1, Queued, ids.binding, digest, 1, Fence(ids.attempt, 1),
                           None, 1, None, None, INITIAL_REVISION, now);
    var event := Event(ids.event, ids.attempt, 1, 1, "", "", QueuedBody("DEV_FAKE", digest));
    db.(runs := db.runs[ids.run := Run(ids.run, workspaceId, Some(context), ids.attempt, Active, 1)],
        attempts := db.attempts[ids.attempt := attempt],
        bindings := db.bindings[ids.attempt := ExecutionBinding(ids.binding, digest)],
        events := db.events + [event],
        receipts := db.receipts[ids.event := Receipt(attempt, None)],
        commands := db.commands[ids.command := CommandKey(StartKind, ids.attempt, 1)],
        audit := db.audit + [Audit(RunStarted, ids.run, Some(Queued), now)])
  }
}
