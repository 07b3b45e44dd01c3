/** What each accepted command changes, column by column, and exactly when it is accepted. */
module AgentEffects {
  import opened Sql
  import opened AgentModel
  import opened AgentCommands
  import opened AgentRuns

  // ---------------------------------------------------------------- events

  /** From which states an event leads to this one. */
  predicate Precedes(s: AttemptState, target: AttemptState) {
    match target
    case Provisioning => s == Queued
    case Running => s == Provisioning
    case WaitingInput => s == Running
    case Finalizing => s == Running
    case Succeeded => s == Finalizing
    case Failed => s == Binding || s == Provisioning || s == Finalizing
    case Canceled => s == Canceling
    case TimedOut => s == Canceling
    case _ => false
  }

  /** Everything an attempt keeps through events and cancellation. */
  predicate SameAttempt(a: Attempt, b: Attempt) {
    (b.id, b.runId, b.number, b.bindingId, b.bindingDigest, b.terminalEvidence) ==
    (a.id, a.runId, a.number, a.bindingId, a.bindingDigest, a.terminalEvidence)
  }

  predicate SameGeneration(a: Attempt, b: Attempt) {
    SameAttempt(a, b) && b.generation == a.generation && b.fence == a.fence
  }

  /** An event is malformed if a counter is zero or a lifecycle event names a state that only the platform sets. */
  lemma MalformedEvents(db: Db, e: Event, now: Time, digest: Event -> string)
    ensures Accept(db, e, now, digest).1 == Err(InvalidEvent) <==>
      || e.generation == 0 || e.sequence == 0
      || (e.body.LifecycleBody? &&
          match e.body.target
          case Created => true
          case Binding => true
          case Queued => true
          case WaitingInput => true
          case Canceling => true
          case _ => false)
  {}

  lemma RefusalExactly(db: Db, a: Attempt, e: Event)
    requires WellFormed(e) && (e.body.WaitingBody? ==> e.body.question.Some?)
    ensures Refusal(db, a, e).None? <==>
      && e.sequence == a.eventSequence + 1
      && match e.body
         case QueuedBody(_, _) => false
         case WaitingBody(checkpoint, _, _) => a.state == Running && checkpoint.id !in db.checkpoints
         case LifecycleBody(target) => Precedes(a.state, target)
  {}

  /** A new event is accepted if and only if it is the next one of the current generation, its kind may follow the
      attempt's state, and a question and an unused checkpoint come with a wait. */
  lemma EventsAcceptedExactly(db: Db, e: Event, now: Time, digest: Event -> string)
    requires Inv(db) && FindEvent(db.events, e.id).None? && e.attemptId in db.attempts
    requires Accept(db, e, now, digest).1 != Err(InvalidEvent)
    ensures var a := db.attempts[e.attemptId];
      Accept(db, e, now, digest).1.Ok? <==>
        && e.generation == a.generation && e.sequence == a.eventSequence + 1
        && match e.body
           case QueuedBody(_, _) => false
           case WaitingBody(checkpoint, _, question) =>
             a.state == Running && question.Some? && checkpoint.id !in db.checkpoints
           case LifecycleBody(target) => Precedes(a.state, target)
  {
    assert AttemptOk(db, e.attemptId);
    if e.body.WaitingBody? ==> e.body.question.Some? { RefusalExactly(db, db.attempts[e.attemptId], e); }
  }

  /** Why a new event of the current generation is refused: a gap first, then a platform kind, then the rest. */
  lemma RefusedEvents(db: Db, e: Event, now: Time, digest: Event -> string)
    requires Inv(db) && FindEvent(db.events, e.id).None? && e.attemptId in db.attempts
    requires e.generation == db.attempts[e.attemptId].generation && WellFormed(e)
    ensures var a, r := db.attempts[e.attemptId], Accept(db, e, now, digest).1;
      && (e.body.QueuedBody? ==>
            r == Err(if e.sequence == a.eventSequence + 1 then UnknownEventType else SequenceGap))
      && (e.body.LifecycleBody? && !r.Ok? ==>
            r == Err(if e.sequence == a.eventSequence + 1 then IllegalTransition else SequenceGap))
      && (e.body.WaitingBody? && e.body.question.Some? && !r.Ok? ==>
            r == Err(if e.sequence != a.eventSequence + 1 then SequenceGap
                     else if e.body.checkpoint.id in db.checkpoints then CheckpointExists else IllegalTransition))
  {
    assert AttemptOk(db, e.attemptId);
  }

  /** The attempt after an accepted event. */
  predicate MovedBy(a: Attempt, e: Event, now: Time, b: Attempt) {
    && SameGeneration(a, b) && b.eventSequence == e.sequence && b.revision == a.revision + 1 && b.updatedAt == now
    && match e.body
       case QueuedBody(_, _) => false
       case WaitingBody(checkpoint, deadline, _) =>
         b.state == WaitingInput && b.checkpoint == Some(checkpoint) && b.waitingDeadline == Some(deadline)
       case LifecycleBody(target) =>
         b.state == target && b.checkpoint == a.checkpoint && b.waitingDeadline == a.waitingDeadline
  }

  /** The state an event leaves its run in; none for an event that ends nothing. */
  function EndedAs(e: Event): Option<RunState> {
    match e.body
    case LifecycleBody(Succeeded) => Some(RunSucceeded)
    case LifecycleBody(Failed) => Some(RunFailed)
    case LifecycleBody(Canceled) => Some(RunCanceled)
    case LifecycleBody(TimedOut) => Some(RunTimedOut)
    case _ => None
  }

  function ActionOf(e: Event): AuditAction {
    match e.body
    case WaitingBody(_, _, _) => WaitingInputReached
    case LifecycleBody(Succeeded) => AttemptSucceeded
    case _ => EventAccepted
  }

  /** An accepted event moves its attempt, ends its run exactly if it is terminal and as it names, files one event,
      one receipt with the moved attempt, a checkpoint with a wait, and one audit entry; nothing else changes. */
  lemma AcceptedEventTakesEffect(db: Db, e: Event, now: Time, digest: Event -> string)
    requires Inv(db) && FindEvent(db.events, e.id).None? && Accept(db, e, now, digest).1.Ok?
    ensures e.attemptId in db.attempts && db.attempts[e.attemptId].runId in db.runs
    ensures var (v, r) := Accept(db, e, now, digest);
      && e.attemptId in v.attempts
      && var a, b := db.attempts[e.attemptId], v.attempts[e.attemptId];
         var checkpoint := if e.body.WaitingBody? then Some(e.body.checkpoint) else None;
         && MovedBy(a, e, now, b) && v.attempts == db.attempts[e.attemptId := b]
         && v.runs == (if EndedAs(e).None? then db.runs
                       else db.runs[a.runId := db.runs[a.runId].(state := EndedAs(e).value,
                                                                revision := db.runs[a.runId].revision + 1)])
         && v.events == db.events + [e] && v.receipts == db.receipts[e.id := Receipt(b, checkpoint)]
         && v.checkpoints == (if checkpoint.None? then db.checkpoints
                              else db.checkpoints[checkpoint.value.id := checkpoint.value])
         && v.bindings == db.bindings && v.commands == db.commands
         && v.audit == db.audit + [Audit(ActionOf(e), e.attemptId, Some(b.state), now)]
         && r == Ok(Acceptance(e, b, checkpoint))
  {
    assert AttemptOk(db, e.attemptId);
  }

  /** A known event with other content is a conflict, and changes nothing. */
  lemma ChangedRedeliveryConflicts(db: Db, known: Event, e: Event, now: Time, digest: Event -> string)
    requires Inv(db) && FindEvent(db.events, e.id) == Some(known) && digest(known) != digest(e)
    requires Accept(db, e, now, digest).1 != Err(InvalidEvent)
    ensures Accept(db, e, now, digest) == (db, Err(ReplayConflict))
  {
    var k :| 0 <= k < |db.events| && db.events[k] == known;
    assert EventOk(db, db.events[k]);
    assert AttemptOk(db, known.attemptId);
  }

  // ---------------------------------------------------------------- cancellation

  /** The states in which a cancellation has something to do. */
  predicate Cancelable(s: AttemptState) {
    s == Created || s == Binding || s == Queued || s == Provisioning || s == Running || s == WaitingInput ||
    s == Finalizing
  }

  /** At its current revision a cancelable attempt becomes CANCELING and its cancel command is filed; an attempt past
      that is left alone; either way one audit entry tells so. */
  lemma CancelTakesEffect(db: Db, id: Uuid, commandId: Uuid, now: Time)
    requires Inv(db) && id in db.attempts
    ensures var a := db.attempts[id];
      var (v, r) := Cancel(db, a.runId, id, a.revision, commandId, now);
      && id in v.attempts
      && var b := v.attempts[id];
         && v.attempts == db.attempts[id := b]
         && (v.runs, v.events, v.receipts, v.checkpoints, v.bindings) ==
            (db.runs, db.events, db.receipts, db.checkpoints, db.bindings)
         && v.audit == db.audit + [Audit(CancelRequested, id, Some(b.state), now)]
         && if Cancelable(a.state) then
              && SameGeneration(a, b) && b.state == Canceling && b.revision == a.revision + 1 && b.updatedAt == now
              && (b.eventSequence, b.checkpoint, b.waitingDeadline)
                  == (a.eventSequence, a.checkpoint, a.waitingDeadline)
              && v.commands == db.commands[commandId := CommandKey(CancelKind, id, a.generation)]
              && r == Ok(ControlResult(b, Some(CommandKey(CancelKind, id, a.generation))))
            else b == a && v.commands == db.commands && r == Ok(ControlResult(a, None))
  {
    assert AttemptOk(db, id);
  }

  /** At any other revision, or under another run, it is refused and changes nothing. */
  lemma CancelIsRefused(db: Db, runId: Uuid, id: Uuid, expected: nat, commandId: Uuid, now: Time)
    requires Inv(db) && id in db.attempts && (expected != db.attempts[id].revision || runId !in db.runs)
    ensures Cancel(db, runId, id, expected, commandId, now).1.Err?
    ensures Cancel(db, runId, id, expected, commandId, now).0 == db
  {}

  // ---------------------------------------------------------------- resumption

  /** A resume is accepted if and only if the attempt waits at this revision, both clock readings lie before its
      deadline, its binding is intact, and the owner protects the very context recorded on the run. */
  lemma ResumeAcceptedExactly(db: Db, id: Uuid, expected: nat, commandId: Uuid, first: Time, now: Time, p: Protection)
    requires Inv(db) && id in db.attempts
    ensures var a := db.attempts[id];
      && a.runId in db.runs
      && var run := db.runs[a.runId];
         Resume(db, a.runId, id, expected, commandId, first, now, p).1.Ok? <==>
           && expected == a.revision && a.state == WaitingInput
           && a.waitingDeadline.Some? && first < a.waitingDeadline.value && now < a.waitingDeadline.value
           && id in db.bindings && db.bindings[id] == ExecutionBinding(a.bindingId, a.bindingDigest)
           && run.context.Some?
           && p == Protected(run.workspaceId, run.context.value.requirementId, run.context.value.workItemId,
                             run.context.value.assignmentId)
  {
    assert AttemptOk(db, id);
  }

  /** The first reason against a resume, by columns. */
  function FirstReason(db: Db, run: Run, a: Attempt, expected: nat, first: Time, p: Protection): Error {
    if expected != a.revision then RevisionConflict
    else if a.state != WaitingInput then NotResumable
    else if a.waitingDeadline == None || a.waitingDeadline.value <= first then WaitingExpired
    else if a.id !in db.bindings || db.bindings[a.id] != ExecutionBinding(a.bindingId, a.bindingDigest)
      then BindingMismatch
    else if run.context == None || p == NotProtected(false) then NotResumable
    else if p == NotProtected(true) then SourceUnavailable
    else match p
      case NotProtected(_) => SourceUnavailable
      case Protected(workspaceId, requirementId, workItemId, assignmentId) =>
        var source := run.context.value;
        if (requirementId, workItemId) != (source.requirementId, source.workItemId) then SourceUnavailable
        else if (workspaceId, assignmentId) != (run.workspaceId, source.assignmentId) then NotResumable
        else WaitingExpired
  }

  lemma RefusedResumes(db: Db, id: Uuid, expected: nat, commandId: Uuid, first: Time, now: Time, p: Protection)
    requires Inv(db) && id in db.attempts
    ensures var a := db.attempts[id];
      && a.runId in db.runs
      && var r := Resume(db, a.runId, id, expected, commandId, first, now, p).1;
         r.Ok? || r == Err(FirstReason(db, db.runs[a.runId], a, expected, first, p))
  {
    assert AttemptOk(db, id);
  }

  /** An accepted resume requeues the attempt in the next generation, under its own fence, with nothing accepted yet
      and no deadline, keeps its checkpoint, and files the resume command of that generation. */
  lemma ResumeTakesEffect(db: Db, id: Uuid, expected: nat, commandId: Uuid, first: Time, now: Time, p: Protection)
    requires Inv(db) && id in db.attempts
    requires Resume(db, db.attempts[id].runId, id, expected, commandId, first, now, p).1.Ok?
    ensures var a := db.attempts[id];
      var (v, r) := Resume(db, a.runId, id, expected, commandId, first, now, p);
      && id in v.attempts
      && var b, key := v.attempts[id], CommandKey(ResumeKind, id, a.generation + 1);
         && SameAttempt(a, b) && b.state == Queued && b.generation == a.generation + 1
         && b.fence == Fence(id, a.generation + 1) && b.eventSequence == 0 && b.checkpoint == a.checkpoint
         && b.waitingDeadline == None && b.revision == a.revision + 1 && b.updatedAt == now
         && v.attempts == db.attempts[id := b] && v.commands == db.commands[commandId := key]
         && (v.runs, v.events, v.receipts, v.checkpoints, v.bindings) ==
            (db.runs, db.events, db.receipts, db.checkpoints, db.bindings)
         && v.audit == db.audit + [Audit(ResumeRequested, id, Some(Queued), now)]
         && r == Ok(ControlResult(b, Some(key)))
  {
    assert AttemptOk(db, id);
  }

  /** A refused resume changes nothing. */
  lemma RefusedResumeChangesNothing(db: Db, runId: Uuid, id: Uuid, expected: nat, commandId: Uuid, first: Time,
                                    now: Time, p: Protection)
    requires Resume(db, runId, id, expected, commandId, first, now, p).1.Err?
    ensures Resume(db, runId, id, expected, commandId, first, now, p).0 == db
  {}

  // ---------------------------------------------------------------- starting

  /** A started run is active with one queued attempt in its first generation, whose first event, receipt, binding
      and start command are filed with it. */
  lemma StartTakesEffect(db: Db, ids: StartIds, workspaceId: Uuid, context: BusinessContext, binding: string, now: Time)
    requires FreshIds(db, ids)
    ensures var v := Start(db, ids, workspaceId, context, binding, now);
      && ids.run in v.runs && ids.attempt in v.attempts
      && var run, a := v.runs[ids.run], v.attempts[ids.attempt];
         && v.runs == db.runs[ids.run := run] && v.attempts == db.attempts[ids.attempt := a]
         && run == Run(ids.run, workspaceId, Some(context), ids.attempt, Active, 1)
         && (a.id, a.runId, a.number, a.state, a.generation, a.fence, a.eventSequence, a.revision) ==
            (ids.attempt, ids.run, 1, Queued, 1, Fence(ids.attempt, 1), 1, 3)
         && (a.checkpoint, a.waitingDeadline, a.terminalEvidence, a.updatedAt) == (None, None, None, now)
         && v.bindings == db.bindings[ids.attempt := ExecutionBinding(a.bindingId, a.bindingDigest)]
         && (a.bindingId, a.bindingDigest) == (ids.binding, binding)
         && v.commands == db.commands[ids.command := CommandKey(StartKind, ids.attempt, 1)]
         && v.checkpoints == db.checkpoints
         && |v.events| == |db.events| + 1 && db.events <= v.events
         && var e := v.events[|db.events|];
            && (e.id, e.attemptId, e.generation, e.sequence) == (ids.event, ids.attempt, 1, 1) && e.body.QueuedBody?
            && e.body.bindingDigest == binding && v.receipts == db.receipts[ids.event := Receipt(a, None)]
  {}

  // ---------------------------------------------------------------- what may happen when

  /** Any transaction may be tried at any time; the identifiers it brings are new. */
  lemma TransactionsAreFree(db: Db, ids: StartIds, workspaceId: Uuid, context: BusinessContext, binding: string,
                            e: Event, runId: Uuid, id: Uuid, expected: nat, commandId: Uuid, first: Time, now: Time,
                            p: Protection)
    ensures Enabled(db, StartRun(ids, workspaceId, context, binding, now)) <==>
      && ids.run !in db.runs && ids.attempt !in db.attempts && ids.attempt !in db.bindings
      && ids.command !in db.commands && FindEvent(db.events, ids.event) == None && ids.event !in db.receipts
    ensures Enabled(db, AcceptEvent(e, now))
    ensures Enabled(db, CancelAttempt(runId, id, expected, commandId, now)) <==> commandId !in db.commands
    ensures Enabled(db, ResumeAttempt(runId, id, expected, commandId, first, now, p)) <==> commandId !in db.commands
  {}

  // ---------------------------------------------------------------- transitions

  /** The table of transitions, by where they lead. */
  predicate MayFollow(s: AttemptState, target: AttemptState) {
    match target
    case Created => false
    case Binding => s == Created
    case Queued => s == Binding || s == WaitingInput
    case Canceling => Cancelable(s)
    case _ => Precedes(s, target)
  }

  /** A transition outside the table is illegal; a wait is left only by a resume, and entered only with a checkpoint,
      which no other transition brings; otherwise state, checkpoint, revision and time change. */
  lemma TransitionsByColumns(a: Attempt, target: AttemptState, checkpoint: Option<Checkpoint>, now: Time)
    ensures TransitionAttempt(a, target, checkpoint, now) ==
      if !MayFollow(a.state, target) then Err(IllegalTransition)
      else if a.state == WaitingInput && target == Queued then Err(NotResumable)
      else if target == WaitingInput && checkpoint == None then Err(CheckpointRequired)
      else if target != WaitingInput && checkpoint != None then Err(CheckpointForbidden)
      else Ok(Attempt(a.id, a.runId, a.number, target, a.bindingId, a.bindingDigest, a.generation, a.fence,
                      if target == WaitingInput then checkpoint else a.checkpoint, a.eventSequence, a.waitingDeadline,
                      a.terminalEvidence, a.revision + 1, now))
  {}

  /** A resumed attempt needs a wait with its checkpoint, and a fence other than its own. */
  lemma ResumptionsByColumns(a: Attempt, fence: Fence, now: Time)
    ensures ResumeGeneration(a, fence, now) ==
      if a.state != WaitingInput || a.checkpoint == None then Err(NotResumable)
      else if fence == a.fence then Err(InvalidFence)
      else Ok(Attempt(a.id, a.runId, a.number, Queued, a.bindingId, a.bindingDigest, a.generation + 1, fence,
                      a.checkpoint, a.eventSequence, a.waitingDeadline, a.terminalEvidence, a.revision + 1, now))
  {}
}
