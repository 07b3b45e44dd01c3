/** Attempts, runs, canonical events and their tables. */
module AgentModel {
  import opened Sql

  datatype AttemptState =
    | Created | Binding | Queued | Provisioning | Running | WaitingInput
    | Finalizing | Succeeded | Failed | Canceling | Canceled | TimedOut

  datatype RunState = Active | RunSucceeded | RunFailed | RunCanceled | RunTimedOut

  datatype Checkpoint = Checkpoint(id: Uuid, content: string)

  /** The text `fence:<attempt>:generation:<n>`. */
  datatype Fence = Fence(attemptId: Uuid, generation: nat)

  datatype Attempt = Attempt(
    id: Uuid,
    runId: Uuid,
    number: nat,
    state: AttemptState,
    bindingId: Uuid,
    bindingDigest: string,
    generation: nat,
    fence: Fence,
    checkpoint: Option<Checkpoint>,
    eventSequence: nat,
    waitingDeadline: Option<Time>,
    terminalEvidence: Option<string>,
    revision: nat,
    updatedAt: Time)

  datatype BusinessContext = BusinessContext(requirementId: Uuid, workItemId: Uuid, assignmentId: Uuid)

  datatype Run = Run(
    id: Uuid,
    workspaceId: Uuid,
    context: Option<BusinessContext>,
    latestAttemptId: Uuid,
    state: RunState,
    revision: nat)

  datatype ExecutionBinding = ExecutionBinding(id: Uuid, digest: string)

  datatype EventBody =
    | QueuedBody(bindingSource: string, bindingDigest: string)
    | WaitingBody(checkpoint: Checkpoint, deadline: Time, question: Option<string>)
    | LifecycleBody(target: AttemptState)

  datatype Event = Event(
    id: Uuid,
    attemptId: Uuid,
    generation: nat,
    sequence: nat,
    correlationId: string,
    trace: string,
    body: EventBody)

  datatype Receipt = Receipt(attempt: Attempt, checkpoint: Option<Checkpoint>)

  datatype CommandKind = StartKind | CancelKind | ResumeKind

  /** The text `<kind>:<attempt>:generation-<n>`; see module CommandKeys. */
  datatype CommandKey = CommandKey(kind: CommandKind, attemptId: Uuid, generation: nat)

  datatype AuditAction =
    | RunStarted | StaleGenerationRejected | EventAccepted | WaitingInputReached | AttemptSucceeded
    | CancelRequested | ResumeRequested

  /** `result` is the attempt's state, or none for a rejection. */
  datatype Audit = Audit(action: AuditAction, target: Uuid, result: Option<AttemptState>, at: Time)

  /** `events` lists the canonical events in the order of their acceptance. */
  datatype Db = Db(
    runs: map<Uuid, Run>,
    attempts: map<Uuid, Attempt>,
    bindings: map<Uuid, ExecutionBinding>,
    events: seq<Event>,
    receipts: map<Uuid, Receipt>,
    checkpoints: map<Uuid, Checkpoint>,
    commands: map<Uuid, CommandKey>,
    audit: seq<Audit>)

  /** Everything but the audit trail. */
  function Facts(db: Db): Db {
    db.(audit := [])
  }

  datatype Error =
    | InvalidEvent | UnknownAttempt | UnknownRun | ReplayConflict | ReplayUnavailable | QuestionRequired
    | StaleGeneration | SequenceGap | UnknownEventType | IllegalTransition | CheckpointRequired
    | CheckpointForbidden | CheckpointExists | AppendConflict | ReceiptExists | LostRowLock
    | RevisionConflict | NotResumable | WaitingExpired | BindingMismatch | InvalidFence
    | SourceUnavailable | CommandExists

  // ---------------------------------------------------------------- transitions

  predicate Terminal(s: AttemptState) {
    s.Succeeded? || s.Failed? || s.Canceled? || s.TimedOut?
  }

  /** A cancellation has been requested and can no longer be left. */
  predicate CancelRequestedIn(s: AttemptState) {
    s.Canceling? || s.Canceled? || s.TimedOut?
  }

  /** The table of allowed transitions. */
  predicate Allowed(s: AttemptState, target: AttemptState) {
    match s
    case Created => target.Binding? || target.Canceling?
    case Binding => target.Queued? || target.Failed? || target.Canceling?
    case Queued => target.Provisioning? || target.Canceling?
    case Provisioning => target.Running? || target.Failed? || target.Canceling?
    case Running => target.WaitingInput? || target.Finalizing? || target.Canceling?
    case WaitingInput => target.Queued? || target.Canceling?
    case Finalizing => target.Succeeded? || target.Failed? || target.Canceling?
    case Canceling => target.Canceled? || target.TimedOut?
    case Succeeded => false
    case Failed => false
    case Canceled => false
    case TimedOut => false
  }

  function TransitionAttempt(a: Attempt, target: AttemptState, checkpoint: Option<Checkpoint>, now: Time)
    : Result<Attempt, Error>
  {
    if !Allowed(a.state, target) then Err(IllegalTransition)
    else if a.state == WaitingInput && target == Queued then Err(NotResumable)
    else if target == WaitingInput && checkpoint.None? then Err(CheckpointRequired)
    else if target != WaitingInput && checkpoint.Some? then Err(CheckpointForbidden)
    else Ok(a.(state := target, checkpoint := if target == WaitingInput then checkpoint else a.checkpoint,
               revision := a.revision + 1, updatedAt := now))
  }

  function ResumeGeneration(a: Attempt, fence: Fence, now: Time): Result<Attempt, Error> {
    if a.state != WaitingInput || a.checkpoint.None? then Err(NotResumable)
    else if fence == a.fence then Err(InvalidFence)
    else Ok(a.(state := Queued, generation := a.generation + 1, fence := fence,
               revision := a.revision + 1, updatedAt := now))
  }

  /** The run state a terminal attempt leaves behind. */
  function RunStateOf(s: AttemptState): RunState {
    match s
    case Succeeded => RunSucceeded
    case Failed => RunFailed
    case Canceled => RunCanceled
    case TimedOut => RunTimedOut
    case _ => Active
  }

  // ---------------------------------------------------------------- events

  /** What `CanonicalEventInput` validation admits. */
  predicate WellFormed(e: Event) {
    && e.generation >= 1 && e.sequence >= 1
    && (e.body.LifecycleBody? ==>
          e.body.target.Provisioning? || e.body.target.Running? || e.body.target.Finalizing? || Terminal(e.body.target))
  }

  /** The attempt state an event leads to; ATTEMPT_QUEUED is written by the platform only. */
  function EventTarget(body: EventBody): Option<AttemptState> {
    match body
    case QueuedBody(_, _) => None
    case WaitingBody(_, _, _) => Some(WaitingInput)
    case LifecycleBody(target) => Some(target)
  }

  function FindEvent(events: seq<Event>, id: Uuid): (r: Option<Event>)
    ensures r.Some? ==> r.value in events && r.value.id == id
    ensures r.None? ==> forall e :: e in events ==> e.id != id
  {
    if |events| == 0 then None
    else if events[|events| - 1].id == id then Some(events[|events| - 1])
    else FindEvent(events[..|events| - 1], id)
  }

  predicate PositionTaken(events: seq<Event>, e: Event) {
    exists i :: 0 <= i < |events| && events[i].attemptId == e.attemptId &&
      events[i].generation == e.generation && events[i].sequence == e.sequence
  }

  /** The events of one attempt and generation, in order of acceptance. */
  function EventsOf(events: seq<Event>, attemptId: Uuid, generation: nat): seq<Event> {
    if |events| == 0 then []
    else
      var rest := EventsOf(events[..|events| - 1], attemptId, generation);
      var e := events[|events| - 1];
      if e.attemptId == attemptId && e.generation == generation then rest + [e] else rest
  }
}
