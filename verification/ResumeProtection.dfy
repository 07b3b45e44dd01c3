/** Resumes, every other agent transaction, and changes by the Requirement owner, interleaved: why a resume commits
    only under a current assignment. The Requirement lock outlives the agent commit. */
module ResumeProtection {
  import opened Sql
  import opened AgentModel
  import opened AgentCommands
  import AgentRuns
  import opened RequirementContext

  // ---------------------------------------------------------------- the system

  /** Where a resume stands. Until it commits it holds the row locks of its run and attempt; from its guard on, and
      beyond its commit, the row lock of the requirement in `source`, the run's recorded context. */
  datatype Phase =
    | Begun
    | Guarded(source: BusinessContext, answer: Protection)
    | Timed(source: BusinessContext, answer: Protection, reading: Time)
    | AgentCommitted(source: BusinessContext)
    | Closed

  /** The request, and the first clock reading. */
  datatype Resuming = Resuming(runId: Uuid, attemptId: Uuid, expected: nat, commandId: Uuid, first: Time, phase: Phase)

  /** `owner` holds the committed details of each requirement, `locks` its row locks by transaction. */
  datatype World = World(
    agent: Db,
    owner: map<Uuid, Details>,
    locks: map<Uuid, Uuid>,
    resumes: map<Uuid, Resuming>,
    now: Time)

  datatype Label =
    | Tick(to: Time)
    | Agent(step: AgentRuns.Label)
    | Begin(tx: Uuid, runId: Uuid, attemptId: Uuid, expected: nat, commandId: Uuid)
    | Guard(tx: Uuid, eligible: bool)
    | ReadClock(tx: Uuid)
    | CommitAgent(tx: Uuid)
    | Close(tx: Uuid)
    | LockOwner(tx: Uuid, requirement: Uuid)
    | ChangeOwner(tx: Uuid, requirement: Uuid, details: Details)
    | ReleaseOwner(tx: Uuid, requirement: Uuid)

  predicate HoldsRows(p: Phase) { p.Begun? || p.Guarded? || p.Timed? }

  predicate Protecting(p: Phase) { p.Guarded? || p.Timed? || p.AgentCommitted? }

  /** The transaction locks this run or this attempt. */
  predicate Touches(db: Db, step: AgentRuns.Label, runId: Uuid, attemptId: Uuid) {
    match step
    case StartRun(_, _, _, _, _) => false
    case AcceptEvent(e, _) =>
      e.attemptId == attemptId || (e.attemptId in db.attempts && db.attempts[e.attemptId].runId == runId)
    case CancelAttempt(r, a, _, _, _) => r == runId || a == attemptId
    case ResumeAttempt(r, a, _, _, _, _, _) => r == runId || a == attemptId
  }

  /** No resume holds the rows. */
  ghost predicate RowsFree(w: World, runId: Uuid, attemptId: Uuid) {
    forall t :: t in w.resumes && HoldsRows(w.resumes[t].phase) ==>
      w.resumes[t].runId != runId && w.resumes[t].attemptId != attemptId
  }

  ghost predicate StepFree(w: World, step: AgentRuns.Label) {
    forall t :: t in w.resumes && HoldsRows(w.resumes[t].phase) ==>
      !Touches(w.agent, step, w.resumes[t].runId, w.resumes[t].attemptId)
  }

  /** The run's recorded context; a guard without one refuses at once and waits for no lock. */
  function ContextAt(db: Db, runId: Uuid): Option<BusinessContext> {
    if runId in db.runs then db.runs[runId].context else None
  }

  ghost predicate Enabled(w: World, l: Label) {
    match l
    case Tick(to) => w.now <= to
    case Agent(step) => !step.ResumeAttempt? && AgentRuns.Enabled(w.agent, step) && StepFree(w, step)
    case Begin(tx, runId, attemptId, _, _) => tx !in w.resumes && RowsFree(w, runId, attemptId)
    case Guard(tx, _) =>
      && tx in w.resumes && w.resumes[tx].phase.Begun?
      && var source := ContextAt(w.agent, w.resumes[tx].runId);
         source.Some? ==> source.value.requirementId !in w.locks
    case ReadClock(tx) => tx in w.resumes && w.resumes[tx].phase.Guarded?
    case CommitAgent(tx) =>
      tx in w.resumes && w.resumes[tx].phase.Timed? && w.resumes[tx].commandId !in w.agent.commands
    case Close(tx) => tx in w.resumes
    case LockOwner(tx, requirement) => tx !in w.resumes && requirement !in w.locks
    case ChangeOwner(tx, requirement, _) =>
      tx !in w.resumes && requirement in w.locks && w.locks[requirement] == tx
    case ReleaseOwner(tx, requirement) =>
      tx !in w.resumes && requirement in w.locks && w.locks[requirement] == tx
  }

  function Entered(w: World, tx: Uuid, phase: Phase): World
    requires tx in w.resumes
  {
    w.(resumes := w.resumes[tx := w.resumes[tx].(phase := phase)])
  }

  /** The exit of the protection, after the commit or after any failure before it. */
  function Ended(w: World, tx: Uuid): World
    requires tx in w.resumes
  {
    Entered(w, tx, Closed).(locks := map q | q in w.locks && w.locks[q] != tx :: w.locks[q])
  }

  /** The row of a requirement, as far as there is one. */
  function DetailsAt(w: World, requirement: Uuid): Option<Details> {
    if requirement in w.owner then Some(w.owner[requirement]) else None
  }

  ghost function Apply(w: World, l: Label, digest: Event -> string): World
    requires Enabled(w, l)
  {
    match l
    case Tick(to) => w.(now := to)
    case Agent(step) => w.(agent := AgentRuns.Apply(w.agent, step, digest))
    case Begin(tx, runId, attemptId, expected, commandId) =>
      var locked := Locked(w.agent, runId, attemptId);
      var goesOn := locked.Ok? && EarlyRefusal(w.agent, locked.value, expected, w.now).None?;
      w.(resumes := w.resumes[tx :=
        Resuming(runId, attemptId, expected, commandId, w.now, if goesOn then Begun else Closed)])
    case Guard(tx, eligible) =>
      var runId := w.resumes[tx].runId;
      var source := ContextAt(w.agent, runId);
      if source.None? then Ended(w, tx)
      else
        var requirement := source.value.requirementId;
        var answer := Answer(DetailsAt(w, requirement), w.agent.runs[runId].workspaceId, source.value, eligible);
        if answer.NotProtected? then Ended(w, tx)
        else Entered(w, tx, Guarded(source.value, answer)).(locks := w.locks[requirement := tx])
    case ReadClock(tx) =>
      var r := w.resumes[tx];
      var deadline := if r.attemptId in w.agent.attempts then w.agent.attempts[r.attemptId].waitingDeadline else None;
      if deadline.None? || deadline.value <= w.now then Ended(w, tx)
      else Entered(w, tx, Timed(r.phase.source, r.phase.answer, w.now))
    case CommitAgent(tx) =>
      Entered(w, tx, AgentCommitted(w.resumes[tx].phase.source)).(agent := Committing(w, tx).0)
    case Close(tx) => Ended(w, tx)
    case LockOwner(tx, requirement) => w.(locks := w.locks[requirement := tx])
    case ChangeOwner(_, requirement, details) =>
      w.(owner := w.owner[requirement := details], locks := w.locks - {requirement})
    case ReleaseOwner(_, requirement) => w.(locks := w.locks - {requirement})
  }

  /** The agent transaction of a resume, on its two clock readings and the owner's answer. */
  function Committing(w: World, tx: Uuid): (Db, Result<ControlResult, Error>)
    requires tx in w.resumes && w.resumes[tx].phase.Timed?
  {
    var r := w.resumes[tx];
    Resume(w.agent, r.runId, r.attemptId, r.expected, r.commandId, r.first, r.phase.reading, r.phase.answer)
  }

  // ---------------------------------------------------------------- invariant

  /** The rows are as the resume found them: nothing it checked has changed. */
  ghost predicate RowsAsFound(w: World, r: Resuming) {
    var locked := Locked(w.agent, r.runId, r.attemptId);
    locked.Ok? && EarlyRefusal(w.agent, locked.value, r.expected, r.first).None?
  }

  /** The resume holds the lock of its requirement, whose only current assignment is the recorded one. */
  ghost predicate Covered(w: World, tx: Uuid, source: BusinessContext) {
    && source.requirementId in w.locks && w.locks[source.requirementId] == tx
    && source.requirementId in w.owner && IsCurrent(w.owner[source.requirementId], source)
  }

  ghost predicate ResumeOk(w: World, tx: Uuid)
    requires tx in w.resumes
  {
    var r := w.resumes[tx];
    && (HoldsRows(r.phase) ==> RowsAsFound(w, r))
    && (Protecting(r.phase) ==> Covered(w, tx, r.phase.source))
    && (r.phase.Guarded? || r.phase.Timed? ==>
          ContextAt(w.agent, r.runId) == Some(r.phase.source)
          && SourceRefusal(w.agent.runs[r.runId], r.phase.answer).None?)
    && (r.phase.Timed? ==> r.phase.reading < w.agent.attempts[r.attemptId].waitingDeadline.value)
  }

  predicate Apart(q: Resuming, r: Resuming) {
    HoldsRows(q.phase) && HoldsRows(r.phase) ==> q.runId != r.runId && q.attemptId != r.attemptId
  }

  ghost predicate RowsApart(w: World) {
    forall s, t :: s in w.resumes && t in w.resumes && s != t ==> Apart(w.resumes[s], w.resumes[t])
  }

  /** The primary key of the run table. */
  ghost predicate RunsNamed(db: Db) {
    forall id :: id in db.runs ==> db.runs[id].id == id
  }

  ghost predicate Inv(w: World) {
    AgentRuns.Inv(w.agent) && RunsNamed(w.agent) && RowsApart(w) && forall tx :: tx in w.resumes ==> ResumeOk(w, tx)
  }

  /** The rows a resume looks at are the same in both databases. */
  ghost predicate SameRows(db: Db, v: Db, runId: Uuid, attemptId: Uuid) {
    && runId in db.runs && runId in v.runs && v.runs[runId] == db.runs[runId]
    && attemptId in db.attempts && attemptId in v.attempts && v.attempts[attemptId] == db.attempts[attemptId]
    && (attemptId in db.bindings ==> attemptId in v.bindings && v.bindings[attemptId] == db.bindings[attemptId])
  }

  lemma AcceptLeavesRows(db: Db, step: AgentRuns.Label, digest: Event -> string, runId: Uuid, attemptId: Uuid)
    requires AgentRuns.AttemptsOk(db) && step.AcceptEvent? && !Touches(db, step, runId, attemptId)
    requires runId in db.runs && attemptId in db.attempts
    ensures SameRows(db, AgentRuns.Apply(db, step, digest), runId, attemptId)
  {
    var e := step.event;
    if e.attemptId in db.attempts { assert AgentRuns.AttemptOk(db, e.attemptId); }
    assert AgentRuns.Apply(db, step, digest) == Accept(db, e, step.now, digest).0;
  }

  /** Cancel and resume write no run, no binding, and no attempt but the one they name. */
  lemma CancelLeavesRows(db: Db, step: AgentRuns.Label, digest: Event -> string, runId: Uuid, attemptId: Uuid)
    requires AgentRuns.AttemptsOk(db) && step.CancelAttempt?
    requires step.attemptId != attemptId && runId in db.runs && attemptId in db.attempts
    ensures SameRows(db, AgentRuns.Apply(db, step, digest), runId, attemptId)
  {
    if step.attemptId in db.attempts { assert AgentRuns.AttemptOk(db, step.attemptId); }
  }

  lemma ResumeLeavesRows(db: Db, step: AgentRuns.Label, digest: Event -> string, runId: Uuid, attemptId: Uuid)
    requires AgentRuns.AttemptsOk(db) && step.ResumeAttempt?
    requires step.attemptId != attemptId && runId in db.runs && attemptId in db.attempts
    ensures SameRows(db, AgentRuns.Apply(db, step, digest), runId, attemptId)
  {
    if step.attemptId in db.attempts { assert AgentRuns.AttemptOk(db, step.attemptId); }
  }

  lemma OthersLeaveRows(db: Db, step: AgentRuns.Label, digest: Event -> string, runId: Uuid, attemptId: Uuid)
    requires AgentRuns.AttemptsOk(db) && AgentRuns.Enabled(db, step) && !Touches(db, step, runId, attemptId)
    requires runId in db.runs && attemptId in db.attempts
    ensures SameRows(db, AgentRuns.Apply(db, step, digest), runId, attemptId)
  {
    if step.AcceptEvent? {
      AcceptLeavesRows(db, step, digest, runId, attemptId);
    } else if step.CancelAttempt? {
      CancelLeavesRows(db, step, digest, runId, attemptId);
    } else if step.ResumeAttempt? {
      ResumeLeavesRows(db, step, digest, runId, attemptId);
    }
  }

  lemma StepKeepsRunsNamed(db: Db, step: AgentRuns.Label, digest: Event -> string)
    requires AgentRuns.AttemptsOk(db) && RunsNamed(db)
    ensures RunsNamed(AgentRuns.Apply(db, step, digest))
  {
    if step.AcceptEvent? && step.event.attemptId in db.attempts {
      assert AgentRuns.AttemptOk(db, step.event.attemptId);
    }
  }

  /** Same rows, same checks. */
  lemma RowsStayAsFound(w: World, v: World, tx: Uuid)
    requires tx in w.resumes && HoldsRows(w.resumes[tx].phase) && ResumeOk(w, tx) && AgentRuns.AttemptsOk(w.agent)
    requires tx in v.resumes && v.resumes[tx] == w.resumes[tx] && v.owner == w.owner && v.locks == w.locks
    requires SameRows(w.agent, v.agent, w.resumes[tx].runId, w.resumes[tx].attemptId)
    ensures ResumeOk(v, tx)
  {
    assert AgentRuns.AttemptOk(w.agent, w.resumes[tx].attemptId);
  }

  /** The transaction of a resume is one of the agent's own. */
  function AsStep(r: Resuming): AgentRuns.Label
    requires r.phase.Timed?
  {
    AgentRuns.ResumeAttempt(r.runId, r.attemptId, r.expected, r.commandId, r.first, r.phase.reading, r.phase.answer)
  }

  lemma CommitIsAgentStep(w: World, tx: Uuid, digest: Event -> string)
    requires Enabled(w, CommitAgent(tx))
    ensures AgentRuns.Enabled(w.agent, AsStep(w.resumes[tx]))
    ensures Apply(w, CommitAgent(tx), digest).agent == AgentRuns.Apply(w.agent, AsStep(w.resumes[tx]), digest)
  {}

  /** Another agent transaction leaves a resume as it is. */
  lemma ResumeUndisturbed(w: World, v: World, step: AgentRuns.Label, digest: Event -> string, tx: Uuid)
    requires AgentRuns.AttemptsOk(w.agent) && AgentRuns.Enabled(w.agent, step)
    requires tx in w.resumes && ResumeOk(w, tx) && v.owner == w.owner && v.locks == w.locks
    requires v.agent == AgentRuns.Apply(w.agent, step, digest) && tx in v.resumes && v.resumes[tx] == w.resumes[tx]
    requires HoldsRows(w.resumes[tx].phase) ==> !Touches(w.agent, step, w.resumes[tx].runId, w.resumes[tx].attemptId)
    ensures ResumeOk(v, tx)
  {
    if HoldsRows(w.resumes[tx].phase) {
      OthersLeaveRows(w.agent, step, digest, w.resumes[tx].runId, w.resumes[tx].attemptId);
      RowsStayAsFound(w, v, tx);
    }
  }

  lemma AgentKeeps(w: World, l: Label, digest: Event -> string)
    requires Inv(w) && Enabled(w, l) && l.Agent?
    ensures Inv(Apply(w, l, digest))
  {
    var v := Apply(w, l, digest);
    AgentRuns.StepKeepsInv(w.agent, l.step, digest);
    StepKeepsRunsNamed(w.agent, l.step, digest);
    forall tx | tx in v.resumes ensures ResumeOk(v, tx) { ResumeUndisturbed(w, v, l.step, digest, tx); }
  }

  lemma CommittedIsOk(w: World, tx: Uuid, digest: Event -> string)
    requires Enabled(w, CommitAgent(tx)) && ResumeOk(w, tx)
    ensures tx in Apply(w, CommitAgent(tx), digest).resumes && ResumeOk(Apply(w, CommitAgent(tx), digest), tx)
  {}

  lemma CommitLeavesOthers(w: World, tx: Uuid, digest: Event -> string, other: Uuid)
    requires Inv(w) && Enabled(w, CommitAgent(tx)) && other in w.resumes && other != tx
    ensures other in Apply(w, CommitAgent(tx), digest).resumes && ResumeOk(Apply(w, CommitAgent(tx), digest), other)
  {
    assert ResumeOk(w, other) && Apart(w.resumes[tx], w.resumes[other]);
    CommitIsAgentStep(w, tx, digest);
    ResumeUndisturbed(w, Apply(w, CommitAgent(tx), digest), AsStep(w.resumes[tx]), digest, other);
  }

  lemma CommitKeepsAgent(w: World, tx: Uuid, digest: Event -> string)
    requires AgentRuns.Inv(w.agent) && RunsNamed(w.agent) && Enabled(w, CommitAgent(tx))
    ensures AgentRuns.Inv(Apply(w, CommitAgent(tx), digest).agent) && RunsNamed(Apply(w, CommitAgent(tx), digest).agent)
  {
    CommitIsAgentStep(w, tx, digest);
    AgentRuns.StepKeepsInv(w.agent, AsStep(w.resumes[tx]), digest);
    StepKeepsRunsNamed(w.agent, AsStep(w.resumes[tx]), digest);
  }

  lemma CommitKeeps(w: World, l: Label, digest: Event -> string)
    requires Inv(w) && Enabled(w, l) && l.CommitAgent?
    ensures Inv(Apply(w, l, digest))
  {
    var v := Apply(w, l, digest);
    CommitKeepsAgent(w, l.tx, digest);
    CommittedIsOk(w, l.tx, digest);
    forall tx | tx in v.resumes ensures ResumeOk(v, tx) {
      if tx != l.tx { CommitLeavesOthers(w, l.tx, digest, tx); }
    }
    OnePhaseMovesOn(w, v, l.tx);
  }

  /** A resume that takes no new row locks stays apart from the others. */
  lemma OnePhaseMovesOn(w: World, v: World, tx: Uuid)
    requires RowsApart(w) && tx in w.resumes && tx in v.resumes && v.resumes == w.resumes[tx := v.resumes[tx]]
    requires v.resumes[tx] == w.resumes[tx].(phase := v.resumes[tx].phase)
    requires HoldsRows(v.resumes[tx].phase) ==> HoldsRows(w.resumes[tx].phase)
    ensures RowsApart(v)
  {
    forall s, t | s in v.resumes && t in v.resumes && s != t ensures Apart(v.resumes[s], v.resumes[t]) {
      assert Apart(w.resumes[s], w.resumes[t]);
    }
  }

  /** The requirements that the transaction has locked stay locked by it, and unchanged. */
  ghost predicate LocksKept(w: World, v: World, tx: Uuid) {
    forall q :: q in w.locks && w.locks[q] == tx ==>
      q in v.locks && v.locks[q] == tx && (q in w.owner ==> q in v.owner && v.owner[q] == w.owner[q])
  }

  lemma ResumeLeftAlone(w: World, v: World, tx: Uuid)
    requires tx in w.resumes && ResumeOk(w, tx) && v.agent == w.agent && LocksKept(w, v, tx)
    requires tx in v.resumes && v.resumes[tx] == w.resumes[tx]
    ensures ResumeOk(v, tx)
  {}

  lemma OwnStepFramed(w: World, v: World, own: Uuid)
    requires Inv(w) && v.agent == w.agent && own in w.resumes && own in v.resumes
    requires v.resumes == w.resumes[own := w.resumes[own].(phase := v.resumes[own].phase)]
    requires HoldsRows(v.resumes[own].phase) ==> HoldsRows(w.resumes[own].phase)
    requires ResumeOk(v, own)
    requires forall tx :: tx in w.resumes && tx != own ==> LocksKept(w, v, tx)
    ensures Inv(v)
  {
    OnePhaseMovesOn(w, v, own);
    forall tx | tx in v.resumes ensures ResumeOk(v, tx) {
      if tx != own { ResumeLeftAlone(w, v, tx); }
    }
  }

  lemma BeginKeeps(w: World, l: Label, digest: Event -> string)
    requires Inv(w) && Enabled(w, l) && l.Begin?
    ensures Inv(Apply(w, l, digest))
  {
    var v := Apply(w, l, digest);
    forall tx | tx in v.resumes ensures ResumeOk(v, tx) {
      if tx != l.tx { assert ResumeOk(w, tx); }
    }
  }

  predicate IsOwnStep(l: Label) { l.Guard? || l.ReadClock? || l.Close? }

  lemma OwnStepShape(w: World, l: Label, digest: Event -> string)
    requires Enabled(w, l) && IsOwnStep(l)
    ensures var v := Apply(w, l, digest);
      && v.agent == w.agent && l.tx in w.resumes && l.tx in v.resumes
      && v.resumes == w.resumes[l.tx := w.resumes[l.tx].(phase := v.resumes[l.tx].phase)]
      && (HoldsRows(v.resumes[l.tx].phase) ==> HoldsRows(w.resumes[l.tx].phase))
  {}

  lemma OwnStepKeepsLocks(w: World, l: Label, digest: Event -> string, tx: Uuid)
    requires Enabled(w, l) && IsOwnStep(l) && tx != l.tx
    ensures LocksKept(w, Apply(w, l, digest), tx)
  {}

  /** A step of a resume on its own behalf keeps the invariant if it leaves the resume itself sound. */
  lemma OwnStepSound(w: World, l: Label, digest: Event -> string)
    requires Inv(w) && Enabled(w, l) && IsOwnStep(l)
    requires l.tx in Apply(w, l, digest).resumes && ResumeOk(Apply(w, l, digest), l.tx)
    ensures Inv(Apply(w, l, digest))
  {
    var v := Apply(w, l, digest);
    OwnStepShape(w, l, digest);
    forall tx | tx in w.resumes && tx != l.tx ensures LocksKept(w, v, tx) { OwnStepKeepsLocks(w, l, digest, tx); }
    OwnStepFramed(w, v, l.tx);
  }

  lemma GuardKeeps(w: World, l: Label, digest: Event -> string)
    requires Inv(w) && Enabled(w, l) && l.Guard?
    ensures Inv(Apply(w, l, digest))
  {
    GuardedIsOk(w, l, digest);
    OwnStepSound(w, l, digest);
  }

  lemma GuardedIsOk(w: World, l: Label, digest: Event -> string)
    requires Enabled(w, l) && l.Guard? && ResumeOk(w, l.tx)
    ensures l.tx in Apply(w, l, digest).resumes && ResumeOk(Apply(w, l, digest), l.tx)
  {
    var source := ContextAt(w.agent, w.resumes[l.tx].runId);
    if source.Some? {
      ProtectsExactlyCurrent(DetailsAt(w, source.value.requirementId), w.agent.runs[w.resumes[l.tx].runId],
                             source.value, l.eligible);
    }
  }

  lemma OwnStepKeeps(w: World, l: Label, digest: Event -> string)
    requires Inv(w) && Enabled(w, l) && (l.ReadClock? || l.Close?)
    ensures Inv(Apply(w, l, digest))
  {
    TimedIsOk(w, l, digest);
    OwnStepSound(w, l, digest);
  }

  lemma TimedIsOk(w: World, l: Label, digest: Event -> string)
    requires Enabled(w, l) && (l.ReadClock? || l.Close?) && ResumeOk(w, l.tx)
    ensures l.tx in Apply(w, l, digest).resumes && ResumeOk(Apply(w, l, digest), l.tx)
  {}

  lemma OwnerStepKeeps(w: World, l: Label, digest: Event -> string)
    requires Inv(w) && Enabled(w, l) && (l.Tick? || l.LockOwner? || l.ChangeOwner? || l.ReleaseOwner?)
    ensures Inv(Apply(w, l, digest))
  {
    var v := Apply(w, l, digest);
    assert v.agent == w.agent && v.resumes == w.resumes;
    forall tx | tx in v.resumes ensures ResumeOk(v, tx) { ResumeLeftAlone(w, v, tx); }
  }

  lemma StepKeepsInv(w: World, l: Label, digest: Event -> string)
    requires Inv(w) && Enabled(w, l)
    ensures Inv(Apply(w, l, digest))
  {
    if l.Agent? {
      AgentKeeps(w, l, digest);
    } else if l.CommitAgent? {
      CommitKeeps(w, l, digest);
    } else if l.Begin? {
      BeginKeeps(w, l, digest);
    } else if l.Guard? {
      GuardKeeps(w, l, digest);
    } else if l.ReadClock? || l.Close? {
      OwnStepKeeps(w, l, digest);
    } else {
      OwnerStepKeeps(w, l, digest);
    }
  }

  // ---------------------------------------------------------------- runs

  ghost predicate StepAt(ws: seq<World>, ls: seq<Label>, digest: Event -> string, i: nat)
    requires i < |ls| && |ws| == |ls| + 1
  {
    Enabled(ws[i], ls[i]) && ws[i + 1] == Apply(ws[i], ls[i], digest)
  }

  /** Any interleaving, from any sound agent database with no resume under way. */
  ghost predicate IsRun(ws: seq<World>, ls: seq<Label>, digest: Event -> string) {
    && |ws| == |ls| + 1 && AgentRuns.Inv(ws[0].agent) && RunsNamed(ws[0].agent) && ws[0].resumes == map[]
    && forall i :: 0 <= i < |ls| ==> StepAt(ws, ls, digest, i)
  }

  lemma {:induction false} RunKeepsInv(ws: seq<World>, ls: seq<Label>, digest: Event -> string, i: nat)
    requires IsRun(ws, ls, digest) && i < |ws|
    ensures Inv(ws[i])
  {
    if i > 0 {
      RunKeepsInv(ws, ls, digest, i - 1);
      assert StepAt(ws, ls, digest, i - 1);
      StepKeepsInv(ws[i - 1], ls[i - 1], digest);
    }
  }

  /** The request of a resume never changes, and a protecting phase is followed only by one with the same source. */
  lemma PhaseStep(w: World, l: Label, digest: Event -> string, tx: Uuid)
    requires Enabled(w, l) && tx in Apply(w, l, digest).resumes && Protecting(Apply(w, l, digest).resumes[tx].phase)
    ensures tx in w.resumes
    ensures var before, after := w.resumes[tx].phase, Apply(w, l, digest).resumes[tx].phase;
      if l.Guard? && l.tx == tx then after.Guarded?
      else
        && Protecting(before) && before.source == after.source
        && (after.Timed? ==> if l == ReadClock(tx) then after.reading == w.now else before == after)
        && (after.AgentCommitted? ==> before == after || l == CommitAgent(tx))
  {}

  /** From its guard at step `g` on, the resume has held the lock and the recorded assignment has been current. */
  ghost predicate CoveredSince(ws: seq<World>, ls: seq<Label>, tx: Uuid, source: BusinessContext, g: nat, i: nat)
    requires g < i < |ws| == |ls| + 1
  {
    && ls[g].Guard? && ls[g].tx == tx
    && forall m :: g < m <= i ==> Covered(ws[m], tx, source)
  }

  ghost predicate ReadBetween(ws: seq<World>, ls: seq<Label>, tx: Uuid, g: nat, i: nat, reading: Time)
    requires g < i < |ws| == |ls| + 1
  {
    exists k :: g < k < i && ls[k] == ReadClock(tx) && ws[k].now == reading
  }

  /** The step before a protecting phase, and the cover in it. */
  lemma ProtectionStep(ws: seq<World>, ls: seq<Label>, digest: Event -> string, tx: Uuid, i: nat)
    requires IsRun(ws, ls, digest) && i < |ws| && tx in ws[i].resumes && Protecting(ws[i].resumes[tx].phase)
    ensures i > 0 && tx in ws[i - 1].resumes && Covered(ws[i], tx, ws[i].resumes[tx].phase.source)
    ensures var before, after, l := ws[i - 1].resumes[tx].phase, ws[i].resumes[tx].phase, ls[i - 1];
      if l.Guard? && l.tx == tx then after.Guarded?
      else
        && Protecting(before) && before.source == after.source
        && (after.Timed? ==> if l == ReadClock(tx) then after.reading == ws[i - 1].now else before == after)
  {
    assert i > 0;
    assert StepAt(ws, ls, digest, i - 1);
    PhaseStep(ws[i - 1], ls[i - 1], digest, tx);
    RunKeepsInv(ws, ls, digest, i);
    assert ResumeOk(ws[i], tx);
  }

  lemma {:induction false} ProtectionHistory(ws: seq<World>, ls: seq<Label>, digest: Event -> string, tx: Uuid, i: nat)
    returns (g: nat)
    requires IsRun(ws, ls, digest) && i < |ws| && tx in ws[i].resumes && Protecting(ws[i].resumes[tx].phase)
    ensures g < i && CoveredSince(ws, ls, tx, ws[i].resumes[tx].phase.source, g, i)
    ensures ws[i].resumes[tx].phase.Timed? ==> ReadBetween(ws, ls, tx, g, i, ws[i].resumes[tx].phase.reading)
    decreases i
  {
    var l := ls[i - 1];
    ProtectionStep(ws, ls, digest, tx, i);
    if l.Guard? && l.tx == tx {
      g := i - 1;
    } else {
      g := ProtectionHistory(ws, ls, digest, tx, i - 1);
      if ws[i].resumes[tx].phase.Timed? {
        var reading := ws[i].resumes[tx].phase.reading;
        if l == ReadClock(tx) {
          assert ls[i - 1] == ReadClock(tx) && ws[i - 1].now == reading;
        } else {
          assert ReadBetween(ws, ls, tx, g, i - 1, reading);
        }
      }
    }
  }

  /** What a committing resume finds is what it checked: it is never refused at its commit. */
  lemma CommitSucceeds(w: World, tx: Uuid)
    requires Inv(w) && Enabled(w, CommitAgent(tx))
    ensures Committing(w, tx).1.Ok?
    ensures var r := w.resumes[tx];
      && r.attemptId in w.agent.attempts && r.runId in w.agent.runs
      && w.agent.runs[r.runId].context == Some(r.phase.source)
      && Committing(w, tx).0 == Resumed(w.agent, w.agent.attempts[r.attemptId], r.commandId, r.phase.reading)
      && w.agent.attempts[r.attemptId].id == r.attemptId
      && w.agent.attempts[r.attemptId].runId == r.runId
      && w.agent.attempts[r.attemptId].waitingDeadline.Some?
      && r.phase.reading < w.agent.attempts[r.attemptId].waitingDeadline.value
  {
    var r := w.resumes[tx];
    assert ResumeOk(w, tx);
    assert AgentRuns.AttemptOk(w.agent, r.attemptId);
    var run := w.agent.runs[r.runId];
  }

  /** A generation is raised only by the commit of a resume of that attempt. */
  lemma OnlyCommitsRaiseGenerations(w: World, l: Label, digest: Event -> string, a: Uuid)
    requires Inv(w) && Enabled(w, l) && a in w.agent.attempts
    ensures a in Apply(w, l, digest).agent.attempts
    ensures Apply(w, l, digest).agent.attempts[a].generation != w.agent.attempts[a].generation ==>
      l.CommitAgent? && w.resumes[l.tx].attemptId == a
  {
    if l.CommitAgent? {
      CommitSucceeds(w, l.tx);
    } else if l.Agent? {
      AgentStepKeepsGeneration(w.agent, l.step, digest, a);
    }
  }

  lemma AgentStepKeepsGeneration(db: Db, step: AgentRuns.Label, digest: Event -> string, a: Uuid)
    requires AgentRuns.AttemptsOk(db) && AgentRuns.Enabled(db, step) && !step.ResumeAttempt? && a in db.attempts
    ensures a in AgentRuns.Apply(db, step, digest).attempts
    ensures AgentRuns.Apply(db, step, digest).attempts[a].generation == db.attempts[a].generation
  {
    assert AgentRuns.AttemptOk(db, a);
    if step.AcceptEvent? && step.event.attemptId in db.attempts {
      assert AgentRuns.AttemptOk(db, step.event.attemptId);
    }
    if step.CancelAttempt? && step.attemptId in db.attempts { assert AgentRuns.AttemptOk(db, step.attemptId); }
  }

  /** Whenever an attempt enters a new generation, in any interleaving: the assignment recorded on its run has been the
      only current one, under the requirement's lock, from the owner's check until after the commit; and the clock,
      read in between, lay before the attempt's waiting deadline. */
  lemma ResumesAreProtected(ws: seq<World>, ls: seq<Label>, digest: Event -> string, i: nat, a: Uuid)
    returns (tx: Uuid, g: nat, reading: Time)
    requires IsRun(ws, ls, digest) && i < |ls| && a in ws[i].agent.attempts && a in ws[i + 1].agent.attempts
    requires ws[i + 1].agent.attempts[a].generation != ws[i].agent.attempts[a].generation
    ensures ls[i] == CommitAgent(tx)
    ensures ws[i + 1].agent.attempts[a] == Requeued(ws[i].agent.attempts[a], reading)
    ensures var t := ws[i].agent.attempts[a];
      && g < i && t.runId in ws[i].agent.runs && ws[i].agent.runs[t.runId].context.Some?
      && CoveredSince(ws, ls, tx, ws[i].agent.runs[t.runId].context.value, g, i + 1)
      && ReadBetween(ws, ls, tx, g, i, reading)
      && t.waitingDeadline.Some? && reading < t.waitingDeadline.value
  {
    assert StepAt(ws, ls, digest, i);
    RunKeepsInv(ws, ls, digest, i);
    OnlyCommitsRaiseGenerations(ws[i], ls[i], digest, a);
    tx := ls[i].tx;
    CommitSucceeds(ws[i], tx);
    reading := ws[i].resumes[tx].phase.reading;
    g := ProtectionHistory(ws, ls, digest, tx, i);
    CoverOutlivesCommit(ws, ls, digest, tx, g, i);
  }

  lemma CoverOutlivesCommit(ws: seq<World>, ls: seq<Label>, digest: Event -> string, tx: Uuid, g: nat, i: nat)
    requires IsRun(ws, ls, digest) && g < i < |ls| && ls[i] == CommitAgent(tx) && tx in ws[i].resumes
    requires ws[i].resumes[tx].phase.Timed? && CoveredSince(ws, ls, tx, ws[i].resumes[tx].phase.source, g, i)
    ensures CoveredSince(ws, ls, tx, ws[i].resumes[tx].phase.source, g, i + 1)
  {
    assert StepAt(ws, ls, digest, i);
    RunKeepsInv(ws, ls, digest, i + 1);
    assert ResumeOk(ws[i + 1], tx);
  }

  /** A commit step is never refused: the checks made before still hold, because nobody could touch the rows. */
  lemma GuardedResumesCommit(ws: seq<World>, ls: seq<Label>, digest: Event -> string, i: nat)
    requires IsRun(ws, ls, digest) && i < |ls| && ls[i].CommitAgent?
    ensures ls[i].tx in ws[i].resumes
    ensures var a := ws[i].resumes[ls[i].tx].attemptId;
      && a in ws[i].agent.attempts && a in ws[i + 1].agent.attempts
      && ws[i + 1].agent.attempts[a].generation == ws[i].agent.attempts[a].generation + 1
  {
    assert StepAt(ws, ls, digest, i);
    RunKeepsInv(ws, ls, digest, i);
    CommitSucceeds(ws[i], ls[i].tx);
  }

  /** Between check and commit the owner commits no change to that requirement. */
  lemma NoChangeInBetween(ws: seq<World>, ls: seq<Label>, digest: Event -> string, tx: Uuid, source: BusinessContext,
                          g: nat, i: nat, m: nat)
    requires IsRun(ws, ls, digest) && g < m < i < |ws| && CoveredSince(ws, ls, tx, source, g, i) && tx in ws[m].resumes
    ensures ls[m].ChangeOwner? ==> ls[m].requirement != source.requirementId
  {
    assert StepAt(ws, ls, digest, m);
    assert Covered(ws[m], tx, source);
  }

  // ---------------------------------------------------------------- a timely resume gets through

  /** Nothing stands in the way of resuming: the rows are free and allow it, the requirement is not locked, and the
      recorded assignment is current. */
  ghost predicate Resumable(w: World, tx: Uuid, a: Uuid, commandId: Uuid, source: BusinessContext) {
    && tx !in w.resumes && commandId !in w.agent.commands && a in w.agent.attempts
    && var t := w.agent.attempts[a];
       && t.runId in w.agent.runs && RowsFree(w, t.runId, a)
       && t.state == WaitingInput && t.waitingDeadline.Some? && w.now < t.waitingDeadline.value
       && a in w.agent.bindings && w.agent.bindings[a] == ExecutionBinding(t.bindingId, t.bindingDigest)
       && w.agent.runs[t.runId].context == Some(source)
       && source.requirementId !in w.locks && source.requirementId in w.owner
       && w.owner[source.requirementId].workspaceId == w.agent.runs[t.runId].workspaceId
       && IsCurrent(w.owner[source.requirementId], source)
  }

  lemma BeginsWell(w: World, tx: Uuid, a: Uuid, commandId: Uuid, source: BusinessContext, digest: Event -> string)
    requires Inv(w) && Resumable(w, tx, a, commandId, source)
    ensures var t := w.agent.attempts[a];
      var l := Begin(tx, t.runId, a, t.revision, commandId);
      && Enabled(w, l)
      && Apply(w, l, digest) ==
         w.(resumes := w.resumes[tx := Resuming(t.runId, a, t.revision, commandId, w.now, Begun)])
  {
    assert AgentRuns.AttemptOk(w.agent, a);
  }

  lemma GuardsWell(w: World, tx: Uuid, source: BusinessContext, digest: Event -> string)
    requires tx in w.resumes && w.resumes[tx].phase == Begun
    requires ContextAt(w.agent, w.resumes[tx].runId) == Some(source) && source.requirementId !in w.locks
    requires source.requirementId in w.owner && IsCurrent(w.owner[source.requirementId], source)
    requires w.owner[source.requirementId].workspaceId == w.agent.runs[w.resumes[tx].runId].workspaceId
    ensures Enabled(w, Guard(tx, true))
    ensures var v := Apply(w, Guard(tx, true), digest);
      && v.agent == w.agent && v.now == w.now && tx in v.resumes && v.resumes[tx].phase.Guarded?
      && v.resumes[tx] == w.resumes[tx].(phase := v.resumes[tx].phase)
  {
    ProtectsExactlyCurrent(DetailsAt(w, source.requirementId), w.agent.runs[w.resumes[tx].runId], source, true);
  }

  lemma TimesWell(w: World, tx: Uuid, digest: Event -> string)
    requires tx in w.resumes && w.resumes[tx].phase.Guarded? && w.resumes[tx].attemptId in w.agent.attempts
    requires w.agent.attempts[w.resumes[tx].attemptId].waitingDeadline.Some?
    requires w.now < w.agent.attempts[w.resumes[tx].attemptId].waitingDeadline.value
    ensures Enabled(w, ReadClock(tx))
    ensures var v := Apply(w, ReadClock(tx), digest);
      && v.agent == w.agent && tx in v.resumes && v.resumes[tx].phase.Timed? && v.resumes[tx].phase.reading == w.now
      && v.resumes[tx] == w.resumes[tx].(phase := v.resumes[tx].phase)
  {}

  lemma ReachesItsCommit(w: World, tx: Uuid, a: Uuid, commandId: Uuid, source: BusinessContext, digest: Event -> string)
    returns (begin: Label, w1: World, w2: World, w3: World)
    requires Inv(w) && Resumable(w, tx, a, commandId, source)
    ensures begin.Begin? && begin.tx == tx && Enabled(w, begin) && w1 == Apply(w, begin, digest)
    ensures Enabled(w1, Guard(tx, true)) && w2 == Apply(w1, Guard(tx, true), digest)
    ensures Enabled(w2, ReadClock(tx)) && w3 == Apply(w2, ReadClock(tx), digest)
    ensures Enabled(w3, CommitAgent(tx)) && Inv(w3) && w3.agent == w.agent && w3.resumes[tx].attemptId == a
  {
    var t := w.agent.attempts[a];
    begin := Begin(tx, t.runId, a, t.revision, commandId);
    BeginsWell(w, tx, a, commandId, source, digest);
    w1 := Apply(w, begin, digest);
    GuardsWell(w1, tx, source, digest);
    w2 := Apply(w1, Guard(tx, true), digest);
    TimesWell(w2, tx, digest);
    w3 := Apply(w2, ReadClock(tx), digest);
    StepKeepsInv(w, begin, digest);
    StepKeepsInv(w1, Guard(tx, true), digest);
    StepKeepsInv(w2, ReadClock(tx), digest);
  }

  lemma CommitRequeues(w: World, tx: Uuid, digest: Event -> string)
    requires Inv(w) && Enabled(w, CommitAgent(tx))
    ensures var a, v := w.resumes[tx].attemptId, Apply(w, CommitAgent(tx), digest).agent;
      && a in w.agent.attempts && a in v.attempts && v.attempts[a].state == Queued
      && v.attempts[a].generation == w.agent.attempts[a].generation + 1
  {
    CommitSucceeds(w, tx);
  }

  /** Then four steps of its own, each enabled in turn, bring the resume to its commit and the attempt into its next
      generation. */
  lemma TimelyResumeCommits(w: World, tx: Uuid, a: Uuid, commandId: Uuid, source: BusinessContext,
                              digest: Event -> string)
    returns (begin: Label, w1: World, w2: World, w3: World)
    requires Inv(w) && Resumable(w, tx, a, commandId, source)
    ensures begin.Begin? && begin.tx == tx && Enabled(w, begin) && w1 == Apply(w, begin, digest)
    ensures Enabled(w1, Guard(tx, true)) && w2 == Apply(w1, Guard(tx, true), digest)
    ensures Enabled(w2, ReadClock(tx)) && w3 == Apply(w2, ReadClock(tx), digest)
    ensures Enabled(w3, CommitAgent(tx))
    ensures var before, after := w.agent.attempts, Apply(w3, CommitAgent(tx), digest).agent.attempts;
      a in before && a in after && after[a].state == Queued && after[a].generation == before[a].generation + 1
  {
    begin, w1, w2, w3 := ReachesItsCommit(w, tx, a, commandId, source, digest);
    CommitRequeues(w3, tx, digest);
  }

  // ---------------------------------------------------------------- what may happen when

  /** The environment is free: agent transactions that touch no locked rows, resumes of free rows, the clock, failures,
      and the owner's changes under its lock, at any time. */
  lemma StepsAreFree(w: World, tx: Uuid, to: Time, step: AgentRuns.Label, runId: Uuid, a: Uuid, expected: nat,
                     commandId: Uuid, requirement: Uuid, details: Details)
    ensures Enabled(w, Tick(to)) <==> w.now <= to
    ensures Enabled(w, Agent(step)) <==> !step.ResumeAttempt? && AgentRuns.Enabled(w.agent, step) && StepFree(w, step)
    ensures Enabled(w, Begin(tx, runId, a, expected, commandId)) <==> tx !in w.resumes && RowsFree(w, runId, a)
    ensures Enabled(w, Close(tx)) <==> tx in w.resumes
    ensures Enabled(w, LockOwner(tx, requirement)) <==> tx !in w.resumes && requirement !in w.locks
    ensures Enabled(w, ChangeOwner(tx, requirement, details)) <==>
      tx !in w.resumes && requirement in w.locks && w.locks[requirement] == tx
    ensures Enabled(w, ReleaseOwner(tx, requirement)) <==>
      tx !in w.resumes && requirement in w.locks && w.locks[requirement] == tx
  {}

  /** An agent transaction is kept waiting exactly by a resume that holds its run or its attempt. */
  lemma KeptWaitingExactly(w: World, e: Event, now: Time, runId: Uuid, a: Uuid, expected: nat, commandId: Uuid)
    ensures StepFree(w, AgentRuns.CancelAttempt(runId, a, expected, commandId, now)) <==> RowsFree(w, runId, a)
    ensures StepFree(w, AgentRuns.AcceptEvent(e, now)) <==>
      forall t :: t in w.resumes && HoldsRows(w.resumes[t].phase) ==>
        && w.resumes[t].attemptId != e.attemptId
        && (e.attemptId in w.agent.attempts ==> w.agent.attempts[e.attemptId].runId != w.resumes[t].runId)
  {}

  /** A guard goes on exactly if the owner protects, and then holds the requirement's lock; otherwise the
      resume ends. */
  lemma GuardExactly(w: World, tx: Uuid, eligible: bool, digest: Event -> string)
    requires Enabled(w, Guard(tx, eligible))
    ensures var v, source := Apply(w, Guard(tx, eligible), digest), ContextAt(w.agent, w.resumes[tx].runId);
      && tx in v.resumes && (v.agent, v.owner, v.now) == (w.agent, w.owner, w.now)
      && if source != None && eligible && source.value.requirementId in w.owner
            && w.owner[source.value.requirementId].workspaceId == w.agent.runs[w.resumes[tx].runId].workspaceId
            && IsCurrent(w.owner[source.value.requirementId], source.value)
         then v.resumes[tx].phase.Guarded? && v.locks == w.locks[source.value.requirementId := tx]
         else v.resumes[tx].phase == Closed && tx !in v.locks.Values
  {
    var source := ContextAt(w.agent, w.resumes[tx].runId);
    if source.Some? {
      ProtectsExactlyCurrent(DetailsAt(w, source.value.requirementId), w.agent.runs[w.resumes[tx].runId],
                             source.value, eligible);
    }
  }

  /** The end of a resume releases what it holds, and only that; the owner's change is what it says. */
  lemma EndsByTheirEffect(w: World, l: Label, digest: Event -> string)
    requires Enabled(w, l)
    ensures l.Close? ==>
      var v := Apply(w, l, digest);
      && v.resumes == w.resumes[l.tx := w.resumes[l.tx].(phase := Closed)]
      && (v.agent, v.owner, v.now) == (w.agent, w.owner, w.now)
      && forall q :: q in v.locks <==> q in w.locks && w.locks[q] != l.tx
    ensures l.ChangeOwner? ==>
      Apply(w, l, digest) == w.(owner := w.owner[l.requirement := l.details], locks := w.locks - {l.requirement})
    ensures l.ReleaseOwner? ==> Apply(w, l, digest) == w.(locks := w.locks - {l.requirement})
    ensures l.LockOwner? ==> Apply(w, l, digest) == w.(locks := w.locks[l.requirement := l.tx])
    ensures l.Agent? ==> Apply(w, l, digest) == w.(agent := AgentRuns.Apply(w.agent, l.step, digest))
  {}
}
