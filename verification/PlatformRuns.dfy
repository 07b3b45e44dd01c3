/** Agent transactions and workflow workers over one database: every command that the agent writes is a row that the
    claim protocol carries out. */
module PlatformRuns {
  import opened Basics
  import opened Sql
  import opened AgentModel
  import Agent = AgentRuns
  import Commands = AgentCommands
  import Keys = CommandKeys
  import Table = WorkflowTable
  import Facts = Orchestrator
  import Workflow = WorkflowProtocol
  import Runs = WorkflowRuns
  import Bounds = WorkflowBounds

  /** `agent.commands` and `workflow.rows` are two views of one table. */
  datatype State = State(agent: Db, workflow: Workflow.World)

  datatype Label = AgentStep(step: Agent.Label) | WorkerStep(work: Workflow.Label)

  // ---------------------------------------------------------------- the command an agent transaction files

  /** The identifier of the command that the transaction inserts, if it inserts one. */
  function NewCommand(db: Db, l: Agent.Label): Option<Uuid> {
    match l
    case StartRun(ids, _, _, _, _) => Some(ids.command)
    case AcceptEvent(_, _) => None
    case CancelAttempt(r, a, rev, c, now) =>
      var result := Commands.Cancel(db, r, a, rev, c, now).1;
      if result.Ok? && result.value.command.Some? then Some(c) else None
    case ResumeAttempt(r, a, rev, c, first, now, p) =>
      if Commands.Resume(db, r, a, rev, c, first, now, p).1.Ok? then Some(c) else None
  }

  /** The INSERT of a planned command. */
  function PlannedRow(id: Uuid, k: CommandKey, now: Time, uuidText: Uuid -> string): Table.Row {
    Table.Row(id, Keys.KeyText(k, uuidText), k.kind, k.attemptId, k.generation, Table.Planned, 0, None, None, now,
              None, None, None, None, None)
  }

  /** The transaction files this command and no other, under a new identifier. */
  ghost predicate Files(db: Db, v: Db, c: Option<Uuid>) {
    if c.None? then v.commands == db.commands
    else c.value !in db.commands && c.value in v.commands && v.commands == db.commands[c.value := v.commands[c.value]]
  }

  lemma CancelFiles(db: Db, l: Agent.Label, digest: Event -> string)
    requires Agent.AttemptsOk(db) && Agent.Enabled(db, l) && l.CancelAttempt?
    ensures Files(db, Agent.Apply(db, l, digest), NewCommand(db, l))
  {
    if l.attemptId in db.attempts { assert Agent.AttemptOk(db, l.attemptId); }
  }

  lemma ResumeFiles(db: Db, l: Agent.Label, digest: Event -> string)
    requires Agent.AttemptsOk(db) && Agent.Enabled(db, l) && l.ResumeAttempt?
    ensures Files(db, Agent.Apply(db, l, digest), NewCommand(db, l))
  {
    if l.attemptId in db.attempts { assert Agent.AttemptOk(db, l.attemptId); }
  }

  lemma FilesExactlyOne(db: Db, l: Agent.Label, digest: Event -> string)
    requires Agent.AttemptsOk(db) && Agent.Enabled(db, l)
    ensures Files(db, Agent.Apply(db, l, digest), NewCommand(db, l))
  {
    if l.CancelAttempt? { CancelFiles(db, l, digest); }
    if l.ResumeAttempt? { ResumeFiles(db, l, digest); }
  }

  // ---------------------------------------------------------------- steps

  /** What an agent transaction means to the claim protocol: an insert, or nothing at all. */
  function Followed(s: State, l: Agent.Label, digest: Event -> string, uuidText: Uuid -> string): Workflow.Label {
    var c, v := NewCommand(s.agent, l), Agent.Apply(s.agent, l, digest);
    if c.Some? && c.value in v.commands then
      Workflow.Insert(PlannedRow(c.value, v.commands[c.value], l.now, uuidText))
    else Workflow.Tick(s.workflow.now)
  }

  predicate Enabled(s: State, l: Label) {
    match l
    case AgentStep(step) => Agent.Enabled(s.agent, step)
    case WorkerStep(work) => !work.Insert? && Workflow.Enabled(s.workflow, work)
  }

  /** A row that the table would refuse aborts the agent transaction. */
  function Apply(s: State, l: Label, digest: Event -> string, uuidText: Uuid -> string): State
    requires Enabled(s, l)
  {
    match l
    case AgentStep(step) =>
      var followed := Followed(s, step, digest, uuidText);
      if Workflow.Enabled(s.workflow, followed) then
        State(Agent.Apply(s.agent, step, digest), Workflow.Apply(s.workflow, followed))
      else s
    case WorkerStep(work) => s.(workflow := Workflow.Apply(s.workflow, work))
  }

  // ---------------------------------------------------------------- invariant

  /** The row carries the command. */
  ghost predicate RowOf(r: Table.Row, k: CommandKey, uuidText: Uuid -> string) {
    && (r.kind, r.attemptId, r.generation) == (k.kind, k.attemptId, k.generation)
    && r.key == Keys.KeyText(k, uuidText)
  }

  ghost predicate Matches(s: State, uuidText: Uuid -> string) {
    && s.workflow.rows.Keys == s.agent.commands.Keys
    && forall c :: c in s.agent.commands ==> RowOf(s.workflow.rows[c], s.agent.commands[c], uuidText)
  }

  ghost predicate Inv(s: State, uuidText: Uuid -> string) {
    Agent.Inv(s.agent) && Workflow.Inv(s.workflow) && Matches(s, uuidText)
  }

  /** The row of a new command is always admitted: neither its identifier nor its key is taken. */
  lemma FollowedIsEnabled(s: State, l: Agent.Label, digest: Event -> string, uuidText: Uuid -> string)
    requires Inv(s, uuidText) && Agent.Enabled(s.agent, l) && Keys.Separable(uuidText)
    ensures Workflow.Enabled(s.workflow, Followed(s, l, digest, uuidText))
  {
    var v, c := Agent.Apply(s.agent, l, digest), NewCommand(s.agent, l);
    FilesExactlyOne(s.agent, l, digest);
    if c.Some? {
      Agent.StepKeepsInv(s.agent, l, digest);
      KeyIsNew(s, v, c.value, uuidText);
    }
  }

  lemma KeyIsNew(s: State, v: Db, c: Uuid, uuidText: Uuid -> string)
    requires Matches(s, uuidText) && Agent.Inv(v) && Keys.Separable(uuidText)
    requires c !in s.agent.commands && c in v.commands && v.commands == s.agent.commands[c := v.commands[c]]
    ensures c !in s.workflow.rows
    ensures forall d :: d in s.workflow.rows ==> s.workflow.rows[d].key != Keys.KeyText(v.commands[c], uuidText)
  {
    forall d | d in s.workflow.rows ensures s.workflow.rows[d].key != Keys.KeyText(v.commands[c], uuidText) {
      assert v.commands[d] == s.agent.commands[d];
      Keys.CommandKeysNeverCollide(v, d, c, uuidText);
    }
  }

  lemma InsertKeepsMatch(s: State, t: State, c: Uuid, now: Time, uuidText: Uuid -> string)
    requires Matches(s, uuidText) && c in t.agent.commands
    requires t.agent.commands == s.agent.commands[c := t.agent.commands[c]]
    requires t.workflow.rows == s.workflow.rows[c := PlannedRow(c, t.agent.commands[c], now, uuidText)]
    ensures Matches(t, uuidText)
  {}

  lemma AgentStepKeepsMatch(s: State, l: Agent.Label, digest: Event -> string, uuidText: Uuid -> string)
    requires Inv(s, uuidText) && Enabled(s, AgentStep(l))
    requires Workflow.Enabled(s.workflow, Followed(s, l, digest, uuidText))
    ensures Matches(Apply(s, AgentStep(l), digest, uuidText), uuidText)
  {
    var t, c := Apply(s, AgentStep(l), digest, uuidText), NewCommand(s.agent, l);
    FilesExactlyOne(s.agent, l, digest);
    if c.Some? { InsertKeepsMatch(s, t, c.value, l.now, uuidText); }
  }

  predicate SameCommand(q: Table.Row, r: Table.Row) {
    (r.key, r.kind, r.attemptId, r.generation) == (q.key, q.kind, q.attemptId, q.generation)
  }

  lemma WorkKeepsRows(w: Workflow.World, l: Workflow.Label)
    requires Workflow.Inv(w) && Workflow.Enabled(w, l) && !l.Insert?
    ensures Workflow.Apply(w, l).rows.Keys == w.rows.Keys
    ensures forall id :: id in w.rows ==> SameCommand(w.rows[id], Workflow.Apply(w, l).rows[id])
  {
    forall id | id in w.rows
      ensures id in Workflow.Apply(w, l).rows && SameCommand(w.rows[id], Workflow.Apply(w, l).rows[id])
    {
      Runs.RowStep(w, l, id);
    }
    if l.Record? { assert Workflow.JobOk(w, l.job); }
  }

  lemma StepKeepsInv(s: State, l: Label, digest: Event -> string, uuidText: Uuid -> string)
    requires Inv(s, uuidText) && Enabled(s, l) && Keys.Separable(uuidText)
    ensures Inv(Apply(s, l, digest, uuidText), uuidText)
  {
    match l
    case AgentStep(step) =>
      FollowedIsEnabled(s, step, digest, uuidText);
      Agent.StepKeepsInv(s.agent, step, digest);
      Runs.StepKeepsInv(s.workflow, Followed(s, step, digest, uuidText));
      AgentStepKeepsMatch(s, step, digest, uuidText);
    case WorkerStep(work) =>
      Runs.StepKeepsInv(s.workflow, work);
      WorkKeepsRows(s.workflow, work);
  }

  // ---------------------------------------------------------------- runs

  ghost predicate StepAt(ss: seq<State>, ls: seq<Label>, digest: Event -> string, uuidText: Uuid -> string, i: nat)
    requires i < |ls| && |ss| == |ls| + 1
  {
    Enabled(ss[i], ls[i]) && ss[i + 1] == Apply(ss[i], ls[i], digest, uuidText)
  }

  /** Any interleaving of agent transactions and workers, from any sound database in which no worker is at work. */
  ghost predicate IsRun(ss: seq<State>, ls: seq<Label>, digest: Event -> string, uuidText: Uuid -> string) {
    && |ss| == |ls| + 1 && Keys.Separable(uuidText)
    && Inv(ss[0], uuidText) && Workflow.Init(ss[0].workflow)
    && forall i :: 0 <= i < |ls| ==> StepAt(ss, ls, digest, uuidText, i)
  }

  /** The empty database starts a run. */
  lemma EmptyStarts(uuidText: Uuid -> string, digest: Event -> string)
    requires Keys.Separable(uuidText)
    ensures var empty := State(Db(map[], map[], map[], [], map[], map[], map[], []),
                               Workflow.World(map[], Facts.Facts(map[], []), 0, {}, {}));
      IsRun([empty], [], digest, uuidText)
  {
    Agent.EmptyIsSound();
  }

  lemma {:induction false} RunKeepsInv(ss: seq<State>, ls: seq<Label>, digest: Event -> string,
                                       uuidText: Uuid -> string, i: nat)
    requires IsRun(ss, ls, digest, uuidText) && i < |ss|
    ensures Inv(ss[i], uuidText)
  {
    if i > 0 {
      RunKeepsInv(ss, ls, digest, uuidText, i - 1);
      assert StepAt(ss, ls, digest, uuidText, i - 1);
      StepKeepsInv(ss[i - 1], ls[i - 1], digest, uuidText);
    }
  }

  /** No agent transaction is ever refused for its command row. */
  lemma CommandsAreNeverRefused(ss: seq<State>, ls: seq<Label>, digest: Event -> string, uuidText: Uuid -> string,
                                i: nat)
    requires IsRun(ss, ls, digest, uuidText) && i < |ls| && ls[i].AgentStep?
    ensures ss[i + 1].agent == Agent.Apply(ss[i].agent, ls[i].step, digest)
    ensures var followed := Followed(ss[i], ls[i].step, digest, uuidText);
      && Workflow.Enabled(ss[i].workflow, followed) && ss[i + 1].workflow == Workflow.Apply(ss[i].workflow, followed)
      && (NewCommand(ss[i].agent, ls[i].step).Some? ==>
            && followed.Insert? && NewCommand(ss[i].agent, ls[i].step) == Some(followed.row.id)
            && followed.row.createdAt == ls[i].step.now)
  {
    assert StepAt(ss, ls, digest, uuidText, i);
    RunKeepsInv(ss, ls, digest, uuidText, i);
    FollowedIsEnabled(ss[i], ls[i].step, digest, uuidText);
    FilesExactlyOne(ss[i].agent, ls[i].step, digest);
  }

  // ---------------------------------------------------------------- the workers' view

  ghost function Worlds(ss: seq<State>): (ws: seq<Workflow.World>)
    ensures |ws| == |ss| && forall i :: 0 <= i < |ss| ==> ws[i] == ss[i].workflow
  {
    seq(|ss|, i requires 0 <= i < |ss| => ss[i].workflow)
  }

  ghost function Work(s: State, l: Label, digest: Event -> string, uuidText: Uuid -> string): Workflow.Label {
    match l
    case AgentStep(step) => Followed(s, step, digest, uuidText)
    case WorkerStep(work) => work
  }

  ghost function Works(ss: seq<State>, ls: seq<Label>, digest: Event -> string, uuidText: Uuid -> string)
    : (ms: seq<Workflow.Label>)
    requires |ss| == |ls| + 1
    ensures |ms| == |ls| && forall i :: 0 <= i < |ls| ==> ms[i] == Work(ss[i], ls[i], digest, uuidText)
  {
    seq(|ls|, i requires 0 <= i < |ls| => Work(ss[i], ls[i], digest, uuidText))
  }

  /** Seen from the workers, a run of the platform is a run of the claim protocol. */
  lemma WorkersSeeARun(ss: seq<State>, ls: seq<Label>, digest: Event -> string, uuidText: Uuid -> string)
    requires IsRun(ss, ls, digest, uuidText)
    ensures Runs.IsRun(Worlds(ss), Works(ss, ls, digest, uuidText))
  {
    var ws, ms := Worlds(ss), Works(ss, ls, digest, uuidText);
    forall i | 0 <= i < |ms| ensures Runs.StepAt(ws, ms, i) {
      assert StepAt(ss, ls, digest, uuidText, i);
      if ls[i].AgentStep? { CommandsAreNeverRefused(ss, ls, digest, uuidText, i); }
    }
  }

  /** End to end: each command of the agent has its row, under a key that no other command has; its key is admitted at
      most once, and the row's final state tells the truth about it. */
  lemma AgentCommandsAreCarriedOut(ss: seq<State>, ls: seq<Label>, digest: Event -> string, uuidText: Uuid -> string,
                                   j: nat, c: Uuid)
    requires IsRun(ss, ls, digest, uuidText) && j < |ss| && c in ss[j].agent.commands
    ensures var w, key := ss[j].workflow, Keys.KeyText(ss[j].agent.commands[c], uuidText);
      && c in w.rows && w.rows[c].key == key
      && (w.rows[c].kind, w.rows[c].attemptId, w.rows[c].generation) ==
         (ss[j].agent.commands[c].kind, ss[j].agent.commands[c].attemptId, ss[j].agent.commands[c].generation)
      && (forall d :: d in w.rows && d != c ==> w.rows[d].key != key)
      && Facts.NoDuplicates(w.orchestrator.admitted)
      && (w.rows[c].state == Table.Dispatched ==>
            key in w.orchestrator.outcomes && w.orchestrator.outcomes[key] == Facts.Accepted)
      && (w.rows[c].state == Table.Failed ==>
            key in w.orchestrator.outcomes && w.orchestrator.outcomes[key] == Facts.Rejected)
  {
    RunKeepsInv(ss, ls, digest, uuidText, j);
    WorkersSeeARun(ss, ls, digest, uuidText);
    Runs.CommandsAreAdmittedOnceAndReportedTruthfully(Worlds(ss), Works(ss, ls, digest, uuidText), j, j, c);
  }

  /** A command that the agent files is passed to the orchestrator's dispatch and completed at most three times. */
  lemma AgentCommandsAreTriedAtMostThrice(ss: seq<State>, ls: seq<Label>, digest: Event -> string,
                                          uuidText: Uuid -> string, i: nat, j: nat, c: Uuid)
    requires IsRun(ss, ls, digest, uuidText) && i < j < |ss| && ls[i].AgentStep?
    requires NewCommand(ss[i].agent, ls[i].step) == Some(c)
    ensures c in ss[j].workflow.rows
    ensures var ws, ms := Worlds(ss), Works(ss, ls, digest, uuidText);
      && Bounds.DispatchCalls(ms, c, i + 1, j) <= Table.MAX_CLAIMS
      && Runs.Completions(ws, ms, c, i + 1, j) <= Table.MAX_CLAIMS
      && (Runs.Completions(ws, ms, c, i + 1, j) == Table.MAX_CLAIMS ==> Runs.Final(ss[j].workflow.rows[c]))
  {
    var ws, ms := Worlds(ss), Works(ss, ls, digest, uuidText);
    CommandsAreNeverRefused(ss, ls, digest, uuidText, i);
    WorkersSeeARun(ss, ls, digest, uuidText);
    assert ms[i].Insert? && ms[i].row.id == c;
    Runs.AtMostThreeCompletions(ws, ms, i, j);
    Bounds.AtMostThreeDispatchCalls(ws, ms, i, j);
  }

  /** Every agent transaction and every step of a worker may happen whenever it may happen on its own. */
  lemma StepsAreFree(s: State, step: Agent.Label, work: Workflow.Label)
    ensures Enabled(s, AgentStep(step)) <==> Agent.Enabled(s.agent, step)
    ensures Enabled(s, WorkerStep(work)) <==> !work.Insert? && Workflow.Enabled(s.workflow, work)
  {}
}
