/** Workers, the orchestrator and the command table as one interleaved system. */
module WorkflowProtocol {
  import opened Sql
  import opened WorkflowTable
  import opened Orchestrator

  const CLAIM_LEASE: Time := 30

  // ---------------------------------------------------------------- what a worker decides

  function Uncertain(c: Row): Mutation {
    Mutation(Unknown, None,
      Some(if c.attempts >= MAX_CLAIMS then AttemptsExhausted else AcknowledgementUnknown))
  }

  /** The receipt is kept only when it acknowledges this very command. */
  function Acknowledged(c: Row, receipt: Option<string>): Mutation {
    if receipt == Some(c.key) then Mutation(Dispatched, Some(AcceptedReceipt(c.key)), None) else Uncertain(c)
  }

  /** One iteration of the dispatch loop, from the answer to what is recorded. */
  function DecideDispatch(c: Row, answer: CallAnswer): Mutation {
    match answer
    case RaisedPreCall =>
      if c.attempts >= MAX_CLAIMS then Mutation(Unknown, None, Some(AttemptsExhausted))
      else Mutation(Planned, None, Some(PreCallFailure))
    case Raised => Uncertain(c)
    case CallAccepted(receipt) => Acknowledged(c, Some(receipt))
    case CallRejected => Mutation(Failed, None, Some(DeterministicRejection))
    case CallUnacknowledged => Uncertain(c)
  }

  /** One iteration of the reconciliation loop. */
  function DecideReconcile(c: Row, answer: LookupAnswer): Mutation {
    match answer
    case Confirmed(receipt) => Acknowledged(c, Some(receipt))
    case LookupRejected => Mutation(Failed, None, Some(ReconciliationRejected))
    case NeverObserved =>
      if c.state == Planned && c.attempts < MAX_CLAIMS then Mutation(Planned, None, None) else Uncertain(c)
    case StillUnknown => Uncertain(c)
  }

  // ---------------------------------------------------------------- the system

  /** A row a worker holds in memory, and after its call the mutation it will record. */
  datatype Job = Job(command: Row, decision: Option<Mutation>)

  datatype World = World(
    rows: Table,
    orchestrator: Facts,
    now: Time,
    minted: set<Uuid>,
    jobs: set<Job>)

  datatype Label =
    | Insert(row: Row)
    | Tick(to: Time)
    | ClaimRows(mode: ClaimMode, owner: string, token: Uuid, readAt: Time, ids: set<Uuid>)
    | Call(job: Job, fault: CallFault)
    | Lookup(job: Job, view: LookupView)
    | Record(job: Job, at: Time)
    | Park
    | Crash(lost: set<Job>)

  function ClaimOf(l: Label): Claim
    requires l.ClaimRows?
  {
    Claim(l.owner, l.token, l.readAt + CLAIM_LEASE, l.mode)
  }

  predicate FreshRow(w: World, r: Row) {
    && r.id !in w.rows
    && (forall id :: id in w.rows ==> w.rows[id].key != r.key)
    && r.state == Planned && r.attempts == 0 && r.receipt == None && r.error == None && r.dispatchedAt == None
    && r == Unclaimed(r)
  }

  /** `readAt` is a clock reading the worker took at or before this instant. */
  predicate Enabled(w: World, l: Label) {
    match l
    case Insert(row) => FreshRow(w, row)
    case Tick(to) => w.now <= to
    case ClaimRows(mode, owner, token, readAt, ids) =>
      && NonBlank(owner) && token !in w.minted && readAt <= w.now && ids <= w.rows.Keys
      && forall id :: id in ids ==> Eligible(w.rows[id], mode, readAt)
    case Call(job, _) => job in w.jobs && job.decision.None? && job.command.mode == Some(Dispatch)
    case Lookup(job, _) => job in w.jobs && job.decision.None? && job.command.mode == Some(Reconcile)
    case Record(job, at) => job in w.jobs && job.decision.Some? && at <= w.now
    case Park => true
    case Crash(lost) => lost <= w.jobs
  }

  /** The completion UPDATE finds its row. */
  predicate Hits(w: World, job: Job) {
    && job.command.id in w.rows && job.command.token.Some?
    && Recordable(w.rows[job.command.id], job.command.state, job.command.token.value)
  }

  function Apply(w: World, l: Label): World
    requires Enabled(w, l)
  {
    match l
    case Insert(row) => w.(rows := w.rows[row.id := row])
    case Tick(to) => w.(now := to)
    case ClaimRows(_, _, token, _, ids) =>
      var rows := ClaimAll(w.rows, ids, ClaimOf(l));
      w.(rows := rows, minted := w.minted + {token},
         jobs := w.jobs + set id | id in ids :: Job(rows[id], None))
    case Call(job, fault) =>
      var (facts, answer) := DispatchCall(w.orchestrator, job.command.key, fault);
      w.(orchestrator := facts,
         jobs := w.jobs - {job} + {job.(decision := Some(DecideDispatch(job.command, answer)))})
    case Lookup(job, view) =>
      var answer := LookupCall(w.orchestrator, job.command.key, view);
      w.(jobs := w.jobs - {job} + {job.(decision := Some(DecideReconcile(job.command, answer)))})
    case Record(job, at) =>
      var done := w.(jobs := w.jobs - {job});
      if Hits(w, job) then
        var id := job.command.id;
        done.(rows := w.rows[id := Recorded(w.rows[id], job.decision.value, at)])
      else done
    case Park => w.(rows := ParkAll(w.rows))
    case Crash(lost) => w.(jobs := w.jobs - lost)
  }

  /** The step claims row `id`, in some mode. */
  predicate Claims(l: Label, id: Uuid) {
    l.ClaimRows? && id in l.ids
  }

  /** The step completes row `id`: its UPDATE matched. */
  predicate Completes(w: World, l: Label, id: Uuid) {
    l.Record? && l.job.command.id == id && Hits(w, l.job)
  }

  // ---------------------------------------------------------------- invariant

  /** Receipt, time and error code are exactly those the state calls for. */
  ghost predicate EvidenceOk(r: Row) {
    match r.state
    case Planned => r.receipt.None? && r.dispatchedAt.None? && (r.error == None || r.error == Some(PreCallFailure))
    case Dispatched => r.receipt == Some(AcceptedReceipt(r.key)) && r.dispatchedAt.Some? && r.error.None?
    case Unknown =>
      && r.receipt.None? && r.dispatchedAt.None?
      && (r.error == Some(AcknowledgementUnknown) || r.error == Some(AttemptsExhausted))
    case Failed =>
      && r.receipt.None? && r.dispatchedAt.None?
      && (r.error == Some(DeterministicRejection) || r.error == Some(ReconciliationRejected))
  }

  /** What every row satisfies: all claim columns or none, three attempts at most, evidence for its state. */
  ghost predicate RowOk(r: Row) {
    && r.attempts <= MAX_CLAIMS
    && (Unheld(r) || Held(r))
    && (r.mode == Some(Dispatch) ==> r.state == Planned)
    && (r.mode.Some? ==> (r.state == Planned || r.state == Unknown))
    && EvidenceOk(r)
    && (Unheld(r) && r.state == Planned ==> r.attempts < MAX_CLAIMS)
    && (Unheld(r) && r.state == Unknown && r.attempts >= MAX_CLAIMS ==> r.error == Some(AttemptsExhausted))
  }

  /** The recorded state is one the orchestrator's facts bear out. */
  ghost predicate BorneOut(s: CommandState, key: string, f: Facts) {
    && (s == Dispatched ==> key in f.outcomes && f.outcomes[key] == Accepted)
    && (s == Failed ==> key in f.outcomes && f.outcomes[key] == Rejected)
  }

  /** Recording the mutation, whenever it happens, leaves a sound row. */
  ghost predicate Recordables(c: Row, m: Mutation) {
    forall at :: RowOk(Recorded(c, m, at))
  }

  ghost predicate JobOk(w: World, j: Job) {
    var c := j.command;
    && c.id in w.rows && w.rows[c.id].key == c.key
    && RowOk(c) && Held(c) && c.token.value in w.minted
    && (w.rows[c.id].token == c.token ==> w.rows[c.id] == c)
    && (j.decision.Some? ==>
          && BorneOut(j.decision.value.state, c.key, w.orchestrator)
          && Recordables(c, j.decision.value))
  }

  ghost predicate TableOk(rows: Table) {
    && (forall id :: id in rows ==> rows[id].id == id && RowOk(rows[id]))
    && (forall a, b :: a in rows && b in rows && rows[a].key == rows[b].key ==> a == b)
  }

  ghost predicate Inv(w: World) {
    && TableOk(w.rows)
    && (forall id :: id in w.rows && w.rows[id].token.Some? ==> w.rows[id].token.value in w.minted)
    && (forall id :: id in w.rows ==> BorneOut(w.rows[id].state, w.rows[id].key, w.orchestrator))
    && (forall j :: j in w.jobs ==> JobOk(w, j))
    && FactsOk(w.orchestrator)
  }

  /** Nobody is working yet; the table may be empty or come out of the migration. */
  ghost predicate Init(w: World) {
    Inv(w) && w.jobs == {}
  }
}
