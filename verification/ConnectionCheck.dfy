/** The `model_gateway.connection_check` table: trigger, constraints and unique indexes as a state machine. */
module ConnectionCheck {
  import opened Sql

  datatype CheckState = Queued | Running | Succeeded | Failed | Unknown | Blocked

  /** `BasicText` is also what rows from before the column was added carry. */
  datatype CheckKind = BasicText | StreamText | StreamStop | Thinking | SearchSources

  datatype Currentness = CurrentMaterial | StaleMaterial | Unverifiable

  /** `input` is a JSON object; only its `connection_ref` member is interpreted. */
  datatype Input = Input(connectionRef: Option<string>, rest: string)

  datatype Check = Check(
    id: Uuid,
    deploymentId: Uuid,
    revision: int,
    requestedBy: string,
    requestedAt: Time,
    input: Input,
    connectionRef: Option<string>,
    kind: CheckKind,
    state: CheckState,
    reason: Option<string>,
    attempt: int,
    token: Option<Uuid>,
    startedAt: Option<Time>,
    deadlineAt: Option<Time>,
    finishedAt: Option<Time>,
    elapsedMs: Option<int>,
    providerRequestId: Option<string>,
    reportedModelId: Option<string>,
    usage: Option<string>,
    material: Currentness)

  /** Which migrations have run: the table as created, with check kinds and stream observations, with deadlines
      required. */
  datatype Stage = Original | Streams | Deadlines

  // ---------------------------------------------------------------- CHECK constraints, three-valued

  predicate Attempted(s: CheckState) {
    s.Running? || s.Succeeded? || s.Failed? || s.Unknown?
  }

  function AttemptCheck(c: Check): Bool3 {
    Or(And(Lift(c.attempt == 0), And(IsNull(c.token), And(IsNull(c.startedAt), IsNull(c.deadlineAt)))),
       And(Lift(c.attempt == 1), And(NotNull(c.token), And(NotNull(c.startedAt),
           And(Earlier(c.startedAt, c.deadlineAt), NotNull(c.connectionRef))))))
  }

  function StateAttemptCheck(c: Check): Bool3 {
    Lift((!Attempted(c.state) && c.attempt == 0) || (Attempted(c.state) && c.attempt == 1))
  }

  function FinishCheck(c: Check): Bool3 {
    Or(And(Lift(c.state.Queued? || c.state.Running?), And(IsNull(c.finishedAt), IsNull(c.reason))),
    Or(And(Lift(c.state.Succeeded?), And(NotNull(c.finishedAt), IsNull(c.reason))),
       And(Lift(c.state.Failed? || c.state.Unknown? || c.state.Blocked?),
           And(NotNull(c.finishedAt), NotNull(c.reason)))))
  }

  /** The stream migration lets an UNKNOWN check report, too. */
  function ReportCheck(c: Check, stage: Stage): Bool3 {
    Or(Lift(c.state.Succeeded? || c.state.Failed? || (c.state.Unknown? && !stage.Original?)),
       And(IsNull(c.providerRequestId), And(IsNull(c.reportedModelId), IsNull(c.usage))))
  }

  function ColumnChecks(c: Check): Bool3 {
    And(Lift(c.revision >= 1), And(Lift(|c.requestedBy| > 0), And(Lift(c.attempt == 0 || c.attempt == 1),
    And(if c.elapsedMs.None? then Null3 else Lift(c.elapsedMs.value >= 0),
        Lift(c.connectionRef == c.input.connectionRef)))))
  }

  /** The later constraint that an attempted check has a deadline at all. */
  function DeadlinePresentCheck(c: Check): Bool3 {
    Or(Lift(c.attempt != 1), NotNull(c.deadlineAt))
  }

  predicate ConstraintsPass(c: Check, stage: Stage) {
    && Passes(ColumnChecks(c)) && Passes(AttemptCheck(c)) && Passes(StateAttemptCheck(c))
    && Passes(FinishCheck(c)) && Passes(ReportCheck(c, stage))
    && (stage.Original? ==> c.kind.BasicText?)
    && (stage.Deadlines? ==> Passes(DeadlinePresentCheck(c)))
  }

  /** What the constraints let through, without three-valued logic: a NULL deadline does not fail the comparison. */
  lemma ConstraintsByColumns(c: Check, stage: Stage)
    ensures ConstraintsPass(c, stage) <==>
      && c.revision >= 1 && c.requestedBy != "" && (c.elapsedMs != None ==> c.elapsedMs.value >= 0)
      && c.connectionRef == c.input.connectionRef
      && (stage == Original ==> c.kind == BasicText)
      && (stage == Deadlines && c.attempt == 1 ==> c.deadlineAt != None)
      && match c.state
         case Queued => NotAttempted(c) && c.finishedAt == None && c.reason == None && NothingReported(c)
         case Running => AttemptedOnce(c) && c.finishedAt == None && c.reason == None && NothingReported(c)
         case Succeeded => AttemptedOnce(c) && c.finishedAt != None && c.reason == None
         case Failed => AttemptedOnce(c) && c.finishedAt != None && c.reason != None
         case Unknown =>
           AttemptedOnce(c) && c.finishedAt != None && c.reason != None && (stage == Original ==> NothingReported(c))
         case Blocked => NotAttempted(c) && c.finishedAt != None && c.reason != None && NothingReported(c)
  {
    if c.attempt == 0 || c.attempt == 1 { AttemptByColumns(c); }
  }

  predicate NotAttempted(c: Check) {
    c.attempt == 0 && c.token == None && c.startedAt == None && c.deadlineAt == None
  }

  predicate AttemptedOnce(c: Check) {
    && c.attempt == 1 && c.token != None && c.startedAt != None && c.connectionRef != None
    && (c.deadlineAt != None ==> c.startedAt.value < c.deadlineAt.value)
  }

  predicate NothingReported(c: Check) {
    c.providerRequestId == None && c.reportedModelId == None && c.usage == None
  }

  lemma AttemptByColumns(c: Check)
    requires c.attempt == 0 || c.attempt == 1
    ensures Passes(AttemptCheck(c)) <==> NotAttempted(c) || AttemptedOnce(c)
  {
    if c.attempt == 0 {
      assert Passes(AttemptCheck(c)) <==> Passes(And(IsNull(c.token), And(IsNull(c.startedAt), IsNull(c.deadlineAt))));
    } else {
      assert Passes(AttemptCheck(c)) <==> Passes(And(NotNull(c.token), And(NotNull(c.startedAt),
        And(Earlier(c.startedAt, c.deadlineAt), NotNull(c.connectionRef)))));
    }
  }

  // ---------------------------------------------------------------- trigger and indexes

  /** What was asked for: the columns that no update may touch. */
  function Request(c: Check): (Uuid, Uuid, string, Time, Input, Option<string>, CheckKind) {
    (c.id, c.deploymentId, c.requestedBy, c.requestedAt, c.input, c.connectionRef, c.kind)
  }

  /** The one execution of a check: its token, when it started and when it must have finished. */
  function Execution(c: Check): (int, Option<Uuid>, Option<Time>, Option<Time>) {
    (c.attempt, c.token, c.startedAt, c.deadlineAt)
  }

  predicate InsertGuard(c: Check) {
    c.revision == 1 && (c.state.Queued? || c.state.Blocked?)
  }

  /** QUEUED leads to RUNNING or BLOCKED, RUNNING to an outcome of the same execution; the request stays. */
  predicate UpdateGuard(before: Check, after: Check) {
    && after.revision == before.revision + 1 && Request(after) == Request(before)
    && match before.state
       case Queued => after.state.Running? || after.state.Blocked?
       case Running =>
         && (after.state.Succeeded? || after.state.Failed? || after.state.Unknown?)
         && Execution(after) == Execution(before)
       case _ => false
  }

  /** The trigger, condition by condition; rows are compared column by column and NULLs are alike. It raises exactly
      what is not a step of a check's life. */
  method GuardConnectionCheck(prior: Option<Check>, next: Check) returns (raised: bool)
    ensures raised <==> !(if prior.None? then InsertGuard(next) else UpdateGuard(prior.value, next))
  {
    if prior.None? {
      return next.revision != 1 || !(next.state.Queued? || next.state.Blocked?);
    }
    var p := prior.value;
    var requestChanged :=
      || IsDistinct(Some(next.id), Some(p.id)) || IsDistinct(Some(next.deploymentId), Some(p.deploymentId))
      || IsDistinct(Some(next.requestedBy), Some(p.requestedBy))
      || IsDistinct(Some(next.requestedAt), Some(p.requestedAt))
      || IsDistinct(Some(next.input), Some(p.input)) || IsDistinct(next.connectionRef, p.connectionRef)
      || IsDistinct(Some(next.kind), Some(p.kind));
    var executionChanged :=
      || IsDistinct(Some(next.attempt), Some(p.attempt)) || IsDistinct(next.token, p.token)
      || IsDistinct(next.startedAt, p.startedAt) || IsDistinct(next.deadlineAt, p.deadlineAt);
    return
      || !(p.state.Queued? || p.state.Running?) || next.revision != p.revision + 1
      || requestChanged
      || (p.state.Queued? && !(next.state.Running? || next.state.Blocked?))
      || (p.state.Running? &&
          (!(next.state.Succeeded? || next.state.Failed? || next.state.Unknown?) || executionChanged));
  }

  type Table = map<Uuid, Check>

  predicate Active(s: CheckState) {
    s.Queued? || s.Running?
  }

  predicate RunsOnConnection(c: Check) {
    c.state.Running? && c.connectionRef.Some?
  }

  /** Both partial unique indexes; NULL connection references never collide. */
  predicate IndexesHold(t: Table) {
    && (forall a, b :: a in t && b in t && a != b && Active(t[a].state) && Active(t[b].state) ==>
          t[a].deploymentId != t[b].deploymentId)
    && (forall a, b :: a in t && b in t && a != b && RunsOnConnection(t[a]) && RunsOnConnection(t[b]) ==>
          t[a].connectionRef != t[b].connectionRef)
  }

  datatype Statement =
    | InsertCheck(row: Check)
    | UpdateCheck(id: Uuid, row: Check)
    | AddStreams
    | RequireDeadlines

  datatype Db = Db(table: Table, stage: Stage)

  /** What PostgreSQL accepts; a refused statement changes nothing. */
  predicate Accepts(db: Db, s: Statement) {
    match s
    case InsertCheck(row) =>
      && row.id !in db.table && InsertGuard(row) && ConstraintsPass(row, db.stage)
      && IndexesHold(db.table[row.id := row])
    case UpdateCheck(id, row) =>
      && id in db.table && UpdateGuard(db.table[id], row) && ConstraintsPass(row, db.stage)
      && IndexesHold(db.table[id := row])
    case AddStreams => db.stage.Original?
    case RequireDeadlines =>
      db.stage.Streams? && forall id :: id in db.table ==> Passes(DeadlinePresentCheck(db.table[id]))
  }

  function Executed(db: Db, s: Statement): Db {
    if !Accepts(db, s) then db
    else match s
      case InsertCheck(row) => db.(table := db.table[row.id := row])
      case UpdateCheck(id, row) => db.(table := db.table[id := row])
      case AddStreams => db.(stage := Streams)
      case RequireDeadlines => db.(stage := Deadlines)
  }

  /** The probe of both unique indexes for one row about to be written. */
  predicate Collides(t: Table, row: Check) {
    exists o :: o in t && o != row.id &&
      ((Active(t[o].state) && Active(row.state) && t[o].deploymentId == row.deploymentId)
       || (RunsOnConnection(t[o]) && RunsOnConnection(row) && t[o].connectionRef == row.connectionRef))
  }

  lemma ProbingOneRowSuffices(t: Table, row: Check)
    requires IndexesHold(t)
    ensures IndexesHold(t[row.id := row]) <==> !Collides(t, row)
  {
    var u := t[row.id := row];
    if !Collides(t, row) {
      forall a, b | a in u && b in u && a != b && Active(u[a].state) && Active(u[b].state)
        ensures u[a].deploymentId != u[b].deploymentId
      {}
      forall a, b | a in u && b in u && a != b && RunsOnConnection(u[a]) && RunsOnConnection(u[b])
        ensures u[a].connectionRef != u[b].connectionRef
      {}
    } else {
      var o :| o in t && o != row.id &&
        ((Active(t[o].state) && Active(row.state) && t[o].deploymentId == row.deploymentId)
         || (RunsOnConnection(t[o]) && RunsOnConnection(row) && t[o].connectionRef == row.connectionRef));
      assert u[o] == t[o] && u[row.id] == row;
    }
  }

  /** The table as the database keeps it: the trigger, then the constraints, then an index probe for the one row. */
  class CheckTable {
    var rows: Table
    var stage: Stage

    constructor ()
      ensures rows == map[] && stage == Original
    {
      rows, stage := map[], Original;
    }

    method Write(prior: Option<Check>, row: Check) returns (accepted: bool)
      requires IndexesHold(rows)
      requires if prior.Some? then row.id in rows && rows[row.id] == prior.value else row.id !in rows
      modifies this`rows
      ensures accepted == (
        && (if prior.None? then InsertGuard(row) else UpdateGuard(prior.value, row))
        && ConstraintsPass(row, stage) && IndexesHold(old(rows)[row.id := row]))
      ensures rows == if accepted then old(rows)[row.id := row] else old(rows)
    {
      ProbingOneRowSuffices(rows, row);
      var raised := GuardConnectionCheck(prior, row);
      if raised || !ConstraintsPass(row, stage) || Collides(rows, row) {
        return false;
      }
      rows := rows[row.id := row];
      return true;
    }

    /** Refines the declarative form, in which the indexes are conditions on all pairs of rows. */
    method Execute(s: Statement) returns (accepted: bool)
      requires Inv(Db(rows, stage))
      modifies this
      ensures accepted == Accepts(Db(old(rows), old(stage)), s)
      ensures Db(rows, stage) == Executed(Db(old(rows), old(stage)), s)
      ensures Inv(Db(rows, stage))
    {
      StatementKeepsInv(Db(rows, stage), s);
      match s {
        case InsertCheck(row) =>
          if row.id in rows { return false; }
          accepted := Write(None, row);
        case UpdateCheck(id, row) =>
          if id !in rows { return false; }
          assert RowOk(Db(rows, stage), id);
          if row.id != id { return false; }
          accepted := Write(Some(rows[id]), row);
        case AddStreams =>
          accepted := stage.Original?;
          if accepted { stage := Streams; }
        case RequireDeadlines =>
          accepted := stage.Streams? && forall id :: id in rows ==> Passes(DeadlinePresentCheck(rows[id]));
          if accepted { stage := Deadlines; }
      }
    }
  }

  // ---------------------------------------------------------------- every sequence of statements

  function After(db: Db, ss: seq<Statement>): Db {
    if ss == [] then db else Executed(After(db, ss[..|ss| - 1]), ss[|ss| - 1])
  }

  const EMPTY := Db(map[], Original)

  ghost predicate Inv(db: Db) {
    && IndexesHold(db.table)
    && forall id :: id in db.table ==> RowOk(db, id)
  }

  ghost predicate RowOk(db: Db, id: Uuid)
    requires id in db.table
  {
    var c := db.table[id];
    c.id == id && ConstraintsPass(c, db.stage) && AgeOk(c)
  }

  /** A check is updated at most twice. */
  ghost predicate AgeOk(c: Check) {
    1 <= c.revision <= 3 && (c.state.Queued? ==> c.revision == 1) && (c.state.Running? ==> c.revision == 2)
  }

  lemma UpdateAges(before: Check, after: Check)
    requires AgeOk(before) && UpdateGuard(before, after)
    ensures AgeOk(after) && after.id == before.id
  {}

  lemma StatementKeepsInv(db: Db, s: Statement)
    requires Inv(db)
    ensures Inv(Executed(db, s))
  {
    var v := Executed(db, s);
    forall id | id in v.table ensures RowOk(v, id) {
      if id in db.table {
        assert RowOk(db, id);
        if s.UpdateCheck? && Accepts(db, s) && id == s.id { UpdateAges(db.table[id], s.row); }
      }
    }
  }

  lemma {:induction false} ReachableIsSound(ss: seq<Statement>)
    ensures Inv(After(EMPTY, ss))
  {
    if ss != [] {
      ReachableIsSound(ss[..|ss| - 1]);
      StatementKeepsInv(After(EMPTY, ss[..|ss| - 1]), ss[|ss| - 1]);
    }
  }

  /** How a check may differ from what it was earlier. */
  ghost predicate Evolved(before: Check, after: Check) {
    && (after.id, after.deploymentId, after.requestedBy, after.requestedAt, after.input, after.connectionRef,
        after.kind)
       == (before.id, before.deploymentId, before.requestedBy, before.requestedAt, before.input, before.connectionRef,
           before.kind)
    && after.revision >= before.revision
    && (after.revision == before.revision ==> after == before)
    && (before.token.Some? ==>
          (after.attempt, after.token, after.startedAt, after.deadlineAt) ==
          (before.attempt, before.token, before.startedAt, before.deadlineAt))
    && (before.state.Queued? || before.state.Running? || after == before)
  }

  lemma EvolvedTransitive(a: Check, b: Check, c: Check)
    requires Evolved(a, b) && Evolved(b, c)
    ensures Evolved(a, c)
  {}

  lemma StatementEvolves(db: Db, s: Statement, id: Uuid)
    requires Inv(db) && id in db.table
    ensures id in Executed(db, s).table && Evolved(db.table[id], Executed(db, s).table[id])
  {
    assert RowOk(db, id);
  }

  /** Over any later statements a check keeps its input, its one execution token with start and deadline, and,
      once terminal, everything. */
  lemma {:induction false} ChecksEvolve(ss: seq<Statement>, n: nat, id: Uuid)
    requires n <= |ss| && id in After(EMPTY, ss[..n]).table
    ensures id in After(EMPTY, ss).table
    ensures Evolved(After(EMPTY, ss[..n]).table[id], After(EMPTY, ss).table[id])
    decreases |ss|
  {
    if n == |ss| {
      assert ss[..n] == ss;
    } else {
      var most := ss[..|ss| - 1];
      assert most[..n] == ss[..n];
      ChecksEvolve(most, n, id);
      ReachableIsSound(most);
      StatementEvolves(After(EMPTY, most), ss[|ss| - 1], id);
      EvolvedTransitive(After(EMPTY, ss[..n]).table[id], After(EMPTY, most).table[id], After(EMPTY, ss).table[id]);
    }
  }

  /** A check carries at most one execution token in its whole life. */
  lemma OneTokenEver(ss: seq<Statement>, m: nat, n: nat, id: Uuid)
    requires m <= n <= |ss| && id in After(EMPTY, ss[..m]).table && After(EMPTY, ss[..m]).table[id].token.Some?
    ensures id in After(EMPTY, ss[..n]).table
    ensures After(EMPTY, ss[..n]).table[id].token == After(EMPTY, ss[..m]).table[id].token
  {
    assert ss[..n][..m] == ss[..m];
    ChecksEvolve(ss[..n], m, id);
  }

  /** At every moment a connection has at most one running check, a deployment at most one open one, and a check has
      a token exactly when it has been attempted. */
  lemma ReachableTables(ss: seq<Statement>, a: Uuid, b: Uuid)
    requires a in After(EMPTY, ss).table && b in After(EMPTY, ss).table
    ensures var t := After(EMPTY, ss).table;
            && t[a].revision <= 3
            && (t[a].token.Some? <==> Attempted(t[a].state))
            && (Attempted(t[a].state) ==> t[a].startedAt.Some? && t[a].connectionRef.Some?)
            && (a != b && (t[a].state.Queued? || t[a].state.Running?) && (t[b].state.Queued? || t[b].state.Running?) ==>
                  t[a].deploymentId != t[b].deploymentId)
            && (a != b && t[a].state.Running? && t[b].state.Running? ==> t[a].connectionRef != t[b].connectionRef)
  {
    ReachableIsSound(ss);
    var db := After(EMPTY, ss);
    assert RowOk(db, a) && RowOk(db, b);
    AttemptedRows(db.table[a], db.stage);
    AttemptedRows(db.table[b], db.stage);
  }

  /** What the constraints say about an attempted check: everything but the presence of a deadline. */
  lemma AttemptedRows(c: Check, stage: Stage)
    requires ConstraintsPass(c, stage)
    ensures c.token.Some? <==> Attempted(c.state)
    ensures Attempted(c.state) ==> c.startedAt.Some? && c.connectionRef.Some?
    ensures Attempted(c.state) && c.deadlineAt.Some? ==> c.startedAt.value < c.deadlineAt.value
    ensures Passes(DeadlinePresentCheck(c)) <==> !WithoutDeadline(c)
  {
    assert c.attempt == if Attempted(c.state) then 1 else 0;
    if c.attempt == 0 {
      assert Passes(And(IsNull(c.token), And(IsNull(c.startedAt), IsNull(c.deadlineAt))));
    } else {
      assert Passes(And(NotNull(c.token), And(NotNull(c.startedAt),
        And(Earlier(c.startedAt, c.deadlineAt), NotNull(c.connectionRef)))));
    }
  }

  // ---------------------------------------------------------------- deadlines

  predicate WithoutDeadline(c: Check) { Attempted(c.state) && c.deadlineAt.None? }

  /** The statement sets a check running and leaves its deadline NULL. */
  predicate StartsWithoutDeadline(s: Statement, id: Uuid) {
    s.UpdateCheck? && s.id == id && s.row.state.Running? && s.row.deadlineAt.None?
  }

  /** Some accepted statement among these started the check without a deadline. */
  ghost predicate OnceStartedWithout(ss: seq<Statement>, id: Uuid) {
    exists k :: 0 <= k < |ss| && StartsWithoutDeadline(ss[k], id) && Accepts(After(EMPTY, ss[..k]), ss[k])
  }

  /** One statement more. */
  lemma OnceStartedStep(ss: seq<Statement>, id: Uuid)
    requires ss != []
    ensures var most, s := ss[..|ss| - 1], ss[|ss| - 1];
      OnceStartedWithout(ss, id) <==>
      OnceStartedWithout(most, id) || (StartsWithoutDeadline(s, id) && Accepts(After(EMPTY, most), s))
  {
    var most := ss[..|ss| - 1];
    forall k | 0 <= k < |most| ensures ss[k] == most[k] && ss[..k] == most[..k] {}
    if OnceStartedWithout(most, id) {
      var k :| 0 <= k < |most| && StartsWithoutDeadline(most[k], id) && Accepts(After(EMPTY, most[..k]), most[k]);
      assert ss[k] == most[k] && ss[..k] == most[..k];
    }
  }

  lemma DeadlineStep(db: Db, s: Statement, id: Uuid)
    requires Inv(db)
    ensures var v := Executed(db, s);
      (id in v.table && WithoutDeadline(v.table[id])) <==>
      (id in db.table && WithoutDeadline(db.table[id])) || (StartsWithoutDeadline(s, id) && Accepts(db, s))
  {
    if id in db.table {
      assert RowOk(db, id);
      AttemptedRows(db.table[id], db.stage);
    }
  }

  /** An attempted check lacks its deadline exactly if some accepted update once set it running with a NULL one. */
  lemma {:induction false} MissingDeadlines(ss: seq<Statement>, id: Uuid)
    ensures (id in After(EMPTY, ss).table && WithoutDeadline(After(EMPTY, ss).table[id])) <==>
            OnceStartedWithout(ss, id)
  {
    if ss != [] {
      var most := ss[..|ss| - 1];
      MissingDeadlines(most, id);
      ReachableIsSound(most);
      DeadlineStep(After(EMPTY, most), ss[|ss| - 1], id);
      OnceStartedStep(ss, id);
    }
  }

  /** The deadline constraint can be added exactly if no check was ever started without one. */
  lemma DeadlinesCanBeRequired(ss: seq<Statement>)
    requires After(EMPTY, ss).stage.Streams?
    ensures Accepts(After(EMPTY, ss), RequireDeadlines) <==> forall id :: !OnceStartedWithout(ss, id)
  {
    var db := After(EMPTY, ss);
    ReachableIsSound(ss);
    forall id ensures (id in db.table ==> Passes(DeadlinePresentCheck(db.table[id]))) <==> !OnceStartedWithout(ss, id) {
      MissingDeadlines(ss, id);
      if id in db.table {
        assert RowOk(db, id);
        AttemptedRows(db.table[id], db.stage);
      }
    }
  }

  /** Once the deadline constraint is in place, every attempted check has a deadline after its start, and none was
      ever started without one. */
  lemma DeadlinesAfterConstraint(ss: seq<Statement>, id: Uuid)
    requires After(EMPTY, ss).stage.Deadlines? && id in After(EMPTY, ss).table
    requires Attempted(After(EMPTY, ss).table[id].state)
    ensures var c := After(EMPTY, ss).table[id];
            c.startedAt.Some? && c.deadlineAt.Some? && c.startedAt.value < c.deadlineAt.value
    ensures !OnceStartedWithout(ss, id)
  {
    ReachableIsSound(ss);
    assert RowOk(After(EMPTY, ss), id);
    AttemptedRows(After(EMPTY, ss).table[id], Deadlines);
    MissingDeadlines(ss, id);
  }

  lemma Three(a: Statement, b: Statement, c: Statement)
    ensures After(EMPTY, [a, b, c]) == Executed(Executed(Executed(EMPTY, a), b), c)
    ensures After(EMPTY, [a, b, c][..2]) == Executed(Executed(EMPTY, a), b)
  {
    assert [a, b, c][..2] == [a, b] && [a, b][..1] == [a] && [a][..0] == [];
    assert After(EMPTY, [a]) == Executed(EMPTY, a);
    assert After(EMPTY, [a, b]) == Executed(Executed(EMPTY, a), b);
  }

  const QUEUED := Check(0, 0, 1, "a", 0, Input(Some("c"), ""), Some("c"), BasicText, Queued, None, 0, None, None, None,
                        None, None, None, None, None, CurrentMaterial)

  const RUNNING := QUEUED.(revision := 2, state := Running, attempt := 1, token := Some(1), startedAt := Some(0))

  lemma StartIsAccepted()
    ensures Executed(Executed(EMPTY, AddStreams), InsertCheck(QUEUED)) == Db(map[0 := QUEUED], Streams)
    ensures Accepts(Db(map[0 := QUEUED], Streams), UpdateCheck(0, RUNNING))
  {
    assert Accepts(Db(map[], Streams), InsertCheck(QUEUED));
  }

  /** Before it, the other constraints let an attempted check go without one: NULL does not fail a CHECK. */
  lemma MissingDeadlineSlipsThrough() returns (ss: seq<Statement>)
    ensures After(EMPTY, ss).stage.Streams? && 0 in After(EMPTY, ss).table && OnceStartedWithout(ss, 0)
    ensures After(EMPTY, ss).table[0].state.Running? && After(EMPTY, ss).table[0].deadlineAt.None?
    ensures !Accepts(After(EMPTY, ss), RequireDeadlines)
  {
    ss := [AddStreams, InsertCheck(QUEUED), UpdateCheck(0, RUNNING)];
    Three(ss[0], ss[1], ss[2]);
    StartIsAccepted();
    assert StartsWithoutDeadline(ss[2], 0);
    DeadlinesCanBeRequired(ss);
  }
}
