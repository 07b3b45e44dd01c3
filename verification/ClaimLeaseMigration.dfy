/** The data migration that brings legacy command rows under the claim protocol. */
module ClaimLeaseMigration {
  import opened Sql
  import opened WorkflowTable
  import WorkflowProtocol
  import Orchestrator
  import opened WorkflowRuns
  import opened WorkflowBounds

  /** `receipt->>'outcome'`: NULL for a missing receipt, a missing member or JSON null. */
  function OutcomeText(receipt: Option<JsonObject>): Option<string> {
    if receipt.None? || "outcome" !in receipt.value then None
    else match receipt.value["outcome"]
      case JString(text) => Some(text)
      case JNull => None
      case JOther(text) => Some(text)
  }

  function ExhaustedOr(r: Row, other: ErrorText): Option<ErrorText> {
    Some(if r.attempts >= MAX_CLAIMS then AttemptsExhausted else other)
  }

  const PREDECESSOR_OWNER := "migration-0002-predecessor-claimed"

  const EPOCH: Time := 0

  // ---------------------------------------------------------------- the six statements, row by row

  function AdoptPredecessorClaim(r: Row): Row {
    if Selects(And(Lift(r.state == Unknown), Eq(OutcomeText(r.receipt), "CLAIMED"))) then
      r.(attempts := if r.attempts < MAX_CLAIMS then r.attempts else MAX_CLAIMS,
         receipt := None, dispatchedAt := None, error := ExhaustedOr(r, AcknowledgementUnknown),
         owner := Some(PREDECESSOR_OWNER), token := Some(r.id), lease := Some(EPOCH), mode := Some(Reconcile))
    else r
  }

  function NormalizePlanned(r: Row): Row {
    if r.state == Planned then
      r.(state := if r.attempts >= MAX_CLAIMS then Unknown else Planned,
         receipt := None, dispatchedAt := None,
         error := if r.attempts >= MAX_CLAIMS then Some(AttemptsExhausted)
                  else if r.error.Some? then Some(PreCallFailure) else None)
    else r
  }

  function NormalizeUnknown(r: Row): Row {
    if r.state == Unknown && r.token.None? then
      r.(receipt := None, dispatchedAt := None, error := ExhaustedOr(r, AcknowledgementUnknown))
    else r
  }

  function DemoteUnproven(r: Row): Row {
    if Selects(And(Lift(r.state == Dispatched), Or(IsNull(r.receipt), Neq(r.receipt, AcceptedReceipt(r.key))))) then
      r.(state := Unknown, receipt := None, dispatchedAt := None, error := ExhaustedOr(r, AcknowledgementUnknown))
    else r
  }

  function NormalizeFailed(r: Row): Row {
    if r.state == Failed then
      r.(receipt := None, dispatchedAt := None,
         error := if Selects(Eq(r.error, ReconciliationRejected)) then Some(ReconciliationRejected)
                  else Some(DeterministicRejection))
    else r
  }

  function CapAttempts(r: Row): Row {
    if r.attempts > MAX_CLAIMS then r.(attempts := MAX_CLAIMS) else r
  }

  function Migrated(r: Row): Row {
    CapAttempts(NormalizeFailed(DemoteUnproven(NormalizeUnknown(NormalizePlanned(AdoptPredecessorClaim(r))))))
  }

  // ---------------------------------------------------------------- the statements on the table

  /** The table between `ADD COLUMN` and `ADD CONSTRAINT`. */
  class CommandTable {
    var rows: Table

    constructor (initial: Table)
      ensures rows == initial
    {
      rows := initial;
    }

    /** One UPDATE over every row. */
    method Update(statement: Row -> Row)
      modifies this
      ensures rows.Keys == old(rows).Keys
      ensures forall id :: id in rows ==> rows[id] == statement(old(rows)[id])
    {
      rows := map id | id in rows :: statement(rows[id]);
    }

    /** Each UPDATE sees the rows its predecessors left; a row that fails a constraint aborts the migration, and its
        transaction leaves the table as it was. */
    method Upgrade() returns (admitted: bool)
      modifies this
      ensures admitted <==> forall id :: id in old(rows) ==> ChecksPass(Migrated(old(rows)[id]))
      ensures admitted ==> rows.Keys == old(rows).Keys
      ensures admitted ==> forall id :: id in rows ==> rows[id] == Migrated(old(rows)[id])
      ensures !admitted ==> rows == old(rows)
    {
      var before := rows;
      Update(AdoptPredecessorClaim);
      Update(NormalizePlanned);
      Update(NormalizeUnknown);
      Update(DemoteUnproven);
      Update(NormalizeFailed);
      Update(CapAttempts);
      admitted := forall id :: id in rows ==> ChecksPass(rows[id]);
      if !admitted {
        rows := before;
      }
    }
  }

  // ---------------------------------------------------------------- what it guarantees

  /** A predecessor claim is recognised by its receipt's outcome member alone. */
  lemma RecognisedClaims(receipt: Option<JsonObject>)
    ensures OutcomeText(receipt) == Some("CLAIMED") <==>
      && receipt != None && "outcome" in receipt.value
      && (receipt.value["outcome"] == JString("CLAIMED") || receipt.value["outcome"] == JOther("CLAIMED"))
  {}

  /** A legacy row: the claim columns have just been added and are NULL. */
  predicate Legacy(r: Row) {
    r == Unclaimed(r)
  }

  /** A row reported as dispatched with the exact receipt, but without its time or with an error code. */
  predicate Contradictory(r: Row) {
    r.state == Dispatched && r.receipt == Some(AcceptedReceipt(r.key)) && (r.dispatchedAt.None? || r.error.Some?)
  }

  /** What the six statements do to each kind of legacy row, in one table. */
  ghost function Expected(r: Row): Row {
    var n := if r.attempts < MAX_CLAIMS then r.attempts else MAX_CLAIMS;
    var pending := if n == MAX_CLAIMS then Some(AttemptsExhausted) else Some(AcknowledgementUnknown);
    var unknown := r.(state := Unknown, attempts := n, receipt := None, dispatchedAt := None, error := pending);
    match r.state
    case Unknown =>
      if OutcomeText(r.receipt) == Some("CLAIMED") then
        unknown.(owner := Some("migration-0002-predecessor-claimed"), token := Some(r.id), lease := Some(0),
                 mode := Some(Reconcile))
      else unknown
    case Planned =>
      if n == MAX_CLAIMS then unknown
      else r.(receipt := None, dispatchedAt := None, error := if r.error.Some? then Some(PreCallFailure) else None)
    case Dispatched =>
      if r.receipt == Some(AcceptedReceipt(r.key)) then r.(attempts := n) else unknown
    case Failed =>
      r.(attempts := n, receipt := None, dispatchedAt := None,
         error := if r.error == Some(ReconciliationRejected) then r.error else Some(DeterministicRejection))
  }

  lemma MigratedAsExpected(r: Row)
    requires Legacy(r)
    ensures Migrated(r) == Expected(r)
  {
    var a := AdoptPredecessorClaim(r);
    var b := NormalizePlanned(a);
    var c := NormalizeUnknown(b);
    match r.state
    case Unknown => assert b == a && DemoteUnproven(c) == c && NormalizeFailed(c) == c;
    case Planned => assert a == r && DemoteUnproven(c) == c && NormalizeFailed(c) == c;
    case Dispatched => assert c == r; assert NormalizeFailed(DemoteUnproven(r)) == DemoteUnproven(r);
    case Failed => assert c == r && DemoteUnproven(r) == r;
  }

  /** The constraints hold afterwards exactly for the rows that did not contradict themselves. */
  lemma UpgradeSucceedsIffConsistent(r: Row)
    requires Legacy(r)
    ensures ChecksPass(Migrated(r)) <==> !Contradictory(r)
    ensures WorkflowProtocol.RowOk(Migrated(r)) <==> !Contradictory(r)
  {
    MigratedAsExpected(r);
    var m := Migrated(r);
    assert NonBlank(PREDECESSOR_OWNER) by { assert PREDECESSOR_OWNER[0] != ' '; }
    if Contradictory(r) {
      assert OutcomeCheck(m) == False3;
    } else {
      RowOkPassesChecks(m);
    }
  }

  /** Identity, history order and the number of attempts up to the cap survive. */
  lemma UpgradePreservesIdentity(r: Row)
    requires Legacy(r)
    ensures var m := Migrated(r);
            && (m.id, m.key, m.kind, m.attemptId, m.generation, m.createdAt) ==
               (r.id, r.key, r.kind, r.attemptId, r.generation, r.createdAt)
            && m.attempts == (if r.attempts < MAX_CLAIMS then r.attempts else MAX_CLAIMS)
            && (m.state == Failed <==> r.state == Failed)
            && (m.state == Dispatched ==> r.state == Dispatched)
  {
    MigratedAsExpected(r);
  }

  /** A migrated claim is fenced by the row's own id and has already expired. */
  lemma MigratedClaim(r: Row)
    requires Legacy(r)
    ensures var m := Migrated(r);
            && m.id == r.id && m.key == r.key
            && (m.token.Some? ==> m.token.value == r.id && forall t :: 0 <= t ==> Eligible(m, Reconcile, t))
  {
    MigratedAsExpected(r);
  }

  lemma SoundTableStarts(rows: Table, facts: Orchestrator.Facts, now: Time, minted: set<Uuid>)
    requires WorkflowProtocol.TableOk(rows) && Orchestrator.FactsOk(facts)
    requires forall id :: id in rows ==> WorkflowProtocol.BorneOut(rows[id].state, rows[id].key, facts)
    requires forall id :: id in rows && rows[id].token.Some? ==> rows[id].token.value in minted
    ensures WorkflowProtocol.Init(WorkflowProtocol.World(rows, facts, now, minted, {}))
  {}

  /** An upgraded table is a starting state of the claim protocol. */
  lemma UpgradedTableStartsProtocol(legacy: Table, rows: Table, facts: Orchestrator.Facts, now: Time, minted: set<Uuid>)
    requires rows.Keys == legacy.Keys && forall id :: id in rows ==> rows[id] == Migrated(legacy[id])
    requires forall id :: id in legacy ==> legacy[id].id == id && Legacy(legacy[id]) && !Contradictory(legacy[id])
    requires forall a, b :: a in legacy && b in legacy && legacy[a].key == legacy[b].key ==> a == b
    requires legacy.Keys <= minted && Orchestrator.FactsOk(facts)
    requires forall id :: id in rows ==> WorkflowProtocol.BorneOut(rows[id].state, rows[id].key, facts)
    ensures WorkflowProtocol.Init(WorkflowProtocol.World(rows, facts, now, minted, {}))
    ensures forall id, t :: id in rows && rows[id].token.Some? && 0 <= t ==> Eligible(rows[id], Reconcile, t)
  {
    forall id | id in rows
      ensures rows[id].id == id && rows[id].key == legacy[id].key && WorkflowProtocol.RowOk(rows[id])
      ensures rows[id].token.Some? ==> rows[id].token.value in minted
      ensures rows[id].token.Some? ==> forall t :: 0 <= t ==> Eligible(rows[id], Reconcile, t)
    {
      UpgradeSucceedsIffConsistent(legacy[id]);
      MigratedClaim(legacy[id]);
    }
    SoundTableStarts(rows, facts, now, minted);
  }

  /** The migration leaves a row held at no cost exactly where it adopts a predecessor claim without attempts. */
  lemma AdoptedForFree(r: Row)
    requires Legacy(r)
    ensures HeldForFree(Migrated(r)) <==>
            r.state == Unknown && OutcomeText(r.receipt) == Some("CLAIMED") && r.attempts == 0
  {
    MigratedAsExpected(r);
  }

  /** From an upgraded table on, a command can be completed four times exactly if it is such a row. */
  lemma FourthCompletionAfterUpgrade(w: WorkflowProtocol.World, legacy: Row)
    requires WorkflowProtocol.Init(w) && Legacy(legacy) && legacy.id in w.rows && w.rows[legacy.id] == Migrated(legacy)
    ensures CanExceed([w], [], legacy.id) <==>
            legacy.state == Unknown && OutcomeText(legacy.receipt) == Some("CLAIMED") && legacy.attempts == 0
  {
    ThreeCompletionsUnlessHeldForFree([w], [], legacy.id);
    AdoptedForFree(legacy);
  }
}
