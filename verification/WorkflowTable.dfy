/** The `agent.workflow_command` table and the repository statements that change it. */
module WorkflowTable {
  import opened Sql
  import AgentModel

  datatype CommandState = Planned | Dispatched | Unknown | Failed

  datatype ClaimMode = Dispatch | Reconcile

  /** `last_error_code`; `OtherError` is any text the protocol does not write itself. */
  datatype ErrorText =
    | PreCallFailure
    | AcknowledgementUnknown
    | AttemptsExhausted
    | DeterministicRejection
    | ReconciliationRejected
    | OtherError(text: string)

  /** A JSON member value: a string, JSON null, or anything else with its text. */
  datatype Json = JString(text: string) | JNull | JOther(text: string)

  type JsonObject = map<string, Json>

  datatype Row = Row(
    id: Uuid,
    key: string,
    kind: AgentModel.CommandKind,
    attemptId: Uuid,
    generation: nat,
    state: CommandState,
    attempts: nat,
    receipt: Option<JsonObject>,
    error: Option<ErrorText>,
    createdAt: Time,
    dispatchedAt: Option<Time>,
    owner: Option<string>,
    token: Option<Uuid>,
    lease: Option<Time>,
    mode: Option<ClaimMode>)

  const MAX_CLAIMS := 3

  function AcceptedReceipt(key: string): JsonObject {
    map["commandKey" := JString(key), "outcome" := JString("ACCEPTED")]
  }

  // ---------------------------------------------------------------- CHECK constraints

  /** `length(btrim(owner)) > 0` over spaces. */
  predicate NonBlank(s: string) {
    exists i :: 0 <= i < |s| && s[i] != ' '
  }

  function ClaimCheck(r: Row): Bool3 {
    Or(
      And(IsNull(r.owner), And(IsNull(r.token), And(IsNull(r.lease), IsNull(r.mode)))),
      And(if r.owner.None? then Null3 else Lift(NonBlank(r.owner.value)),
          And(NotNull(r.token), And(NotNull(r.lease), if r.mode.None? then Null3 else True3))))
  }

  function AttemptLimitCheck(r: Row): Bool3 {
    Lift(r.attempts <= MAX_CLAIMS)
  }

  function ModeStateCheck(r: Row): Bool3 {
    Or(IsNull(r.mode),
       Or(And(Eq(r.mode, Dispatch), Lift(r.state == Planned)),
          And(Eq(r.mode, Reconcile), Lift((r.state == Planned || r.state == Unknown)))))
  }

  function OutcomeCheck(r: Row): Bool3 {
    Or(And(Lift(r.state == Planned), And(IsNull(r.receipt), And(IsNull(r.dispatchedAt),
           Or(IsNull(r.error), Eq(r.error, PreCallFailure))))),
    Or(And(Lift(r.state == Dispatched), And(NotNull(r.receipt),
           And(Eq(r.receipt, AcceptedReceipt(r.key)), And(NotNull(r.dispatchedAt), IsNull(r.error))))),
    Or(And(Lift(r.state == Unknown), And(IsNull(r.receipt), And(IsNull(r.dispatchedAt), And(NotNull(r.error),
           Or(Eq(r.error, AcknowledgementUnknown), Eq(r.error, AttemptsExhausted)))))),
       And(Lift(r.state == Failed), And(IsNull(r.receipt), And(IsNull(r.dispatchedAt), And(NotNull(r.error),
           Or(Eq(r.error, DeterministicRejection), Eq(r.error, ReconciliationRejected)))))))))
  }

  /** All four constraints that the claim-lease migration adds. */
  predicate ChecksPass(r: Row) {
    Passes(ClaimCheck(r)) && Passes(AttemptLimitCheck(r)) &&
    Passes(ModeStateCheck(r)) && Passes(OutcomeCheck(r))
  }

  predicate Unheld(r: Row) {
    r.owner.None? && r.token.None? && r.lease.None? && r.mode.None?
  }

  predicate Held(r: Row) {
    r.owner.Some? && NonBlank(r.owner.value) && r.token.Some? && r.lease.Some? && r.mode.Some?
  }

  /** Token and lease are set but owner or mode is missing: half a claim. */
  predicate HalfHeld(r: Row) {
    && r.token.Some? && r.lease.Some? && (r.owner.None? || r.mode.None?)
    && (r.owner.Some? ==> NonBlank(r.owner.value))
  }

  /** SQL lets exactly these rows through: besides whole claims and none, the half claims for which the constraint
      evaluates to NULL. */
  lemma ClaimCheckAdmits(r: Row)
    ensures Passes(ClaimCheck(r)) <==> Unheld(r) || Held(r) || HalfHeld(r)
    ensures Selects(ClaimCheck(r)) <==> Unheld(r) || Held(r)
    ensures ClaimCheck(r) == Null3 <==> HalfHeld(r)
  {
    var whole := And(IsNull(r.owner), And(IsNull(r.token), And(IsNull(r.lease), IsNull(r.mode))));
    assert Unheld(r) <==> whole == True3;
    assert !Unheld(r) ==> whole == False3;
  }

  // ---------------------------------------------------------------- statements on one row

  datatype Claim = Claim(owner: string, token: Uuid, lease: Time, mode: ClaimMode)

  /** The claim query's WHERE clause. */
  predicate Eligible(r: Row, mode: ClaimMode, now: Time) {
    match mode
    case Dispatch => r.state == Planned && r.token.None? && r.attempts < MAX_CLAIMS
    case Reconcile =>
      || (r.state == Unknown && r.token.None? && r.attempts < MAX_CLAIMS)
      || ((r.state == Planned || r.state == Unknown) && r.token.Some? &&
          r.lease.Some? && r.lease.value <= now && r.attempts <= MAX_CLAIMS)
  }

  /** The UPDATE of one claimed row: a takeover of an expired claim costs no attempt. */
  function Claimed(r: Row, c: Claim): Row {
    r.(attempts := if c.mode != Reconcile || r.token.None? then r.attempts + 1 else r.attempts,
       owner := Some(c.owner), token := Some(c.token), lease := Some(c.lease), mode := Some(c.mode))
  }

  function Unclaimed(r: Row): Row {
    r.(owner := None, token := None, lease := None, mode := None)
  }

  predicate Parkable(r: Row) {
    r.state == Unknown && r.token.None? && r.attempts >= MAX_CLAIMS && r.error != Some(AttemptsExhausted)
  }

  function Parked(r: Row): Row {
    Unclaimed(r).(state := Unknown, receipt := None, error := Some(AttemptsExhausted))
  }

  datatype Mutation = Mutation(state: CommandState, receipt: Option<JsonObject>, error: Option<ErrorText>)

  /** The completion UPDATE's WHERE clause: the fencing test. */
  predicate Recordable(r: Row, expected: CommandState, token: Uuid) {
    r.state == expected && r.token == Some(token)
  }

  function Recorded(r: Row, m: Mutation, now: Time): Row {
    Unclaimed(r).(state := m.state, receipt := m.receipt, error := m.error,
      dispatchedAt := if m.state == Dispatched then Some(now) else None)
  }

  // ---------------------------------------------------------------- statements on the table

  type Table = map<Uuid, Row>

  function ClaimAll(t: Table, ids: set<Uuid>, c: Claim): Table {
    map id | id in t :: if id in ids then Claimed(t[id], c) else t[id]
  }

  function ParkAll(t: Table): Table {
    map id | id in t :: if Parkable(t[id]) then Parked(t[id]) else t[id]
  }

  /** ORDER BY created_at, id. */
  predicate Before(t: Table, a: Uuid, b: Uuid)
    requires a in t && b in t
  {
    t[a].createdAt < t[b].createdAt || (t[a].createdAt == t[b].createdAt && a < b)
  }

  predicate IsOldest(t: Table, c: set<Uuid>, id: Uuid)
    requires c <= t.Keys
  {
    id in c && forall o :: o in c && o != id ==> Before(t, id, o)
  }

  lemma {:induction false} OldestExists(t: Table, c: set<Uuid>)
    requires c != {} && c <= t.Keys
    ensures exists id :: IsOldest(t, c, id)
    decreases c
  {
    var x :| x in c;
    var rest := c - {x};
    assert forall o :: o in c ==> o == x || o in rest;
    if rest == {} {
      assert IsOldest(t, c, x);
    } else {
      OldestExists(t, rest);
      var m :| IsOldest(t, rest, m);
      if Before(t, x, m) {
        assert IsOldest(t, c, x);
      } else {
        assert IsOldest(t, c, m);
      }
    }
  }

  function Oldest(t: Table, c: set<Uuid>): (id: Uuid)
    requires c != {} && c <= t.Keys
    ensures IsOldest(t, c, id)
  {
    OldestExists(t, c);
    var id :| IsOldest(t, c, id);
    id
  }

  /** The first `limit` candidates in query order. */
  function TakeOldest(t: Table, c: set<Uuid>, limit: nat): (ids: seq<Uuid>)
    requires c <= t.Keys
    ensures |ids| <= limit
    ensures forall i :: 0 <= i < |ids| ==> ids[i] in c
    ensures forall i, j :: 0 <= i < j < |ids| ==> Before(t, ids[i], ids[j])
    ensures forall i, j :: 0 <= i < j < |ids| ==> ids[i] != ids[j]
    ensures forall i, o :: 0 <= i < |ids| && o in c && o !in ids ==> Before(t, ids[i], o)
    ensures |ids| < limit ==> forall o :: o in c ==> o in ids
    decreases limit
  {
    if limit == 0 || c == {} then []
    else
      var first := Oldest(t, c);
      [first] + TakeOldest(t, c - {first}, limit - 1)
  }

  function Candidates(t: Table, mode: ClaimMode, now: Time, locked: set<Uuid>): set<Uuid> {
    set id | id in t && id !in locked && Eligible(t[id], mode, now)
  }

  datatype ClaimError = ClaimFieldsRequired | TokenRequired

  /** The repository: rows are rewritten in place, one transaction per method. */
  class WorkflowCommandRepository {
    var rows: Table

    constructor (initial: Table)
      ensures rows == initial
    {
      rows := initial;
    }

    /** The loop over the selected rows: one UPDATE each. */
    method UpdateClaimed(ids: seq<Uuid>, c: Claim) returns (out: seq<Row>)
      requires forall i :: 0 <= i < |ids| ==> ids[i] in rows
      requires forall i, j :: 0 <= i < j < |ids| ==> ids[i] != ids[j]
      modifies this
      ensures rows == ClaimAll(old(rows), (set id | id in ids), c)
      ensures |out| == |ids| && forall i :: 0 <= i < |ids| ==> out[i] == rows[ids[i]]
    {
      ghost var before := rows;
      out := [];
      var i := 0;
      while i < |ids|
        invariant 0 <= i <= |ids| && |out| == i
        invariant rows.Keys == before.Keys
        invariant forall j :: 0 <= j < i ==> rows[ids[j]] == out[j] == Claimed(before[ids[j]], c)
        invariant forall id :: id in rows && id !in ids[..i] ==> rows[id] == before[id]
      {
        var updated := Claimed(rows[ids[i]], c);
        rows := rows[ids[i] := updated];
        out := out + [updated];
        i := i + 1;
      }
      assert ids[..i] == ids;
    }

    /** `locked` are the rows that SKIP LOCKED passes over. */
    method ClaimWorkflowCommands(limit: nat, now: Time, owner: Option<string>, token: Option<Uuid>,
                                 lease: Option<Time>, mode: Option<ClaimMode>, locked: set<Uuid>)
      returns (claimed: Result<seq<Row>, ClaimError>)
      modifies this
      ensures owner.None? || token.None? || lease.None? || mode.None? ==>
                claimed.Err? && rows == old(rows)
      ensures owner.Some? && token.Some? && lease.Some? && mode.Some? ==>
                var c := Claim(owner.value, token.value, lease.value, mode.value);
                var ids := TakeOldest(old(rows), Candidates(old(rows), c.mode, now, locked), limit);
                && claimed.Ok?
                && rows == ClaimAll(old(rows), (set id | id in ids), c)
                && |claimed.value| == |ids|
                && forall i :: 0 <= i < |ids| ==> claimed.value[i] == rows[ids[i]]
      ensures rows.Keys == old(rows).Keys
      ensures forall id :: id in rows && id in locked ==> rows[id] == old(rows)[id]
      ensures forall id :: id in rows && rows[id] != old(rows)[id] ==>
          mode.Some? && Eligible(old(rows)[id], mode.value, now)
    {
      if owner.None? || token.None? || lease.None? || mode.None? {
        return Err(ClaimFieldsRequired);
      }
      var ids := TakeOldest(rows, Candidates(rows, mode.value, now, locked), limit);
      var out := UpdateClaimed(ids, Claim(owner.value, token.value, lease.value, mode.value));
      return Ok(out);
    }

    method ParkExpiredWorkflowClaims() returns (count: nat)
      modifies this
      ensures rows == ParkAll(old(rows))
      ensures count == |set id | id in old(rows) && Parkable(old(rows)[id])|
    {
      count := |set id | id in rows && Parkable(rows[id])|;
      rows := map id | id in rows :: if Parkable(rows[id]) then Parked(rows[id]) else rows[id];
    }

    method RecordWorkflowCommandDispatch(id: Uuid, expected: CommandState, token: Option<Uuid>,
                                         m: Mutation, now: Time)
      returns (done: Result<Option<Row>, ClaimError>)
      modifies this
      ensures token.None? ==> done.Err? && rows == old(rows)
      ensures token.Some? ==>
                var hit := id in old(rows) && old(rows)[id].state == expected && old(rows)[id].token == token;
                && done.Ok?
                && (hit ==> rows == old(rows)[id := Recorded(old(rows)[id], m, now)] &&
                            done.value == Some(rows[id]))
                && (!hit ==> rows == old(rows) && done.value == None)
    {
      if token.None? {
        return Err(TokenRequired);
      }
      if id in rows && Recordable(rows[id], expected, token.value) {
        rows := rows[id := Recorded(rows[id], m, now)];
        return Ok(Some(rows[id]));
      }
      return Ok(None);
    }
  }

  // ---------------------------------------------------------------- column by column

  /** What the four constraints let through, without three-valued logic. */
  lemma ChecksByColumns(r: Row)
    ensures ChecksPass(r) <==>
      && r.attempts <= 3
      && (|| (r.owner == None && r.token == None && r.lease == None && r.mode == None)
          || (r.token != None && r.lease != None &&
              (r.owner != None ==> exists i :: 0 <= i < |r.owner.value| && r.owner.value[i] != ' ')))
      && (r.mode == Some(Dispatch) ==> r.state == Planned)
      && (r.mode == Some(Reconcile) ==> r.state == Planned || r.state == Unknown)
      && match r.state
         case Planned => r.receipt == None && r.dispatchedAt == None &&
           (r.error == None || r.error == Some(PreCallFailure))
         case Dispatched =>
           && r.receipt == Some(map["commandKey" := JString(r.key), "outcome" := JString("ACCEPTED")])
           && r.dispatchedAt != None && r.error == None
         case Unknown =>
           && r.receipt == None && r.dispatchedAt == None
           && (r.error == Some(AcknowledgementUnknown) || r.error == Some(AttemptsExhausted))
         case Failed =>
           && r.receipt == None && r.dispatchedAt == None
           && (r.error == Some(DeterministicRejection) || r.error == Some(ReconciliationRejected))
  {
    ClaimCheckAdmits(r);
    ModeByColumns(r);
    OutcomeByColumns(r);
  }

  lemma ModeByColumns(r: Row)
    ensures Passes(ModeStateCheck(r)) <==>
      && (r.mode == Some(Dispatch) ==> r.state == Planned)
      && (r.mode == Some(Reconcile) ==> r.state == Planned || r.state == Unknown)
  {
    if r.mode.Some? { assert r.mode.value == Dispatch || r.mode.value == Reconcile; }
  }

  lemma OutcomeByColumns(r: Row)
    ensures Passes(OutcomeCheck(r)) <==>
      match r.state
      case Planned => r.receipt == None && r.dispatchedAt == None &&
        (r.error == None || r.error == Some(PreCallFailure))
      case Dispatched =>
        && r.receipt == Some(map["commandKey" := JString(r.key), "outcome" := JString("ACCEPTED")])
        && r.dispatchedAt != None && r.error == None
      case Unknown =>
        && r.receipt == None && r.dispatchedAt == None
        && (r.error == Some(AcknowledgementUnknown) || r.error == Some(AttemptsExhausted))
      case Failed =>
        && r.receipt == None && r.dispatchedAt == None
        && (r.error == Some(DeterministicRejection) || r.error == Some(ReconciliationRejected))
  {
    assert AcceptedReceipt(r.key) == map["commandKey" := JString(r.key), "outcome" := JString("ACCEPTED")];
  }

  /** A claim writes its four columns, and costs an attempt unless it reconciles a row that is held. */
  lemma ClaimByColumns(r: Row, c: Claim)
    ensures var v := Claimed(r, c);
      && (v.owner, v.token, v.lease, v.mode) == (Some(c.owner), Some(c.token), Some(c.lease), Some(c.mode))
      && v.attempts == (if c.mode == Reconcile && r.token != None then r.attempts else r.attempts + 1)
      && (v.id, v.key, v.kind, v.attemptId, v.generation, v.state, v.receipt, v.error, v.createdAt, v.dispatchedAt) ==
         (r.id, r.key, r.kind, r.attemptId, r.generation, r.state, r.receipt, r.error, r.createdAt, r.dispatchedAt)
  {}

  /** Parking gives up exactly the unclaimed UNKNOWN rows with three attempts or more that do not say so yet. */
  lemma ParkingByColumns(t: Table, id: Uuid)
    requires id in t
    ensures id in ParkAll(t)
    ensures var r, v := t[id], ParkAll(t)[id];
      if r.state == Unknown && r.token == None && r.attempts >= 3 && r.error != Some(AttemptsExhausted) then
        && (v.state, v.receipt, v.error) == (Unknown, None, Some(AttemptsExhausted))
        && (v.owner, v.token, v.lease, v.mode) == (None, None, None, None)
        && (v.id, v.key, v.kind, v.attemptId, v.generation, v.attempts, v.createdAt, v.dispatchedAt) ==
           (r.id, r.key, r.kind, r.attemptId, r.generation, r.attempts, r.createdAt, r.dispatchedAt)
      else v == r
  {}

  /** Which rows a claim may take, by their columns. */
  lemma EligibleByColumns(r: Row, now: Time)
    ensures Eligible(r, Dispatch, now) <==> r.state == Planned && r.token == None && r.attempts < 3
    ensures Eligible(r, Reconcile, now) <==>
      || (r.state == Unknown && r.token == None && r.attempts < 3)
      || ((r.state == Planned || r.state == Unknown) && r.token != None && r.lease != None && r.lease.value <= now &&
          r.attempts <= 3)
  {}

  /** Older rows first, and by identifier among rows of one age. */
  lemma OldestFirst(t: Table, c: set<Uuid>, limit: nat, i: nat, j: nat)
    requires c <= t.Keys && i < j < |TakeOldest(t, c, limit)|
    ensures var a, b := TakeOldest(t, c, limit)[i], TakeOldest(t, c, limit)[j];
      a in t && b in t && (t[a].createdAt < t[b].createdAt || (t[a].createdAt == t[b].createdAt && a < b))
  {}

  /** A completion releases the claim and writes what the worker decided, with the time only when dispatched. */
  lemma CompletionByColumns(r: Row, m: Mutation, now: Time)
    ensures var v := Recorded(r, m, now);
      && (v.state, v.receipt, v.error) == (m.state, m.receipt, m.error)
      && v.dispatchedAt == (if m.state == Dispatched then Some(now) else None)
      && (v.owner, v.token, v.lease, v.mode) == (None, None, None, None)
      && (v.id, v.key, v.kind, v.attemptId, v.generation, v.attempts, v.createdAt) ==
         (r.id, r.key, r.kind, r.attemptId, r.generation, r.attempts, r.createdAt)
  {}
}
