/** What workers record: for every answer of the orchestrator the row that results, and that work gets done. */
module WorkflowOutcomes {
  import opened Sql
  import opened WorkflowTable
  import opened Orchestrator
  import opened WorkflowProtocol
  import opened WorkflowRuns
  import opened WorkflowBounds

  // ---------------------------------------------------------------- the rows that completion can leave behind

  /** The command is what it was, its attempts are what they were, and nobody holds it. */
  predicate Released(c: Row, r: Row) {
    && (r.id, r.key, r.kind, r.attemptId, r.generation, r.attempts, r.createdAt) ==
       (c.id, c.key, c.kind, c.attemptId, c.generation, c.attempts, c.createdAt)
    && (r.owner, r.token, r.lease, r.mode) == (None, None, None, None)
  }

  predicate EndsDispatched(c: Row, r: Row, at: Time) {
    && Released(c, r) && r.state == Dispatched && r.error == None && r.dispatchedAt == Some(at)
    && r.receipt == Some(map["commandKey" := JString(c.key), "outcome" := JString("ACCEPTED")])
  }

  predicate EndsFailed(c: Row, r: Row, code: ErrorText) {
    Released(c, r) && r.state == Failed && r.receipt == None && r.dispatchedAt == None && r.error == Some(code)
  }

  predicate BackToPlanned(c: Row, r: Row, error: Option<ErrorText>) {
    Released(c, r) && r.state == Planned && r.receipt == None && r.dispatchedAt == None && r.error == error
  }

  /** Left to reconciliation, or given up after the third attempt. */
  predicate LeftUnknown(c: Row, r: Row) {
    && Released(c, r) && r.state == Unknown && r.receipt == None && r.dispatchedAt == None
    && r.error == Some(if c.attempts < 3 then AcknowledgementUnknown else AttemptsExhausted)
  }

  /** The row that a dispatch call leads to; `verdict` is the orchestrator's outcome for the key after the call. */
  ghost predicate AfterDispatch(c: Row, r: Row, at: Time, fault: CallFault, verdict: Option<Verdict>) {
    match fault
    case Refused => if c.attempts < 3 then BackToPlanned(c, r, Some(PreCallFailure)) else LeftUnknown(c, r)
    case LostBefore => LeftUnknown(c, r)
    case LostAfter(_) => LeftUnknown(c, r)
    case Delivered(_, lostAck) =>
      && (verdict == Some(Rejected) ==> EndsFailed(c, r, DeterministicRejection))
      && (verdict == Some(Accepted) ==> if lostAck then LeftUnknown(c, r) else EndsDispatched(c, r, at))
      && verdict != None
  }

  /** The row that a lookup leads to. */
  ghost predicate AfterLookup(c: Row, r: Row, at: Time, view: LookupView, verdict: Option<Verdict>) {
    if view.LookupFails? then LeftUnknown(c, r)
    else match verdict
      case None =>
        if view.neverObserved && c.state == Planned && c.attempts < 3 then BackToPlanned(c, r, None)
        else LeftUnknown(c, r)
      case Some(Accepted) => if view.unknown then LeftUnknown(c, r) else EndsDispatched(c, r, at)
      case Some(Rejected) => if view.unknown then LeftUnknown(c, r) else EndsFailed(c, r, ReconciliationRejected)
  }

  function VerdictOf(f: Facts, key: string): Option<Verdict> {
    if key in f.outcomes then Some(f.outcomes[key]) else None
  }

  // ---------------------------------------------------------------- from the answer to the row

  /** Whenever this job is recorded and hits, the row ends as the call calls for. */
  ghost predicate RecordsDispatch(j: Job, fault: CallFault, verdict: Option<Verdict>) {
    forall w, at :: Inv(w) && Enabled(w, Record(j, at)) && Hits(w, j) ==>
      j.command.id in Apply(w, Record(j, at)).rows
      && AfterDispatch(j.command, Apply(w, Record(j, at)).rows[j.command.id], at, fault, verdict)
  }

  ghost predicate RecordsLookup(j: Job, view: LookupView, verdict: Option<Verdict>) {
    forall w, at :: Inv(w) && Enabled(w, Record(j, at)) && Hits(w, j) ==>
      j.command.id in Apply(w, Record(j, at)).rows
      && AfterLookup(j.command, Apply(w, Record(j, at)).rows[j.command.id], at, view, verdict)
  }

  lemma RecordEnds(w: World, j: Job, at: Time)
    requires Inv(w) && Enabled(w, Record(j, at)) && Hits(w, j)
    ensures j.command.id in Apply(w, Record(j, at)).rows
    ensures Apply(w, Record(j, at)).rows[j.command.id] == Recorded(j.command, j.decision.value, at)
  {
    assert JobOk(w, j);
  }

  lemma DispatchedEnds(c: Row, f: Facts, fault: CallFault, at: Time)
    requires RowOk(c) && Held(c)
    ensures var (g, answer) := DispatchCall(f, c.key, fault);
      AfterDispatch(c, Recorded(c, DecideDispatch(c, answer), at), at, fault, VerdictOf(g, c.key))
  {
    assert AcceptedReceipt(c.key) == map["commandKey" := JString(c.key), "outcome" := JString("ACCEPTED")];
  }

  lemma LookedUpEnds(c: Row, f: Facts, view: LookupView, at: Time)
    requires RowOk(c) && Held(c)
    ensures AfterLookup(c, Recorded(c, DecideReconcile(c, LookupCall(f, c.key, view)), at), at, view,
                VerdictOf(f, c.key))
  {
    assert AcceptedReceipt(c.key) == map["commandKey" := JString(c.key), "outcome" := JString("ACCEPTED")];
  }

  /** A dispatch call replaces the job by one that, whenever it is recorded and hits, leaves exactly the row that the
      call's fate and the orchestrator's outcome call for. */
  lemma CallsAreRecorded(w: World, job: Job, fault: CallFault) returns (j: Job)
    requires Inv(w) && Enabled(w, Call(job, fault))
    ensures var v := Apply(w, Call(job, fault));
      && v.jobs == w.jobs - {job} + {j} && j.command == job.command && j.decision.Some?
      && RecordsDispatch(j, fault, VerdictOf(v.orchestrator, job.command.key))
  {
    var v := Apply(w, Call(job, fault));
    assert JobOk(w, job);
    j := Decided(w, Call(job, fault));
    forall u, at | Inv(u) && Enabled(u, Record(j, at)) && Hits(u, j)
      ensures j.command.id in Apply(u, Record(j, at)).rows
      ensures AfterDispatch(j.command, Apply(u, Record(j, at)).rows[j.command.id], at, fault,
                            VerdictOf(v.orchestrator, j.command.key))
    {
      RecordEnds(u, j, at);
      DispatchedEnds(j.command, w.orchestrator, fault, at);
    }
  }

  /** Likewise for a lookup. */
  lemma LookupsAreRecorded(w: World, job: Job, view: LookupView) returns (j: Job)
    requires Inv(w) && Enabled(w, Lookup(job, view))
    ensures var v := Apply(w, Lookup(job, view));
      && v.orchestrator == w.orchestrator
      && v.jobs == w.jobs - {job} + {j} && j.command == job.command && j.decision.Some?
      && RecordsLookup(j, view, VerdictOf(v.orchestrator, job.command.key))
  {
    assert JobOk(w, job);
    j := Decided(w, Lookup(job, view));
    forall u, at | Inv(u) && Enabled(u, Record(j, at)) && Hits(u, j)
      ensures j.command.id in Apply(u, Record(j, at)).rows
      ensures AfterLookup(j.command, Apply(u, Record(j, at)).rows[j.command.id], at, view,
                          VerdictOf(w.orchestrator, j.command.key))
    {
      RecordEnds(u, j, at);
      LookedUpEnds(j.command, w.orchestrator, view, at);
    }
  }

  /** What a dispatch call does to the orchestrator: a call that gets through decides a key that was unknown, as
      rejected exactly if it is told to; every other key, and every known one, keeps its outcome. */
  lemma CallsDecideOnce(w: World, job: Job, fault: CallFault)
    requires Enabled(w, Call(job, fault))
    ensures var f, g, key := w.orchestrator, Apply(w, Call(job, fault)).orchestrator, job.command.key;
      && (fault.Refused? || fault.LostBefore? || key in f.outcomes ==> g == f)
      && (forall k :: k != key ==> VerdictOf(g, k) == VerdictOf(f, k))
      && (key !in f.outcomes && (fault.LostAfter? || fault.Delivered?) ==>
            && VerdictOf(g, key) == Some(if fault.reject then Rejected else Accepted)
            && g.admitted == f.admitted + [key])
  {}

  // ---------------------------------------------------------------- work gets done

  /** The answer that a delivered call for this key will have. */
  function Answered(f: Facts, key: string, reject: bool): Verdict {
    if key in f.outcomes then f.outcomes[key] else if reject then Rejected else Accepted
  }

  lemma DispatchClaimIsEnabled(w: World, id: Uuid) returns (b: Label, job: Job)
    requires Inv(w) && id in w.rows && w.rows[id].state == Planned && w.rows[id].token.None?
    ensures Enabled(w, b) && Inv(Apply(w, b)) && Apply(w, b).orchestrator == w.orchestrator
    ensures var v := Apply(w, b);
      && id in v.rows && job in v.jobs && job == Job(v.rows[id], None) && job.command.mode == Some(Dispatch)
      && v.rows[id].id == id && v.rows[id].key == w.rows[id].key && v.rows[id].token.Some?
  {
    var r := w.rows[id];
    assert RowOk(r);
    var token := FreshToken(w.minted);
    assert NonBlank(WORKER) by { assert WORKER[0] != ' '; }
    b := ClaimRows(Dispatch, WORKER, token, w.now, {id});
    ClaimKeeps(w, b);
    assert Apply(w, b).rows[id] == Claimed(r, ClaimOf(b));
    job := Job(Claimed(r, ClaimOf(b)), None);
  }

  lemma RecordIsEnabledAfter(w: World, v: World, id: Uuid, job: Job, j: Job)
    requires id in w.rows && job == Job(w.rows[id], None) && w.rows[id].id == id && w.rows[id].token.Some?
    requires v.rows == w.rows && v.jobs == w.jobs - {job} + {j} && j.command == job.command && j.decision.Some?
    ensures Enabled(v, Record(j, v.now)) && Hits(v, j)
  {}

  lemma DeliveryIsEnabled(w: World, id: Uuid, job: Job, reject: bool) returns (c: Label, d: Label)
    requires Inv(w) && id in w.rows && job in w.jobs && job == Job(w.rows[id], None)
    requires job.command.mode == Some(Dispatch) && w.rows[id].id == id && w.rows[id].token.Some?
    ensures Enabled(w, c) && Enabled(Apply(w, c), d)
    ensures Ended(Apply(Apply(w, c), d), id, w.rows[id].key, Answered(w.orchestrator, w.rows[id].key, reject))
  {
    c := Call(job, Delivered(reject, false));
    var v := Apply(w, c);
    var j := CallsAreRecorded(w, job, Delivered(reject, false));
    CallKeeps(w, c);
    RecordIsEnabledAfter(w, v, id, job, j);
    d := Record(j, v.now);
    CallsDecideOnce(w, job, Delivered(reject, false));
  }

  lemma ConfirmationIsEnabled(w: World, id: Uuid, job: Job) returns (c: Label, d: Label)
    requires Inv(w) && id in w.rows && job in w.jobs && job == Job(w.rows[id], None)
    requires job.command.mode == Some(Reconcile) && w.rows[id].id == id && w.rows[id].token.Some?
    requires w.rows[id].key in w.orchestrator.outcomes
    ensures c.Lookup? && d.Record? && Enabled(w, c) && Enabled(Apply(w, c), d)
    ensures Ended(Apply(Apply(w, c), d), id, w.rows[id].key, w.orchestrator.outcomes[w.rows[id].key])
  {
    var view := LookupView.LookupView(false, false);
    c := Lookup(job, view);
    var v := Apply(w, c);
    var j := LookupsAreRecorded(w, job, view);
    CallKeeps(w, c);
    RecordIsEnabledAfter(w, v, id, job, j);
    d := Record(j, v.now);
  }

  /** The row of this key has ended as the verdict says. */
  ghost predicate Ended(w: World, id: Uuid, key: string, verdict: Verdict) {
    && id in w.rows && w.rows[id].key == key
    && (w.rows[id].state == Dispatched <==> verdict == Accepted)
    && (w.rows[id].state == Failed <==> verdict == Rejected)
  }

  /** From every reachable planned row that nobody holds, some continuation of the run ends it: dispatched exactly if
      the orchestrator has accepted its key or, asked for the first time, accepts it; failed exactly if it rejects. */
  lemma PlannedWorkCanBeDone(ws: seq<World>, ls: seq<Label>, id: Uuid, reject: bool)
    returns (vs: seq<World>, ms: seq<Label>)
    requires IsRun(ws, ls) && id in ws[|ls|].rows
    requires ws[|ls|].rows[id].state == Planned && ws[|ls|].rows[id].token.None?
    ensures Continues(ws, ls, vs, ms)
    ensures var w, key := ws[|ls|], ws[|ls|].rows[id].key;
      Ended(vs[|ms|], id, key, Answered(w.orchestrator, key, reject))
  {
    RunKeepsInv(ws, ls, |ls|);
    var b, job := DispatchClaimIsEnabled(ws[|ls|], id);
    var c, d := DeliveryIsEnabled(Apply(ws[|ls|], b), id, job, reject);
    vs, ms := OneStepOn(ws, ls, ws, ls, id, b);
    vs, ms := OneStepOn(ws, ls, vs, ms, id, c);
    vs, ms := OneStepOn(ws, ls, vs, ms, id, d);
  }

  lemma ConfirmationRoundIsEnabled(w: World, id: Uuid) returns (a: Label, b: Label, c: Label, d: Label)
    requires Inv(w) && id in w.rows && Reconcilable(w.rows[id]) && w.rows[id].key in w.orchestrator.outcomes
    ensures !a.Call? && !b.Call? && !c.Call? && !d.Call?
    ensures Enabled(w, a)
    ensures Enabled(Apply(w, a), b)
    ensures Enabled(Apply(Apply(w, a), b), c)
    ensures Enabled(Apply(Apply(Apply(w, a), b), c), d)
    ensures var key := w.rows[id].key;
      Ended(Apply(Apply(Apply(Apply(w, a), b), c), d), id, key, w.orchestrator.outcomes[key])
  {
    var job: Job;
    a, b, job := ClaimIsEnabled(w, id);
    StepKeepsInv(w, a);
    StepKeepsInv(Apply(w, a), b);
    RowStep(w, a, id);
    RowStep(Apply(w, a), b, id);
    c, d := ConfirmationIsEnabled(Apply(Apply(w, a), b), id, job);
  }

  lemma FourStepsOn(ws: seq<World>, ls: seq<Label>, id: Uuid, a: Label, b: Label, c: Label, d: Label)
    returns (vs: seq<World>, ms: seq<Label>)
    requires IsRun(ws, ls) && Enabled(ws[|ls|], a) && Enabled(Apply(ws[|ls|], a), b)
    requires Enabled(Apply(Apply(ws[|ls|], a), b), c) && Enabled(Apply(Apply(Apply(ws[|ls|], a), b), c), d)
    ensures Continues(ws, ls, vs, ms) && ms == ls + [a, b, c, d]
    ensures vs[|ms|] == Apply(Apply(Apply(Apply(ws[|ls|], a), b), c), d)
  {
    vs, ms := TwoStepsOn(ws, ls, ws, ls, id, a, b);
    vs, ms := TwoStepsOn(ws, ls, vs, ms, id, c, d);
  }

  /** And from every row open to reconciliation whose key the orchestrator has decided, some continuation ends the row
      as decided, without another dispatch. */
  lemma DecidedWorkCanBeConfirmed(ws: seq<World>, ls: seq<Label>, id: Uuid) returns (vs: seq<World>, ms: seq<Label>)
    requires IsRun(ws, ls) && id in ws[|ls|].rows && Reconcilable(ws[|ls|].rows[id])
    requires ws[|ls|].rows[id].key in ws[|ls|].orchestrator.outcomes
    ensures Continues(ws, ls, vs, ms) && forall i :: |ls| <= i < |ms| ==> !ms[i].Call?
    ensures var w, key := ws[|ls|], ws[|ls|].rows[id].key; Ended(vs[|ms|], id, key, w.orchestrator.outcomes[key])
  {
    RunKeepsInv(ws, ls, |ls|);
    var a, b, c, d := ConfirmationRoundIsEnabled(ws[|ls|], id);
    vs, ms := FourStepsOn(ws, ls, id, a, b, c, d);
  }

  // ---------------------------------------------------------------- what may happen when

  /** The environment is free: the clock may advance, parking run, and any workers crash, at any time; a job in hand may
      be answered in every way, and recorded once answered. */
  lemma StepsAreFree(w: World, to: Time, lost: set<Job>, job: Job, fault: CallFault, view: LookupView, at: Time)
    ensures Enabled(w, Tick(to)) <==> w.now <= to
    ensures Enabled(w, Park) && (Enabled(w, Crash(lost)) <==> lost <= w.jobs)
    ensures Enabled(w, Call(job, fault)) <==>
      job in w.jobs && job.decision == None && job.command.mode == Some(Dispatch)
    ensures Enabled(w, Lookup(job, view)) <==>
      job in w.jobs && job.decision == None && job.command.mode == Some(Reconcile)
    ensures Enabled(w, Record(job, at)) <==> job in w.jobs && job.decision != None && at <= w.now
  {}

  /** Any eligible rows may be claimed with a token that was never used, on a clock reading that is not ahead. */
  lemma ClaimsAreFree(w: World, mode: ClaimMode, owner: string, token: Uuid, readAt: Time, ids: set<Uuid>)
    ensures Enabled(w, ClaimRows(mode, owner, token, readAt, ids)) <==>
      && NonBlank(owner) && token !in w.minted && readAt <= w.now
      && forall id :: id in ids ==> id in w.rows && Eligible(w.rows[id], mode, readAt)
  {}

  /** Any planned, untried and unclaimed row with a new identifier and a new key may be inserted. */
  lemma InsertsAreFree(w: World, r: Row)
    ensures Enabled(w, Insert(r)) <==>
      && r.id !in w.rows && (forall id :: id in w.rows ==> w.rows[id].key != r.key)
      && r.state == Planned && r.attempts == 0 && r.receipt == None && r.error == None && r.dispatchedAt == None
      && r.owner == None && r.token == None && r.lease == None && r.mode == None
  {
    assert r == Unclaimed(r) <==> r.owner == None && r.token == None && r.lease == None && r.mode == None;
  }

  /** The clock advances, a crash loses the jobs and nothing else, an insert adds its row, and a claim hands out one job
      for each claimed row. */
  lemma StepsByTheirEffect(w: World, l: Label)
    requires Enabled(w, l)
    ensures l.Tick? ==> Apply(w, l) == w.(now := l.to)
    ensures l.Park? ==> Apply(w, l) == w.(rows := ParkAll(w.rows))
    ensures l.Crash? ==> Apply(w, l) == w.(jobs := w.jobs - l.lost)
    ensures l.Insert? ==> Apply(w, l) == w.(rows := w.rows[l.row.id := l.row])
    ensures l.ClaimRows? ==>
      var v := Apply(w, l);
      && v.rows.Keys == w.rows.Keys && v.minted == w.minted + {l.token}
      && (v.now, v.orchestrator) == (w.now, w.orchestrator)
      && (forall id :: id in w.rows && id !in l.ids ==> v.rows[id] == w.rows[id])
      && (forall id :: id in l.ids ==> Job(v.rows[id], None) in v.jobs)
      && w.jobs <= v.jobs
  {}

  /** A record that does not hit only ends its job. */
  lemma MissedRecordsChangeNothing(w: World, job: Job, at: Time)
    requires Enabled(w, Record(job, at)) && !Hits(w, job)
    ensures Apply(w, Record(job, at)) == w.(jobs := w.jobs - {job})
  {}

  /** A record hits exactly while the row is in the state and under the token that its worker read. */
  lemma HitsExactly(w: World, job: Job)
    ensures Hits(w, job) <==>
      && job.command.id in w.rows && job.command.token != None
      && w.rows[job.command.id].state == job.command.state && w.rows[job.command.id].token == job.command.token
  {}
}
