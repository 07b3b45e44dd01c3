/** Safety, conservation and progress of the claim protocol over whole runs. */
module WorkflowRuns {
  import opened Basics
  import opened Sql
  import opened WorkflowTable
  import opened Orchestrator
  import opened WorkflowProtocol

  // ---------------------------------------------------------------- every step keeps the invariant

  lemma RowOkPassesChecks(r: Row)
    requires RowOk(r)
    ensures ChecksPass(r)
  {
    assert Passes(ModeStateCheck(r)) by {
      if r.mode.Some? { assert r.mode.value == Dispatch || r.mode.value == Reconcile; }
    }
    match r.state
    case Planned =>
    case Dispatched =>
    case Unknown =>
    case Failed =>
  }

  lemma ClaimedIsOk(r: Row, c: Claim, now: Time)
    requires RowOk(r) && Eligible(r, c.mode, now) && NonBlank(c.owner)
    ensures RowOk(Claimed(r, c)) && Held(Claimed(r, c))
  {}

  lemma DispatchDecision(c: Row, f: Facts, fault: CallFault)
    requires RowOk(c) && Held(c)
    ensures var (g, answer) := DispatchCall(f, c.key, fault);
            var m := DecideDispatch(c, answer);
            Recordables(c, m) && BorneOut(m.state, c.key, g)
  {}

  lemma ReconcileDecision(c: Row, f: Facts, view: LookupView)
    requires RowOk(c) && Held(c)
    ensures var m := DecideReconcile(c, LookupCall(f, c.key, view));
            Recordables(c, m) && BorneOut(m.state, c.key, f)
  {}

  lemma InsertKeeps(w: World, row: Row)
    requires Inv(w) && FreshRow(w, row)
    ensures Inv(Apply(w, Insert(row)))
  {
    var v := Apply(w, Insert(row));
    assert RowOk(row);
    forall j | j in v.jobs ensures JobOk(v, j) { assert JobOk(w, j); }
  }

  lemma ClaimKeeps(w: World, l: Label)
    requires Inv(w) && l.ClaimRows? && Enabled(w, l)
    ensures Inv(Apply(w, l))
  {
    var v := Apply(w, l);
    forall id | id in v.rows
      ensures v.rows[id].id == id && v.rows[id].key == w.rows[id].key && v.rows[id].state == w.rows[id].state
      ensures RowOk(v.rows[id])
    {
      if id in l.ids { ClaimedIsOk(w.rows[id], ClaimOf(l), l.readAt); }
    }
    forall j | j in v.jobs
      ensures JobOk(v, j)
    {
      if j in w.jobs {
        assert JobOk(w, j);
      } else {
        var id :| id in l.ids && j == Job(v.rows[id], None);
        ClaimedIsOk(w.rows[id], ClaimOf(l), l.readAt);
      }
    }
  }

  lemma CallExtendsFacts(f: Facts, key: string, fault: CallFault)
    requires FactsOk(f)
    ensures FactsOk(DispatchCall(f, key, fault).0) && Extends(f, DispatchCall(f, key, fault).0)
  {
    if fault.LostAfter? || fault.Delivered? { AdmitOnce(f, key, fault.reject); }
  }

  /** Growing facts and the exchange of one job leave the other jobs sound. */
  lemma JobStaysOk(w: World, v: World, j: Job)
    requires JobOk(w, j) && v.rows == w.rows && v.minted == w.minted && Extends(w.orchestrator, v.orchestrator)
    ensures JobOk(v, j)
  {}

  lemma DecidedKeeps(w: World, v: World, job: Job, decided: Job)
    requires Inv(w) && FactsOk(v.orchestrator) && Extends(w.orchestrator, v.orchestrator)
    requires v.rows == w.rows && v.minted == w.minted && v.jobs == w.jobs - {job} + {decided} && JobOk(v, decided)
    ensures Inv(v)
  {
    forall j | j in v.jobs ensures JobOk(v, j) {
      if j != decided { JobStaysOk(w, v, j); }
    }
  }

  lemma CallKeeps(w: World, l: Label)
    requires Inv(w) && (l.Call? || l.Lookup?) && Enabled(w, l)
    ensures Inv(Apply(w, l)) && Extends(w.orchestrator, Apply(w, l).orchestrator)
  {
    var v := Apply(w, l);
    var c := l.job.command;
    assert JobOk(w, l.job);
    JobIsDecided(w, l);
    if l.Call? {
      CallExtendsFacts(w.orchestrator, c.key, l.fault);
      DecidedKeeps(w, v, l.job, Decided(w, l));
    } else {
      DecidedKeeps(w, v, l.job, Decided(w, l));
    }
  }

  /** The job with the decision that its answer leads to. */
  function Decided(w: World, l: Label): Job
    requires l.Call? || l.Lookup?
  {
    var c := l.job.command;
    l.job.(decision := Some(
      if l.Call? then DecideDispatch(c, DispatchCall(w.orchestrator, c.key, l.fault).1)
      else DecideReconcile(c, LookupCall(w.orchestrator, c.key, l.view))))
  }

  lemma JobIsDecided(w: World, l: Label)
    requires (l.Call? || l.Lookup?) && Enabled(w, l) && JobOk(w, l.job)
    ensures Apply(w, l).jobs == w.jobs - {l.job} + {Decided(w, l)} && JobOk(Apply(w, l), Decided(w, l))
  {
    var c := l.job.command;
    if l.Call? { DispatchDecision(c, w.orchestrator, l.fault); } else { ReconcileDecision(c, w.orchestrator, l.view); }
  }

  lemma RecordKeeps(w: World, l: Label)
    requires Inv(w) && l.Record? && Enabled(w, l)
    ensures Inv(Apply(w, l))
  {
    var v := Apply(w, l);
    assert JobOk(w, l.job);
    forall j | j in v.jobs ensures JobOk(v, j) { assert JobOk(w, j); }
  }

  lemma ParkChangesNothing(w: World)
    requires Inv(w)
    ensures Apply(w, Park) == w
  {
    assert ParkAll(w.rows) == w.rows by {
      forall id | id in w.rows ensures !Parkable(w.rows[id]) { assert RowOk(w.rows[id]); }
    }
  }

  lemma StepKeepsInv(w: World, l: Label)
    requires Inv(w) && Enabled(w, l)
    ensures Inv(Apply(w, l)) && Extends(w.orchestrator, Apply(w, l).orchestrator)
  {
    match l
    case Insert(row) => InsertKeeps(w, row);
    case ClaimRows(_, _, _, _, _) => ClaimKeeps(w, l);
    case Call(_, _) => CallKeeps(w, l);
    case Lookup(_, _) => CallKeeps(w, l);
    case Record(_, _) => RecordKeeps(w, l);
    case Park => ParkChangesNothing(w);
    case Tick(_) =>
      forall j | j in w.jobs ensures JobOk(Apply(w, l), j) { assert JobOk(w, j); }
    case Crash(_) =>
      forall j | j in Apply(w, l).jobs ensures JobOk(Apply(w, l), j) { assert JobOk(w, j); }
  }

  // ---------------------------------------------------------------- runs

  ghost predicate StepAt(ws: seq<World>, ls: seq<Label>, i: nat)
    requires i < |ls| && |ws| == |ls| + 1
  {
    Enabled(ws[i], ls[i]) && ws[i + 1] == Apply(ws[i], ls[i])
  }

  /** Any interleaving of any number of workers, crashes and clock advances. */
  ghost predicate IsRun(ws: seq<World>, ls: seq<Label>) {
    |ws| == |ls| + 1 && Init(ws[0]) && forall i :: 0 <= i < |ls| ==> StepAt(ws, ls, i)
  }

  lemma {:induction false} RunKeepsInv(ws: seq<World>, ls: seq<Label>, i: nat)
    requires IsRun(ws, ls) && i < |ws|
    ensures Inv(ws[i])
  {
    if i > 0 {
      RunKeepsInv(ws, ls, i - 1);
      assert StepAt(ws, ls, i - 1);
      StepKeepsInv(ws[i - 1], ls[i - 1]);
    }
  }

  /** The constraints never refuse a statement: every row of every reachable table passes all four. */
  lemma ReachableRowsPassChecks(ws: seq<World>, ls: seq<Label>, i: nat, id: Uuid)
    requires IsRun(ws, ls) && i < |ws| && id in ws[i].rows
    ensures ChecksPass(ws[i].rows[id])
    ensures Unheld(ws[i].rows[id]) || Held(ws[i].rows[id])
  {
    RunKeepsInv(ws, ls, i);
    RowOkPassesChecks(ws[i].rows[id]);
  }

  /** A row changes only by being claimed or by being completed under its current claim. */
  lemma RowStep(w: World, l: Label, id: Uuid)
    requires Inv(w) && Enabled(w, l) && id in w.rows
    ensures id in Apply(w, l).rows
    ensures Claims(l, id) ==> Apply(w, l).rows[id] == Claimed(w.rows[id], ClaimOf(l))
    ensures Completes(w, l, id) ==>
              w.rows[id] == l.job.command && Apply(w, l).rows[id] == Recorded(w.rows[id], l.job.decision.value, l.at)
    ensures !Claims(l, id) && !Completes(w, l, id) ==> Apply(w, l).rows[id] == w.rows[id]
  {
    if l.Park? { ParkChangesNothing(w); }
    if l.Record? { assert JobOk(w, l.job); }
  }

  /** Nothing but a completion ends a claim. */
  lemma {:induction false} StaysHeld(ws: seq<World>, ls: seq<Label>, id: Uuid, i: nat, j: nat)
    requires IsRun(ws, ls) && i <= j < |ws|
    requires id in ws[i].rows && ws[i].rows[id].token.Some?
    requires forall k :: i <= k < j ==> !Completes(ws[k], ls[k], id)
    ensures id in ws[j].rows && ws[j].rows[id].token.Some?
  {
    if i < j {
      StaysHeld(ws, ls, id, i, j - 1);
      assert StepAt(ws, ls, j - 1);
      RunKeepsInv(ws, ls, j - 1);
      RowStep(ws[j - 1], ls[j - 1], id);
    }
  }

  /** Once a row has been claimed in any mode, it is not dispatched again before a completion. */
  lemma NoBlindRedispatch(ws: seq<World>, ls: seq<Label>, id: Uuid, i: nat, j: nat)
    requires IsRun(ws, ls) && i < j < |ls|
    requires Claims(ls[i], id) && Claims(ls[j], id) && ls[j].mode == Dispatch
    ensures exists k :: i < k < j && Completes(ws[k], ls[k], id)
  {
    assert StepAt(ws, ls, i) && StepAt(ws, ls, j);
    RunKeepsInv(ws, ls, i);
    RowStep(ws[i], ls[i], id);
    if forall k :: i + 1 <= k < j ==> !Completes(ws[k], ls[k], id) {
      StaysHeld(ws, ls, id, i + 1, j);
      assert false;
    }
  }

  /** A claim whose lease has not run out on the real clock is never taken over. */
  lemma LiveClaimIsNotTakenOver(ws: seq<World>, ls: seq<Label>, i: nat, id: Uuid)
    requires IsRun(ws, ls) && i < |ls| && Claims(ls[i], id)
    ensures id in ws[i].rows && id in ws[i + 1].rows
    ensures ws[i].rows[id].token.Some? ==>
              && ls[i].mode == Reconcile
              && ws[i].rows[id].lease.Some? && ws[i].rows[id].lease.value <= ws[i].now
              && ws[i + 1].rows[id].attempts == ws[i].rows[id].attempts
  {
    assert StepAt(ws, ls, i);
    RunKeepsInv(ws, ls, i);
    RowStep(ws[i], ls[i], id);
  }

  // ---------------------------------------------------------------- fencing

  /** Steps `k+1 .. i-1` neither claim nor complete the row. */
  ghost predicate Quiet(ws: seq<World>, ls: seq<Label>, id: Uuid, k: int, i: nat)
    requires i < |ws| == |ls| + 1 && -1 <= k
  {
    forall m :: k < m < i ==> !Claims(ls[m], id) && !Completes(ws[m], ls[m], id)
  }

  /** The token on a row comes from its latest claim, or was there from the start. */
  lemma {:induction false} TokenIsFromLatestClaim(ws: seq<World>, ls: seq<Label>, id: Uuid, i: nat)
    returns (k: int)
    requires IsRun(ws, ls) && i < |ws| && id in ws[i].rows && ws[i].rows[id].token.Some?
    ensures -1 <= k < i && Quiet(ws, ls, id, k, i)
    ensures k >= 0 ==> Claims(ls[k], id) && ws[i].rows[id].token == Some(ls[k].token)
    ensures k == -1 ==> ws[i].rows[id].token.value in ws[0].minted
  {
    if i == 0 {
      k := -1;
    } else {
      var l := ls[i - 1];
      assert StepAt(ws, ls, i - 1);
      RunKeepsInv(ws, ls, i - 1);
      if id in ws[i - 1].rows { RowStep(ws[i - 1], l, id); }
      if Claims(l, id) {
        k := i - 1;
      } else {
        k := TokenIsFromLatestClaim(ws, ls, id, i - 1);
      }
    }
  }

  /** A worker's job was handed out by some earlier claim step. */
  lemma {:induction false} JobHasClaim(ws: seq<World>, ls: seq<Label>, job: Job, i: nat) returns (k: nat)
    requires IsRun(ws, ls) && i < |ws| && job in ws[i].jobs
    ensures k < i && Claims(ls[k], job.command.id) && job.command.token == Some(ls[k].token)
    decreases i
  {
    RunKeepsInv(ws, ls, i);
    assert JobOk(ws[i], job);
    assert i > 0;
    var l := ls[i - 1];
    assert StepAt(ws, ls, i - 1);
    if job in ws[i - 1].jobs {
      k := JobHasClaim(ws, ls, job, i - 1);
    } else if l.ClaimRows? {
      RunKeepsInv(ws, ls, i - 1);
      k := i - 1;
    } else {
      k := JobHasClaim(ws, ls, l.job, i - 1);
    }
  }

  lemma {:induction false} MintedGrows(ws: seq<World>, ls: seq<Label>, i: nat, j: nat)
    requires IsRun(ws, ls) && i <= j < |ws|
    ensures ws[i].minted <= ws[j].minted
  {
    if i < j {
      MintedGrows(ws, ls, i, j - 1);
      assert StepAt(ws, ls, j - 1);
    }
  }

  /** Claim tokens are minted once. */
  lemma TokensDiffer(ws: seq<World>, ls: seq<Label>, i: nat, j: nat)
    requires IsRun(ws, ls) && i < j < |ls| && ls[i].ClaimRows? && ls[j].ClaimRows?
    ensures ls[i].token != ls[j].token && ls[j].token !in ws[0].minted
  {
    assert StepAt(ws, ls, i) && StepAt(ws, ls, j);
    MintedGrows(ws, ls, i + 1, j);
    MintedGrows(ws, ls, 0, j);
  }

  /** Only the latest claim on a row completes it: nothing else happened to the row since that claim. */
  lemma OnlyLatestClaimCompletes(ws: seq<World>, ls: seq<Label>, id: Uuid, i: nat) returns (k: nat)
    requires IsRun(ws, ls) && i < |ls| && Completes(ws[i], ls[i], id)
    ensures k < i && Claims(ls[k], id) && ls[i].job.command.token == Some(ls[k].token)
    ensures Quiet(ws, ls, id, k, i)
  {
    assert StepAt(ws, ls, i);
    k := JobHasClaim(ws, ls, ls[i].job, i);
    var latest := TokenIsFromLatestClaim(ws, ls, id, i);
    assert StepAt(ws, ls, k);
    MintedGrows(ws, ls, 0, k);
    if k < latest {
      TokensDiffer(ws, ls, k, latest);
    }
  }

  /** A claim completes its row at most once. */
  lemma ClaimCompletesOnce(ws: seq<World>, ls: seq<Label>, id: Uuid, i: nat, j: nat)
    requires IsRun(ws, ls) && i < j < |ls|
    requires Completes(ws[i], ls[i], id) && Completes(ws[j], ls[j], id)
    ensures ls[i].job.command.token != ls[j].job.command.token
  {
    var a := OnlyLatestClaimCompletes(ws, ls, id, i);
    var b := OnlyLatestClaimCompletes(ws, ls, id, j);
    assert i <= b;
    assert !Completes(ws[b], ls[b], id);
    if a != b { TokensDiffer(ws, ls, a, b); }
  }

  // ---------------------------------------------------------------- conservation

  ghost function Completions(ws: seq<World>, ls: seq<Label>, id: Uuid, i: nat, j: nat): nat
    requires i <= j < |ws| == |ls| + 1
  {
    if i == j then 0
    else Completions(ws, ls, id, i, j - 1) + Bit(Completes(ws[j - 1], ls[j - 1], id))
  }

  /** Attempts are spent exactly by completed claims and by the claim now held. */
  lemma {:induction false} AttemptsAreConserved(ws: seq<World>, ls: seq<Label>, id: Uuid, i: nat, j: nat)
    requires IsRun(ws, ls) && i <= j < |ws| && id in ws[i].rows
    ensures id in ws[j].rows
    ensures ws[j].rows[id].attempts + Bit(ws[i].rows[id].token.Some?) ==
            ws[i].rows[id].attempts + Bit(ws[j].rows[id].token.Some?) + Completions(ws, ls, id, i, j)
  {
    if i < j {
      AttemptsAreConserved(ws, ls, id, i, j - 1);
      assert StepAt(ws, ls, j - 1);
      RunKeepsInv(ws, ls, j - 1);
      RowStep(ws[j - 1], ls[j - 1], id);
    }
  }

  /** A command inserted by the platform is completed at most three times, however often leases expire, and after the
      third completion its row is final. */
  lemma AtMostThreeCompletions(ws: seq<World>, ls: seq<Label>, i: nat, j: nat)
    requires IsRun(ws, ls) && i < j < |ws| && ls[i].Insert?
    ensures var id := ls[i].row.id;
            && id in ws[j].rows
            && ws[j].rows[id].attempts == Completions(ws, ls, id, i + 1, j) + Bit(ws[j].rows[id].token.Some?)
            && ws[j].rows[id].attempts <= MAX_CLAIMS
            && (Completions(ws, ls, id, i + 1, j) == MAX_CLAIMS ==> Final(ws[j].rows[id]))
  {
    assert StepAt(ws, ls, i);
    AttemptsAreConserved(ws, ls, ls[i].row.id, i + 1, j);
    RunKeepsInv(ws, ls, j);
  }

  // ---------------------------------------------------------------- truth

  lemma {:induction false} FactsGrow(ws: seq<World>, ls: seq<Label>, i: nat, j: nat)
    requires IsRun(ws, ls) && i <= j < |ws|
    ensures Extends(ws[i].orchestrator, ws[j].orchestrator)
  {
    if i < j {
      FactsGrow(ws, ls, i, j - 1);
      assert StepAt(ws, ls, j - 1);
      RunKeepsInv(ws, ls, j - 1);
      StepKeepsInv(ws[j - 1], ls[j - 1]);
    }
  }

  /** End to end: each key is admitted at most once, its outcome is final, and final rows tell the truth. */
  lemma CommandsAreAdmittedOnceAndReportedTruthfully(ws: seq<World>, ls: seq<Label>, i: nat, j: nat, id: Uuid)
    requires IsRun(ws, ls) && i <= j < |ws| && id in ws[j].rows
    ensures NoDuplicates(ws[j].orchestrator.admitted)
    ensures Extends(ws[i].orchestrator, ws[j].orchestrator)
    ensures ws[j].rows[id].state == Dispatched ==>
              ws[j].rows[id].key in ws[j].orchestrator.outcomes &&
              ws[j].orchestrator.outcomes[ws[j].rows[id].key] == Accepted
    ensures ws[j].rows[id].state == Failed ==>
              ws[j].rows[id].key in ws[j].orchestrator.outcomes &&
              ws[j].orchestrator.outcomes[ws[j].rows[id].key] == Rejected
  {
    FactsGrow(ws, ls, i, j);
    RunKeepsInv(ws, ls, j);
  }

  // ---------------------------------------------------------------- progress

  predicate Final(r: Row) {
    r.state == Dispatched || r.state == Failed || (r.token.None? && r.attempts >= MAX_CLAIMS)
  }

  /** No lost work: a row that is not final can be claimed from some instant on, in one and the same mode. */
  lemma UnfinishedWorkIsClaimable(ws: seq<World>, ls: seq<Label>, i: nat, id: Uuid)
    returns (mode: ClaimMode, from: Time)
    requires IsRun(ws, ls) && i < |ws| && id in ws[i].rows && !Final(ws[i].rows[id])
    ensures forall t :: t >= from ==> Eligible(ws[i].rows[id], mode, t)
  {
    RunKeepsInv(ws, ls, i);
    var r := ws[i].rows[id];
    mode := if r.state == Planned && r.token.None? then Dispatch else Reconcile;
    from := if r.lease.Some? then r.lease.value else 0;
  }

  /** Final rows are never touched again, not even by parking. */
  lemma {:induction false} FinalRowsAreFrozen(ws: seq<World>, ls: seq<Label>, id: Uuid, i: nat, j: nat)
    requires IsRun(ws, ls) && i <= j < |ws| && id in ws[i].rows && Final(ws[i].rows[id])
    ensures id in ws[j].rows && ws[j].rows[id] == ws[i].rows[id]
  {
    if i < j {
      FinalRowsAreFrozen(ws, ls, id, i, j - 1);
      assert StepAt(ws, ls, j - 1);
      RunKeepsInv(ws, ls, j - 1);
      RowStep(ws[j - 1], ls[j - 1], id);
    }
  }

  // ---------------------------------------------------------------- the repository takes these steps

  /** What the claim method selects is a legal choice of rows for the claim step. */
  lemma SelectionIsEnabled(w: World, mode: ClaimMode, owner: string, token: Uuid, readAt: Time,
                           locked: set<Uuid>, limit: nat)
    requires NonBlank(owner) && token !in w.minted && readAt <= w.now
    ensures var ids := TakeOldest(w.rows, Candidates(w.rows, mode, readAt, locked), limit);
            Enabled(w, ClaimRows(mode, owner, token, readAt, set id | id in ids))
  {}

  /** A claim protects its row for at least thirty seconds: the next claim on the row, if the row has not been completed
      in between, comes no earlier than that after the clock reading of the first. */
  lemma TakeoverWaitsOutTheLease(ws: seq<World>, ls: seq<Label>, id: Uuid, i: nat, j: nat)
    requires IsRun(ws, ls) && i < j < |ls| && Claims(ls[i], id) && Claims(ls[j], id)
    requires Quiet(ws, ls, id, i, j)
    ensures ls[j].mode == Reconcile && ls[j].readAt >= ls[i].readAt + 30
  {
    LeaseStays(ws, ls, id, i, j);
    assert StepAt(ws, ls, j);
  }

  lemma {:induction false} LeaseStays(ws: seq<World>, ls: seq<Label>, id: Uuid, i: nat, j: nat)
    requires IsRun(ws, ls) && i < j < |ws| && Claims(ls[i], id) && Quiet(ws, ls, id, i, j)
    ensures id in ws[j].rows && ws[j].rows[id].token.Some? && ws[j].rows[id].lease == Some(ls[i].readAt + 30)
  {
    RunKeepsInv(ws, ls, j - 1);
    assert StepAt(ws, ls, j - 1);
    if j == i + 1 {
      RowStep(ws[i], ls[i], id);
    } else {
      LeaseStays(ws, ls, id, i, j - 1);
      RowStep(ws[j - 1], ls[j - 1], id);
    }
  }
}
