/** How often a command is completed and dispatched along a run, with the exact condition for the bound of three. */
module WorkflowBounds {
  import opened Basics
  import opened Sql
  import opened WorkflowTable
  import opened Orchestrator
  import opened WorkflowProtocol
  import opened WorkflowRuns

  // ---------------------------------------------------------------- extending runs

  lemma RunExtends(ws: seq<World>, ls: seq<Label>, l: Label)
    requires IsRun(ws, ls) && Enabled(ws[|ls|], l)
    ensures IsRun(ws + [Apply(ws[|ls|], l)], ls + [l])
  {
    var vs, ms := ws + [Apply(ws[|ls|], l)], ls + [l];
    forall i | 0 <= i < |ms| ensures StepAt(vs, ms, i) {
      if i < |ls| { assert StepAt(ws, ls, i); }
    }
  }

  lemma {:induction false} CompletionsOfPrefix(ws: seq<World>, ls: seq<Label>, vs: seq<World>, ms: seq<Label>, id: Uuid,
                                               i: nat, j: nat)
    requires |ws| == |ls| + 1 && |vs| == |ms| + 1 && ws <= vs && ls <= ms && i <= j < |ws|
    ensures Completions(vs, ms, id, i, j) == Completions(ws, ls, id, i, j)
  {
    if i < j { CompletionsOfPrefix(ws, ls, vs, ms, id, i, j - 1); }
  }

  lemma {:induction false} CompletionsAdd(ws: seq<World>, ls: seq<Label>, id: Uuid, i: nat, j: nat, k: nat)
    requires |ws| == |ls| + 1 && i <= j <= k < |ws|
    ensures Completions(ws, ls, id, i, k) == Completions(ws, ls, id, i, j) + Completions(ws, ls, id, j, k)
  {
    if j < k { CompletionsAdd(ws, ls, id, i, j, k - 1); }
  }

  /** The second run continues the first one. */
  ghost predicate Continues(ws: seq<World>, ls: seq<Label>, vs: seq<World>, ms: seq<Label>) {
    IsRun(ws, ls) && IsRun(vs, ms) && ws <= vs && ls <= ms
  }

  lemma {:induction false} FreshToken(minted: set<Uuid>) returns (token: Uuid)
    ensures token !in minted && forall t :: t in minted ==> t < token
    decreases minted
  {
    if minted == {} {
      token := 0;
    } else {
      var t :| t in minted;
      var above := FreshToken(minted - {t});
      token := if t < above then above else t + 1;
      assert forall u :: u in minted ==> u == t || u in minted - {t};
    }
  }

  // ---------------------------------------------------------------- one round: claim, lost answer, record

  /** The row can be reconciled from some instant on. */
  ghost predicate Reconcilable(r: Row) {
    (r.state == Planned || r.state == Unknown) && (r.token.Some? || (r.state == Unknown && r.attempts < MAX_CLAIMS))
  }

  const WORKER := "agent-workflow-reconcile"

  /** Half a round: wait out the lease and claim. */
  lemma ClaimIsEnabled(w: World, id: Uuid) returns (a: Label, b: Label, job: Job)
    requires Inv(w) && id in w.rows && Reconcilable(w.rows[id])
    ensures a.Tick? && b.ClaimRows? && Enabled(w, a) && Enabled(Apply(w, a), b)
    ensures var v := Apply(Apply(w, a), b);
            && job in v.jobs && id in v.rows && job == Job(v.rows[id], None)
            && v.rows[id].id == id && v.rows[id].mode == Some(Reconcile) && v.rows[id].token.Some?
            && v.rows[id].attempts == w.rows[id].attempts + Bit(w.rows[id].token.None?)
  {
    var r := w.rows[id];
    assert RowOk(r);
    var now := if r.lease.Some? && r.lease.value > w.now then r.lease.value else w.now;
    a := Tick(now);
    var w1 := Apply(w, a);
    var token := FreshToken(w.minted);
    assert NonBlank(WORKER) by { assert WORKER[0] != ' '; }
    b := ClaimRows(Reconcile, WORKER, token, now, {id});
    assert Apply(w1, b).rows[id] == Claimed(r, ClaimOf(b));
    job := Job(Claimed(r, ClaimOf(b)), None);
  }

  /** The other half: get no answer, and record that. */
  lemma RecordIsEnabled(w: World, id: Uuid, job: Job) returns (c: Label, d: Label)
    requires id in w.rows && job in w.jobs && job == Job(w.rows[id], None)
    requires w.rows[id].id == id && w.rows[id].mode == Some(Reconcile) && w.rows[id].token.Some?
    ensures c.Lookup? && Enabled(w, c) && Enabled(Apply(w, c), d) && Completes(Apply(w, c), d, id)
    ensures var v := Apply(Apply(w, c), d);
            && id in v.rows && v.rows[id].state == Unknown && v.rows[id].token.None?
            && v.rows[id].attempts == w.rows[id].attempts
  {
    c := Lookup(job, LookupFails);
    var decided := job.(decision := Some(Uncertain(w.rows[id])));
    assert decided in Apply(w, c).jobs;
    d := Record(decided, w.now);
  }

  /** The four steps of a round. */
  lemma RoundIsEnabled(w: World, id: Uuid) returns (a: Label, b: Label, c: Label, d: Label)
    requires Inv(w) && id in w.rows && Reconcilable(w.rows[id])
    ensures Enabled(w, a)
    ensures Enabled(Apply(w, a), b)
    ensures Enabled(Apply(Apply(w, a), b), c)
    ensures Enabled(Apply(Apply(Apply(w, a), b), c), d)
    ensures !Completes(w, a, id) && !Completes(Apply(w, a), b, id) && !Completes(Apply(Apply(w, a), b), c, id)
    ensures Completes(Apply(Apply(Apply(w, a), b), c), d, id)
    ensures var v := Apply(Apply(Apply(Apply(w, a), b), c), d);
            && id in v.rows && v.rows[id].state == Unknown && v.rows[id].token.None?
            && v.rows[id].attempts == w.rows[id].attempts + Bit(w.rows[id].token.None?)
  {
    var job: Job;
    a, b, job := ClaimIsEnabled(w, id);
    c, d := RecordIsEnabled(Apply(Apply(w, a), b), id, job);
  }

  lemma OneStepOn(ws: seq<World>, ls: seq<Label>, us: seq<World>, ks: seq<Label>, id: Uuid, l: Label)
    returns (vs: seq<World>, ms: seq<Label>)
    requires Continues(ws, ls, us, ks) && Enabled(us[|ks|], l)
    ensures Continues(ws, ls, vs, ms) && ms == ks + [l] && vs[|ms|] == Apply(us[|ks|], l)
    ensures Completions(vs, ms, id, |ls|, |ms|) ==
            Completions(us, ks, id, |ls|, |ks|) + Bit(Completes(us[|ks|], l, id))
  {
    vs, ms := us + [Apply(us[|ks|], l)], ks + [l];
    RunExtends(us, ks, l);
    CompletionsOfPrefix(us, ks, vs, ms, id, |ls|, |ks|);
  }

  lemma TwoStepsOn(ws: seq<World>, ls: seq<Label>, us: seq<World>, ks: seq<Label>, id: Uuid, a: Label, b: Label)
    returns (vs: seq<World>, ms: seq<Label>)
    requires Continues(ws, ls, us, ks) && Enabled(us[|ks|], a) && Enabled(Apply(us[|ks|], a), b)
    ensures Continues(ws, ls, vs, ms) && ms == ks + [a, b] && vs[|ms|] == Apply(Apply(us[|ks|], a), b)
    ensures Completions(vs, ms, id, |ls|, |ms|) ==
            Completions(us, ks, id, |ls|, |ks|) + Bit(Completes(us[|ks|], a, id))
            + Bit(Completes(Apply(us[|ks|], a), b, id))
  {
    vs, ms := OneStepOn(ws, ls, us, ks, id, a);
    vs, ms := OneStepOn(ws, ls, vs, ms, id, b);
  }

  lemma Round(ws: seq<World>, ls: seq<Label>, id: Uuid) returns (vs: seq<World>, ms: seq<Label>)
    requires IsRun(ws, ls) && id in ws[|ls|].rows && Reconcilable(ws[|ls|].rows[id])
    ensures Continues(ws, ls, vs, ms)
    ensures Completions(vs, ms, id, |ls|, |ms|) == 1
    ensures var before, after := ws[|ls|].rows[id], vs[|ms|].rows;
            && id in after && after[id].state == Unknown && after[id].token.None?
            && after[id].attempts == before.attempts + Bit(before.token.None?)
  {
    RunKeepsInv(ws, ls, |ls|);
    var a, b, c, d := RoundIsEnabled(ws[|ls|], id);
    vs, ms := TwoStepsOn(ws, ls, ws, ls, id, a, b);
    vs, ms := TwoStepsOn(ws, ls, vs, ms, id, c, d);
  }

  /** Rounds until no attempt is left. */
  lemma {:induction false} RoundsUntilSpent(ws: seq<World>, ls: seq<Label>, id: Uuid)
    returns (vs: seq<World>, ms: seq<Label>)
    requires IsRun(ws, ls) && id in ws[|ls|].rows
    requires var r := ws[|ls|].rows[id]; r.state == Unknown && r.token.None? && r.attempts <= MAX_CLAIMS
    ensures Continues(ws, ls, vs, ms)
    ensures Completions(vs, ms, id, |ls|, |ms|) == MAX_CLAIMS - ws[|ls|].rows[id].attempts
    decreases MAX_CLAIMS - ws[|ls|].rows[id].attempts
  {
    if ws[|ls|].rows[id].attempts == MAX_CLAIMS {
      vs, ms := ws, ls;
    } else {
      var us, ks := Round(ws, ls, id);
      vs, ms := RoundsUntilSpent(us, ks, id);
      CompletionsAdd(vs, ms, id, |ls|, |ks|, |ms|);
      CompletionsOfPrefix(us, ks, vs, ms, id, |ls|, |ks|);
    }
  }

  // ---------------------------------------------------------------- the exact bound

  /** Held under a claim that cost no attempt: only the migration writes such rows. */
  predicate HeldForFree(r: Row) { r.token.Some? && r.attempts == 0 }

  /** Some continuation of the run completes the row more than three times from here on. */
  ghost predicate CanExceed(ws: seq<World>, ls: seq<Label>, id: Uuid) {
    exists vs, ms :: Continues(ws, ls, vs, ms) && Completions(vs, ms, id, |ls|, |ms|) > MAX_CLAIMS
  }

  /** Counting from any moment of any run, the completions still to come are at most what the attempts left over
      and the claim now held allow. */
  lemma CompletionsToCome(ws: seq<World>, ls: seq<Label>, id: Uuid, i: nat, j: nat)
    requires IsRun(ws, ls) && i <= j < |ws| && id in ws[i].rows
    ensures Completions(ws, ls, id, i, j) <= MAX_CLAIMS - ws[i].rows[id].attempts + Bit(ws[i].rows[id].token.Some?)
  {
    AttemptsAreConserved(ws, ls, id, i, j);
    RunKeepsInv(ws, ls, j);
  }

  /** The bound of three completions fails exactly for a row held with zero attempts, and then by one. */
  lemma ThreeCompletionsUnlessHeldForFree(ws: seq<World>, ls: seq<Label>, id: Uuid)
    requires IsRun(ws, ls) && id in ws[|ls|].rows
    ensures CanExceed(ws, ls, id) <==> HeldForFree(ws[|ls|].rows[id])
    ensures forall vs, ms :: Continues(ws, ls, vs, ms) ==> Completions(vs, ms, id, |ls|, |ms|) <= MAX_CLAIMS + 1
  {
    RunKeepsInv(ws, ls, |ls|);
    var r := ws[|ls|].rows[id];
    assert RowOk(r);
    forall vs, ms | Continues(ws, ls, vs, ms)
      ensures Completions(vs, ms, id, |ls|, |ms|) <= MAX_CLAIMS + Bit(HeldForFree(r))
    {
      CompletionsToCome(vs, ms, id, |ls|, |ms|);
    }
    if HeldForFree(r) {
      var us, ks := Round(ws, ls, id);
      var vs, ms := RoundsUntilSpent(us, ks, id);
      CompletionsAdd(vs, ms, id, |ls|, |ks|, |ms|);
      CompletionsOfPrefix(us, ks, vs, ms, id, |ls|, |ks|);
      assert Continues(ws, ls, vs, ms) && Completions(vs, ms, id, |ls|, |ms|) == MAX_CLAIMS + 1;
    }
  }

  // ---------------------------------------------------------------- dispatch calls

  /** The step passes the command to the orchestrator's dispatch. */
  predicate Dispatches(l: Label, id: Uuid) { l.Call? && l.job.command.id == id }

  ghost function DispatchCalls(ls: seq<Label>, id: Uuid, i: nat, j: nat): nat
    requires i <= j <= |ls|
  {
    if i == j then 0 else DispatchCalls(ls, id, i, j - 1) + Bit(Dispatches(ls[j - 1], id))
  }

  /** Jobs of the row that still wait for their dispatch call. */
  ghost function Waiting(w: World, id: Uuid): set<Job> {
    set j | j in w.jobs && j.command.id == id && j.decision.None? && j.command.mode == Some(Dispatch)
  }

  lemma ClaimWaits(w: World, l: Label, id: Uuid)
    requires Inv(w) && Enabled(w, l) && l.ClaimRows? && id in w.rows && id in Apply(w, l).rows
    ensures |Waiting(Apply(w, l), id)| <= |Waiting(w, id)| + Bit(id in l.ids && l.mode == Dispatch)
  {
    var v := Apply(w, l);
    var before, after, job := Waiting(w, id), Waiting(v, id), Job(v.rows[id], None);
    forall k | k in after ensures k in before || (id in l.ids && k == job) {
      if k !in w.jobs {
        var o :| o in l.ids && k == Job(v.rows[o], None);
        assert w.rows[o].id == o;
      }
    }
    if id in l.ids && l.mode == Dispatch {
      Subset(after, before + {job});
    } else {
      Subset(after, before);
    }
  }

  lemma OthersWaitNoMore(w: World, l: Label, id: Uuid)
    requires Enabled(w, l) && !l.ClaimRows?
    ensures |Waiting(Apply(w, l), id)| + Bit(Dispatches(l, id)) <= |Waiting(w, id)|
  {
    var before, after := Waiting(w, id), Waiting(Apply(w, l), id);
    if Dispatches(l, id) {
      assert l.job in before && after <= before - {l.job};
      Subset(after, before - {l.job});
    } else {
      assert after <= before;
      Subset(after, before);
    }
  }

  lemma WaitingStep(w: World, l: Label, id: Uuid)
    requires Inv(w) && Enabled(w, l) && id in w.rows
    ensures id in Apply(w, l).rows
    ensures |Waiting(Apply(w, l), id)| + Bit(Dispatches(l, id)) + w.rows[id].attempts <=
            |Waiting(w, id)| + Apply(w, l).rows[id].attempts
  {
    RowStep(w, l, id);
    if l.ClaimRows? { ClaimWaits(w, l, id); } else { OthersWaitNoMore(w, l, id); }
  }

  lemma Subset<T>(a: set<T>, b: set<T>)
    requires a <= b
    ensures |a| <= |b|
  {
    assert b == a + (b - a);
  }

  lemma {:induction false} CallsCostAttempts(ws: seq<World>, ls: seq<Label>, id: Uuid, i: nat, j: nat)
    requires IsRun(ws, ls) && i <= j < |ws| && id in ws[i].rows
    ensures id in ws[j].rows
    ensures DispatchCalls(ls, id, i, j) + |Waiting(ws[j], id)| + ws[i].rows[id].attempts <=
            |Waiting(ws[i], id)| + ws[j].rows[id].attempts
  {
    if i < j {
      CallsCostAttempts(ws, ls, id, i, j - 1);
      assert StepAt(ws, ls, j - 1);
      RunKeepsInv(ws, ls, j - 1);
      WaitingStep(ws[j - 1], ls[j - 1], id);
    }
  }

  /** A command the platform inserts is passed to the orchestrator's dispatch at most three times in any run. */
  lemma AtMostThreeDispatchCalls(ws: seq<World>, ls: seq<Label>, i: nat, j: nat)
    requires IsRun(ws, ls) && i < j < |ws| && ls[i].Insert?
    ensures DispatchCalls(ls, ls[i].row.id, i + 1, j) <= MAX_CLAIMS
  {
    var id := ls[i].row.id;
    assert StepAt(ws, ls, i);
    RunKeepsInv(ws, ls, i);
    assert Waiting(ws[i + 1], id) == {} by {
      forall k | k in ws[i + 1].jobs ensures k.command.id != id { assert JobOk(ws[i], k); }
    }
    CallsCostAttempts(ws, ls, id, i + 1, j);
    RunKeepsInv(ws, ls, j);
  }
}
