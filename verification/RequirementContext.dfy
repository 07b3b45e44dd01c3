/** What the Requirement owner says about the assignment a run was started for. */
module RequirementContext {
  import opened Sql
  import opened AgentModel
  import AgentCommands

  // ---------------------------------------------------------------- the owner's facts

  datatype WorkItem = WorkItem(id: Uuid, requirementId: Uuid)

  datatype Assignment = Assignment(id: Uuid, workItemId: Uuid, superseded: bool)

  datatype Details = Details(
    requirementId: Uuid,
    workspaceId: Uuid,
    workItems: seq<WorkItem>,
    assignments: seq<Assignment>)

  datatype Reason =
    | WorkspaceChanged | OwnerDataInvalid | WorkItemNotInRequirement | OwnerDataAmbiguous | AssignmentMissing

  /** The assignments of a work item that nothing has superseded, oldest first. */
  function Current(assignments: seq<Assignment>, workItemId: Uuid): seq<Uuid> {
    if assignments == [] then []
    else
      var rest := Current(assignments[..|assignments| - 1], workItemId);
      var a := assignments[|assignments| - 1];
      if a.workItemId == workItemId && !a.superseded then rest + [a.id] else rest
  }

  function Listed(items: seq<WorkItem>, workItemId: Uuid): nat {
    if items == [] then 0
    else Listed(items[..|items| - 1], workItemId) + if items[|items| - 1].id == workItemId then 1 else 0
  }

  /** Every work item belongs to the requirement and every assignment to a listed work item. */
  ghost predicate Consistent(d: Details) {
    && (forall i :: 0 <= i < |d.workItems| ==> d.workItems[i].requirementId == d.requirementId)
    && (forall i :: 0 <= i < |d.assignments| ==>
          exists j :: 0 <= j < |d.workItems| && d.workItems[j].id == d.assignments[i].workItemId)
  }

  /** The one current assignment of the one matching work item, or what is wrong. */
  ghost function ContextOf(d: Details, workspaceId: Uuid, requirementId: Uuid, workItemId: Uuid): Result<Uuid, Reason> {
    var current := Current(d.assignments, workItemId);
    if d.requirementId != requirementId then Err(OwnerDataInvalid)
    else if d.workspaceId != workspaceId then Err(WorkspaceChanged)
    else if !Consistent(d) then Err(OwnerDataInvalid)
    else if Listed(d.workItems, workItemId) == 0 then Err(WorkItemNotInRequirement)
    else if Listed(d.workItems, workItemId) > 1 then Err(OwnerDataAmbiguous)
    else if |current| == 0 then Err(AssignmentMissing)
    else if |current| > 1 then Err(OwnerDataAmbiguous)
    else Ok(current[0])
  }

  /** `_context`: one pass over the work items, one over the assignments. */
  method Context(d: Details, workspaceId: Uuid, requirementId: Uuid, workItemId: Uuid)
    returns (r: Result<Uuid, Reason>)
    ensures r == ContextOf(d, workspaceId, requirementId, workItemId)
  {
    if d.requirementId != requirementId {
      return Err(OwnerDataInvalid);
    }
    if d.workspaceId != workspaceId {
      return Err(WorkspaceChanged);
    }
    var ids: seq<Uuid> := [];
    var matches := 0;
    var i := 0;
    while i < |d.workItems|
      invariant 0 <= i <= |d.workItems| && |ids| == i
      invariant forall k :: 0 <= k < i ==>
        ids[k] == d.workItems[k].id && d.workItems[k].requirementId == d.requirementId
      invariant matches == Listed(d.workItems[..i], workItemId)
    {
      assert d.workItems[..i + 1][..i] == d.workItems[..i];
      if d.workItems[i].requirementId != requirementId {
        return Err(OwnerDataInvalid);
      }
      ids := ids + [d.workItems[i].id];
      if d.workItems[i].id == workItemId {
        matches := matches + 1;
      }
      i := i + 1;
    }
    assert d.workItems[..i] == d.workItems;
    var current: seq<Uuid> := [];
    i := 0;
    while i < |d.assignments|
      invariant 0 <= i <= |d.assignments|
      invariant forall k :: 0 <= k < i ==>
        exists j :: 0 <= j < |d.workItems| && d.workItems[j].id == d.assignments[k].workItemId
      invariant current == Current(d.assignments[..i], workItemId)
    {
      assert d.assignments[..i + 1][..i] == d.assignments[..i];
      var a := d.assignments[i];
      if a.workItemId !in ids {
        assert !exists j :: 0 <= j < |d.workItems| && d.workItems[j].id == a.workItemId by {
          forall j | 0 <= j < |d.workItems| ensures d.workItems[j].id != a.workItemId { assert ids[j] in ids; }
        }
        return Err(OwnerDataInvalid);
      }
      var j :| 0 <= j < |ids| && ids[j] == a.workItemId;
      if a.workItemId == workItemId && !a.superseded {
        current := current + [a.id];
      }
      i := i + 1;
    }
    assert d.assignments[..i] == d.assignments;
    if matches != 1 {
      return Err(if matches == 0 then WorkItemNotInRequirement else OwnerDataAmbiguous);
    }
    if |current| != 1 {
      return Err(if current == [] then AssignmentMissing else OwnerDataAmbiguous);
    }
    return Ok(current[0]);
  }

  // ---------------------------------------------------------------- row by row

  /** Row `i` is this assignment of the work item, not superseded, and every other one of the work item is. */
  ghost predicate OnlyCurrentAt(assignments: seq<Assignment>, workItemId: Uuid, id: Uuid, i: nat) {
    && i < |assignments| && assignments[i] == Assignment(id, workItemId, false)
    && forall k :: 0 <= k < |assignments| && k != i && assignments[k].workItemId == workItemId ==>
         assignments[k].superseded
  }

  ghost predicate OnlyCurrent(assignments: seq<Assignment>, workItemId: Uuid, id: Uuid) {
    exists i: nat :: OnlyCurrentAt(assignments, workItemId, id, i)
  }

  /** No row of the work item is current. */
  ghost predicate NoneCurrent(assignments: seq<Assignment>, workItemId: Uuid) {
    forall k :: 0 <= k < |assignments| && assignments[k].workItemId == workItemId ==> assignments[k].superseded
  }

  ghost predicate OnlyAt(items: seq<WorkItem>, workItemId: Uuid, i: nat) {
    && i < |items| && items[i].id == workItemId
    && forall k :: 0 <= k < |items| && k != i ==> items[k].id != workItemId
  }

  /** Exactly one row carries the work item. */
  ghost predicate ListedOnce(items: seq<WorkItem>, workItemId: Uuid) {
    exists i: nat :: OnlyAt(items, workItemId, i)
  }

  lemma {:induction false} CurrentByRows(assignments: seq<Assignment>, workItemId: Uuid)
    ensures Current(assignments, workItemId) == [] <==> NoneCurrent(assignments, workItemId)
    ensures forall id: Uuid :: Current(assignments, workItemId) == [id] <==> OnlyCurrent(assignments, workItemId, id)
  {
    if assignments != [] {
      var n := |assignments| - 1;
      var front, a := assignments[..n], assignments[n];
      CurrentByRows(front, workItemId);
      assert assignments == front + [a];
      CurrentWithOneMore(front, a, workItemId);
    }
  }

  lemma CurrentWithOneMore(front: seq<Assignment>, a: Assignment, workItemId: Uuid)
    requires Current(front, workItemId) == [] <==> NoneCurrent(front, workItemId)
    requires forall id: Uuid :: Current(front, workItemId) == [id] <==> OnlyCurrent(front, workItemId, id)
    ensures Current(front + [a], workItemId) == [] <==> NoneCurrent(front + [a], workItemId)
    ensures forall id: Uuid :: Current(front + [a], workItemId) == [id] <==> OnlyCurrent(front + [a], workItemId, id)
  {
    var more, n := front + [a], |front|;
    var counts := a.workItemId == workItemId && !a.superseded;
    assert more[..n] == front;
    assert NoneCurrent(more, workItemId) <==> NoneCurrent(front, workItemId) && !counts by {
      assert more[n] == a && forall k :: 0 <= k < n ==> more[k] == front[k];
    }
    forall id: Uuid ensures Current(more, workItemId) == [id] <==> OnlyCurrent(more, workItemId, id) {
      OnlyCurrentWithOneMore(front, a, workItemId, id);
      var c := Current(front, workItemId);
      assert Current(more, workItemId) == if counts then c + [a.id] else c;
      assert c + [a.id] == [id] <==> c == [] && a.id == id by {
        if c + [a.id] == [id] { assert |c + [a.id]| == |c| + 1 && (c + [a.id])[|c|] == a.id; }
      }
    }
  }

  lemma OnlyCurrentWithOneMore(front: seq<Assignment>, a: Assignment, workItemId: Uuid, id: Uuid)
    ensures OnlyCurrent(front + [a], workItemId, id) <==>
      if a.workItemId == workItemId && !a.superseded then NoneCurrent(front, workItemId) && a.id == id
      else OnlyCurrent(front, workItemId, id)
  {
    var more, n := front + [a], |front|;
    assert more[n] == a && forall k :: 0 <= k < n ==> more[k] == front[k];
    if OnlyCurrent(more, workItemId, id) {
      var i: nat :| OnlyCurrentAt(more, workItemId, id, i);
      if i < n { assert OnlyCurrentAt(front, workItemId, id, i); }
    }
    if a.workItemId == workItemId && !a.superseded {
      if NoneCurrent(front, workItemId) && a.id == id { assert OnlyCurrentAt(more, workItemId, id, n); }
    } else if OnlyCurrent(front, workItemId, id) {
      var i: nat :| OnlyCurrentAt(front, workItemId, id, i);
      assert OnlyCurrentAt(more, workItemId, id, i);
    }
  }

  ghost predicate NotListed(items: seq<WorkItem>, workItemId: Uuid) {
    forall k :: 0 <= k < |items| ==> items[k].id != workItemId
  }

  lemma {:induction false} ListedByRows(items: seq<WorkItem>, workItemId: Uuid)
    ensures Listed(items, workItemId) == 0 <==> NotListed(items, workItemId)
    ensures Listed(items, workItemId) == 1 <==> ListedOnce(items, workItemId)
  {
    if items != [] {
      var n := |items| - 1;
      var front := items[..n];
      ListedByRows(front, workItemId);
      assert forall k :: 0 <= k < n ==> items[k] == front[k];
      ListedOnceWithOneMore(front, items, workItemId);
    }
  }

  lemma ListedOnceWithOneMore(front: seq<WorkItem>, items: seq<WorkItem>, workItemId: Uuid)
    requires items != [] && front == items[..|items| - 1]
    ensures ListedOnce(items, workItemId) <==>
      if items[|items| - 1].id == workItemId then NotListed(front, workItemId) else ListedOnce(front, workItemId)
    ensures NotListed(items, workItemId) <==>
      NotListed(front, workItemId) && items[|items| - 1].id != workItemId
  {
    var n := |items| - 1;
    assert forall k :: 0 <= k < n ==> items[k] == front[k];
    if ListedOnce(items, workItemId) {
      var i: nat :| OnlyAt(items, workItemId, i);
      if i < n { assert OnlyAt(front, workItemId, i); }
    }
    if items[n].id == workItemId {
      if NotListed(front, workItemId) { assert OnlyAt(items, workItemId, n); }
    } else if ListedOnce(front, workItemId) {
      var i: nat :| OnlyAt(front, workItemId, i);
      assert OnlyAt(items, workItemId, i);
    }
  }

  /** The owner's answer, row by row: an assignment exactly if owner, workspace and rows agree, the work item is listed
      once, and the assignment is its only current one; otherwise the first thing that is wrong. */
  lemma ContextByRows(d: Details, workspaceId: Uuid, requirementId: Uuid, workItemId: Uuid)
    ensures var r := ContextOf(d, workspaceId, requirementId, workItemId);
      var sound := d.requirementId == requirementId && d.workspaceId == workspaceId && Consistent(d);
      && (forall id: Uuid :: r == Ok(id) <==>
            sound && ListedOnce(d.workItems, workItemId) && OnlyCurrent(d.assignments, workItemId, id))
      && (r == Err(WorkspaceChanged) <==> d.requirementId == requirementId && d.workspaceId != workspaceId)
      && (r == Err(OwnerDataInvalid) <==>
            d.requirementId != requirementId || (d.workspaceId == workspaceId && !Consistent(d)))
      && (r == Err(WorkItemNotInRequirement) <==> sound && NotListed(d.workItems, workItemId))
      && (r == Err(AssignmentMissing) <==>
            sound && ListedOnce(d.workItems, workItemId) && NoneCurrent(d.assignments, workItemId))
  {
    ListedByRows(d.workItems, workItemId);
    CurrentByRows(d.assignments, workItemId);
    var current := Current(d.assignments, workItemId);
    if |current| == 1 { assert current == [current[0]]; }
  }

  // ---------------------------------------------------------------- the answer to a resume

  /** The work item is one of the requirement's, and the recorded assignment is the only current one of it. */
  ghost predicate IsCurrent(d: Details, source: BusinessContext) {
    && d.requirementId == source.requirementId && Consistent(d)
    && ListedOnce(d.workItems, source.workItemId)
    && OnlyCurrent(d.assignments, source.workItemId, source.assignmentId)
  }

  /** What `protect` leads to under the row lock, seen from the resume: details or no such requirement, and whether
      the assignee is eligible. */
  ghost function Answer(d: Option<Details>, workspaceId: Uuid, source: BusinessContext, eligible: bool)
    : AgentCommands.Protection
  {
    if d.None? then AgentCommands.NotProtected(false)
    else match ContextOf(d.value, workspaceId, source.requirementId, source.workItemId)
      case Err(reason) => AgentCommands.NotProtected(reason.OwnerDataInvalid? || reason.OwnerDataAmbiguous?)
      case Ok(assignment) =>
        if assignment != source.assignmentId || !eligible then AgentCommands.NotProtected(false)
        else AgentCommands.Protected(workspaceId, source.requirementId, source.workItemId, assignment)
  }

  /** The owner protects a resume exactly while the recorded assignment is current in the run's workspace and its
      assignee eligible; and then the resume accepts the answer. */
  lemma ProtectsExactlyCurrent(d: Option<Details>, run: Run, source: BusinessContext, eligible: bool)
    requires run.context == Some(source)
    ensures var p := Answer(d, run.workspaceId, source, eligible);
      && (p.Protected? <==> d.Some? && d.value.workspaceId == run.workspaceId && IsCurrent(d.value, source) && eligible)
      && (p.Protected? <==> AgentCommands.SourceRefusal(run, p).None?)
  {
    if d.Some? { ContextByRows(d.value, run.workspaceId, source.requirementId, source.workItemId); }
  }

  /** The resume is told that the context cannot be verified exactly if the owner's rows are inconsistent or ambiguous;
      any other refusal means that the run is not resumable. */
  lemma UnverifiableExactly(d: Option<Details>, workspaceId: Uuid, source: BusinessContext, eligible: bool)
    ensures Answer(d, workspaceId, source, eligible) == AgentCommands.NotProtected(true) <==>
      && d.Some?
      && (|| d.value.requirementId != source.requirementId
          || (d.value.workspaceId == workspaceId &&
              (|| !Consistent(d.value)
               || (!NotListed(d.value.workItems, source.workItemId)
                 && !ListedOnce(d.value.workItems, source.workItemId))
               || (ListedOnce(d.value.workItems, source.workItemId)
                 && Several(d.value.assignments, source.workItemId)))))
  {
    if d.Some? {
      ContextByRows(d.value, workspaceId, source.requirementId, source.workItemId);
      ListedByRows(d.value.workItems, source.workItemId);
      SeveralByRows(d.value.assignments, source.workItemId);
    }
  }

  /** Two different rows of the work item are current. */
  ghost predicate Several(assignments: seq<Assignment>, workItemId: Uuid) {
    exists i: nat, j: nat :: i < j && CurrentAt(assignments, workItemId, i) && CurrentAt(assignments, workItemId, j)
  }

  predicate CurrentAt(assignments: seq<Assignment>, workItemId: Uuid, i: nat) {
    i < |assignments| && assignments[i].workItemId == workItemId && !assignments[i].superseded
  }

  lemma SeveralByRows(assignments: seq<Assignment>, workItemId: Uuid)
    ensures |Current(assignments, workItemId)| > 1 <==> Several(assignments, workItemId)
  {
    CurrentByRows(assignments, workItemId);
    var current := Current(assignments, workItemId);
    if |current| == 1 {
      assert current == [current[0]];
      var i: nat :| OnlyCurrentAt(assignments, workItemId, current[0], i);
    }
    if !NoneCurrent(assignments, workItemId) {
      var i: nat :| i < |assignments| && assignments[i].workItemId == workItemId && !assignments[i].superseded;
      assert CurrentAt(assignments, workItemId, i);
      if !Several(assignments, workItemId) {
        assert OnlyCurrentAt(assignments, workItemId, assignments[i].id, i) by {
          forall k | 0 <= k < |assignments| && k != i && assignments[k].workItemId == workItemId
            ensures assignments[k].superseded
          {
            assert CurrentAt(assignments, workItemId, k) <==> !assignments[k].superseded;
          }
        }
      }
    }
  }
}
