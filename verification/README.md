# Verified model of the agent control plane

A Dafny model of the durable core of the control plane: the state that crashing, concurrent workers share, and
the protocols that keep it safe. Code that updates rows or objects in place is modelled by classes and methods
proved against a specification function; the laws of the system are lemmas about those functions, for every
input, every interleaving and every run.

| files | what they model |
|---|---|
| `Basics`, `Sql` | bytes, counting and separated text; three-valued logic, as WHERE and CHECK evaluate it |
| `WorkflowTable`, `Orchestrator`, `WorkflowProtocol`, `WorkflowRuns`, `WorkflowBounds`, `WorkflowOutcomes` | the workflow command table with its claim, record and park statements; the development orchestrator; any number of workers, crashes and clock advances as one transition system; what holds along every run; exact bounds on completions and dispatch calls; the row that each answer of the orchestrator leads to |
| `ClaimLeaseMigration` | the six UPDATEs of the claim-lease migration and the constraints after them |
| `AgentModel`, `AgentCommands`, `AgentEffects`, `AgentRuns`, `AgentHistory`, `AgentStore` | runs, attempts and canonical events; acceptance, cancellation, resumption and start as one function per transaction; when each is accepted and what it changes, column by column; their invariant; whole histories; and the same operations statement by statement, which refine the simple form |
| `PlatformRuns` | agent transactions and workers over one command table: the commands that the agent files are the ones that the claim protocol carries out |
| `AcceptanceLog`, `Paging`, `EventReader` | the acceptance log of a run, row by row; keyset paging in general, and the event listing that a reader follows along a run |
| `CommandKeys`, `CursorCodec` | the text of command keys; the base64url layer and the signed cursor above it |
| `Idempotency` | claim, execute, seal, complete and replay |
| `RequirementContext`, `ResumeProtection` | what the Requirement owner answers; resumes, all other agent transactions and changes by the owner as one transition system, with the Requirement lock that a resume holds across its commit |
| `ConnectionCheck` | the model check table: trigger, constraints, indexes |
| `FileReferences`, `FileTree`, `BoundedFile`, `BoundedRead` | reference spelling; directory trees with links; a file system that others change at any time; the bounded reader |
| `Recovery` | the recovery command when any call may raise |

`dafny verify dfyconfig.toml` checks the project.

## What the proofs brought to light

- The constraint `ck_agent_command_claim` does not enforce "all four claim columns or none": it also lets through
  exactly the rows with token and lease but without owner or mode, for which it evaluates to NULL
  (`ClaimCheckAdmits`). That rows are never half claimed is a fact about the steps, proved as part of the invariant.
- Parking never changes a reachable row. A worker that spends the third attempt already writes the exhausted code
  itself, so the parking UPDATE finds nothing (`ParkChangesNothing`); it matters only for rows written otherwise.
- "At most three completions" fails, by one, exactly for a row held with zero attempts
  (`ThreeCompletionsUnlessHeldForFree`). The platform never writes such a row; the migration does, exactly where it
  adopts a predecessor claim without attempts (`AdoptedForFree`, `FourthCompletionAfterUpgrade`).
- The claim-lease migration aborts exactly on a row that is DISPATCHED with the exact accepted receipt and yet
  lacks its time or carries an error code (`UpgradeSucceedsIffConsistent`).
- Before the deadline constraint a model check can run without a deadline: the comparison with NULL does not fail
  the CHECK (`MissingDeadlineSlipsThrough`). An attempted check lacks a deadline exactly if an accepted update once
  set it running with a NULL one (`MissingDeadlines`), and the constraint can be added exactly if that never
  happened (`DeadlinesCanBeRequired`).
- A non-zero exit of the recovery command does not mean that no credential is recorded: a repeated command replays
  the recorded one and can still fail (`ReplayThatFails`). It means that nothing is recorded unless something was at
  the start or another session recorded it.
- In `read_bounded_file` the failure reason BOUNDARY is never used; a candidate outside the root is reported as
  UNAVAILABLE.

## Assumptions

- A transaction is one atomic step; row locks serialise the transactions that touch the same rows.
- Identifiers and claim tokens from `new_id` are fresh.
- Clock readings of different workers are readings of one clock, each taken at or before the instant it is used. That
  no live claim is taken over depends on it: a worker whose clock runs fast sees leases expire too early.
- Sealing is inverted by unsealing (`Authentic`). JSON text is inverted by parsing and HMAC is any function with
  non-empty results (`Lawful`); a UUID's text is inverted by parsing (`Invertible`). Payload digests are any function
  of the event.
- The texts of different UUIDs differ and contain no colon (`Separable`).
- Every write to a file, and every reuse of an inode, changes its content identity (`Tracked`). Only the claim that
  returned bytes were the content throughout the read needs this; the others hold for arbitrary histories.
- `pg_xact_status` answers "aborted" only of a transaction that has aborted, and a recorded idempotent command stays
  recorded.

## Model

| member | source | states |
|---|---|---|
| WorkflowTable.ClaimCheckAdmits | migrations/agent/0002_workflow_claim_lease.py:60-65 | The claim CHECK passes exactly for whole claims, for none, and for half claims with token and lease set but owner or mode NULL; for those, and only those, it is NULL |
| WorkflowTable.ChecksByColumns | migrations/agent/0002_workflow_claim_lease.py:60-88 | The rows that all four constraints let through, column by column and without three-valued logic |
| WorkflowTable.EligibleByColumns | control_plane/app/modules/agent/adapters/sqlalchemy.py:612-623 | Which rows either claim mode may take |
| WorkflowTable.ClaimByColumns | control_plane/app/modules/agent/adapters/sqlalchemy.py:633-664 | A claim writes exactly its four columns and the attempt count, which it raises unless it reconciles a held row |
| WorkflowTable.CompletionByColumns | control_plane/app/modules/agent/adapters/sqlalchemy.py:691-712 | What a completion writes |
| WorkflowTable.ParkingByColumns | control_plane/app/modules/agent/adapters/sqlalchemy.py:667-679 | Which rows parking gives up, and what it writes to them |
| WorkflowTable.OldestFirst | control_plane/app/modules/agent/adapters/sqlalchemy.py:624-632 | Claimed rows come in order of age, and of identifier among rows of one age |
| WorkflowTable.TakeOldest | control_plane/app/modules/agent/adapters/sqlalchemy.py:612-650 | ORDER BY created_at, id LIMIT n: distinct candidates in order, every one left behind comes later, and all of them when fewer than n are taken |
| WorkflowTable.WorkflowCommandRepository.ClaimWorkflowCommands | control_plane/app/modules/agent/adapters/sqlalchemy.py:593-665 | Claims exactly the oldest eligible unlocked rows and no other, leaves locked rows alone, returns the claimed rows as they now stand; a missing claim field raises and changes nothing |
| WorkflowTable.WorkflowCommandRepository.ParkExpiredWorkflowClaims | control_plane/app/modules/agent/adapters/sqlalchemy.py:667-679 | Relabels exactly the unclaimed UNKNOWN rows with three attempts that lack the exhausted code, and counts them |
| WorkflowTable.WorkflowCommandRepository.RecordWorkflowCommandDispatch | control_plane/app/modules/agent/adapters/sqlalchemy.py:681-716 | Completes the row only under the expected state and claim token, clearing all four claim columns; otherwise nothing changes and the result is empty |
| Orchestrator.AdmitOnce | control_plane/app/modules/agent/adapters/dev_temporal.py:58-87 | Whatever is called again, keys are admitted without duplicates and an outcome once given never changes |
| Orchestrator.DevTemporalAdapter.Dispatch | control_plane/app/modules/agent/adapters/dev_temporal.py:58-87 | An unknown key is recorded once, as rejected exactly if it is among the keys to reject; a known one keeps its outcome; the answer is that outcome, or its loss; a pre-call failure changes nothing |
| Orchestrator.DevTemporalAdapter.Lookup | control_plane/app/modules/agent/adapters/dev_temporal.py:40-56 | A lookup only adds to the lookup log, and confirms, rejects or denies having seen exactly what the outcome and the switches call for |
| WorkflowRuns.DispatchDecision | control_plane/app/modules/agent/application/workflow.py:222-278 | Whatever the call answers or raises, the mutation recorded leaves a sound row whenever it lands, and claims only what the orchestrator's facts bear out |
| WorkflowRuns.ReconcileDecision | control_plane/app/modules/agent/application/workflow.py:281-334 | The same for the answers to a lookup |
| WorkflowOutcomes.CallsAreRecorded | control_plane/app/modules/agent/application/workflow.py:222-278 | For every fate of a dispatch call, the row that its record leaves whenever it hits: DISPATCHED with the receipt exactly if the orchestrator accepted and said so, FAILED exactly if it rejected, PLANNED with the pre-call code below the limit, UNKNOWN otherwise |
| WorkflowOutcomes.LookupsAreRecorded | control_plane/app/modules/agent/application/workflow.py:281-334 | For every answer to a lookup, the row that its record leaves: as decided, PLANNED again if a planned command was never observed, UNKNOWN otherwise |
| WorkflowOutcomes.CallsDecideOnce | control_plane/app/modules/agent/adapters/dev_temporal.py:58-87 | A call that gets through decides an unknown key as told, and no call changes a decided one |
| WorkflowOutcomes.PlannedWorkCanBeDone | control_plane/app/modules/agent/application/workflow.py:222-278 | From every reachable unheld planned row some continuation ends it, dispatched or failed as the orchestrator decides |
| WorkflowOutcomes.DecidedWorkCanBeConfirmed | control_plane/app/modules/agent/application/workflow.py:281-334 | From every reachable row open to reconciliation whose key is decided, some continuation without another dispatch ends it as decided |
| WorkflowOutcomes.StepsAreFree | control_plane/app/modules/agent/application/workflow.py:150-334 | When each step of the system may happen: any crash, any answer, any parking, at any time |
| WorkflowOutcomes.HitsExactly | control_plane/app/modules/agent/adapters/sqlalchemy.py:691-698 | A completion hits exactly while the row is in the state and under the token that its worker read |
| WorkflowOutcomes.MissedRecordsChangeNothing | control_plane/app/modules/agent/application/workflow.py:179-202 | A completion that does not hit changes no row |
| WorkflowRuns.StepKeepsInv | control_plane/app/modules/agent/adapters/sqlalchemy.py:593-716 | Insert, clock, claim, call, lookup, record, park and crash all keep the invariant of table, workers and orchestrator, and the orchestrator's facts only grow |
| WorkflowRuns.RunKeepsInv | control_plane/app/modules/agent/application/workflow.py:157-334 | The invariant holds in every state of every run of any number of workers |
| WorkflowRuns.ReachableRowsPassChecks | migrations/agent/0002_workflow_claim_lease.py:60-88 | Every reachable row satisfies all four constraints and has all claim columns or none |
| WorkflowRuns.ParkChangesNothing | control_plane/app/modules/agent/adapters/sqlalchemy.py:667-679 | In a sound state parking finds no row to relabel |
| WorkflowRuns.NoBlindRedispatch | control_plane/app/modules/agent/adapters/sqlalchemy.py:612-650 | Between a claim of a row and a later DISPATCH claim of it there is a successful completion |
| WorkflowRuns.LiveClaimIsNotTakenOver | control_plane/app/modules/agent/adapters/sqlalchemy.py:615-640 | A claim step on a held row is a reconciliation, comes after the lease has run out, and costs no attempt |
| WorkflowRuns.TakeoverWaitsOutTheLease | control_plane/app/modules/agent/application/workflow.py:157-176 | Without a completion in between, the next claim on a row is a reconciliation at least thirty seconds after the first claim's clock reading |
| WorkflowRuns.OnlyLatestClaimCompletes | control_plane/app/modules/agent/adapters/sqlalchemy.py:681-716 | A completion carries the token of an earlier claim since which the row was neither claimed nor completed |
| WorkflowRuns.ClaimCompletesOnce | control_plane/app/modules/agent/adapters/sqlalchemy.py:681-716 | Two completions of a row never share a claim token |
| WorkflowRuns.AttemptsAreConserved | control_plane/app/modules/agent/adapters/sqlalchemy.py:651-664 | Between any two moments attempts grow by the completions and the change in holding a claim, exactly |
| WorkflowRuns.AtMostThreeCompletions | control_plane/app/modules/agent/adapters/sqlalchemy.py:612-664 | For an inserted command, attempts equal completions plus one if held, and never exceed three; after the third completion the row is final |
| WorkflowBounds.CompletionsToCome | control_plane/app/modules/agent/adapters/sqlalchemy.py:612-716 | From any moment of any run the completions still to come are at most the attempts left plus one for a claim now held |
| WorkflowBounds.ThreeCompletionsUnlessHeldForFree | control_plane/app/modules/agent/adapters/sqlalchemy.py:612-716 | Some continuation completes a row more than three times if and only if it is held with zero attempts now; no continuation does so more than four times |
| WorkflowBounds.AtMostThreeDispatchCalls | control_plane/app/modules/agent/application/workflow.py:222-278 | In every run an inserted command is passed to the orchestrator's dispatch at most three times |
| WorkflowRuns.CommandsAreAdmittedOnceAndReportedTruthfully | control_plane/app/modules/agent/adapters/dev_temporal.py:40-87 | In every run each key is admitted at most once, outcomes are final, DISPATCHED means accepted and FAILED means rejected |
| WorkflowRuns.UnfinishedWorkIsClaimable | control_plane/app/modules/agent/adapters/sqlalchemy.py:612-640 | A reachable row that is not final can be claimed in one mode at every instant from some time on |
| WorkflowRuns.FinalRowsAreFrozen | control_plane/app/modules/agent/adapters/sqlalchemy.py:612-716 | A dispatched, failed or spent row is never changed again by any step |
| WorkflowRuns.SelectionIsEnabled | control_plane/app/modules/agent/application/workflow.py:157-176 | What the claim statement selects is always a step of the transition system |
| ClaimLeaseMigration.CommandTable.Upgrade | migrations/agent/0002_workflow_claim_lease.py:19-88 | Admitted exactly if every migrated row passes all four constraints; then every row has its migrated form and none is lost, and otherwise the table is as before |
| ClaimLeaseMigration.MigratedAsExpected | migrations/agent/0002_workflow_claim_lease.py:19-59 | The composition of six statements equals one case table over the legacy state |
| ClaimLeaseMigration.RecognisedClaims | migrations/agent/0002_workflow_claim_lease.py:27-27 | A predecessor claim is recognised by the text of its receipt's outcome member, and a missing or null one is none |
| ClaimLeaseMigration.UpgradeSucceedsIffConsistent | migrations/agent/0002_workflow_claim_lease.py:45-88 | A migrated row passes all constraints, and the protocol's own row invariant, exactly if it did not contradict itself before |
| ClaimLeaseMigration.UpgradePreservesIdentity | migrations/agent/0002_workflow_claim_lease.py:19-59 | Identity, key, generation and age survive; attempts are capped; FAILED rows are exactly the FAILED ones and no row becomes DISPATCHED |
| ClaimLeaseMigration.UpgradedTableStartsProtocol | migrations/agent/0002_workflow_claim_lease.py:19-88 | An upgraded consistent table is a starting state of the claim protocol, with every adopted claim open to reconciliation |
| ClaimLeaseMigration.AdoptedForFree | migrations/agent/0002_workflow_claim_lease.py:19-28 | A migrated row is held with zero attempts exactly if it was UNKNOWN with a CLAIMED receipt and zero attempts |
| ClaimLeaseMigration.FourthCompletionAfterUpgrade | migrations/agent/0002_workflow_claim_lease.py:19-59 | From an upgraded table on, a command can be completed four times exactly if it was such a row |
| AgentStore.UnitOfWork.CompareAndSetAttempt | control_plane/app/modules/agent/adapters/sqlalchemy.py:287-319 | Writes every mutable column, terminal evidence included, and raises the revision by one exactly if the revision is the expected one |
| AgentStore.UnitOfWork.CompareAndSetRun | control_plane/app/modules/agent/adapters/sqlalchemy.py:213-236 | The same for runs, for state and latest attempt |
| AgentStore.UnitOfWork.AppendEvent | control_plane/app/modules/agent/adapters/sqlalchemy.py:385-442 | Appends unless identity or position is taken; then equal content is returned and anything else is a conflict |
| AgentStore.UnitOfWork.AppendReceipt | control_plane/app/modules/agent/adapters/sqlalchemy.py:354-370 | A receipt is written once and never replaced |
| AgentStore.AgentPlatform.AcceptWorkflowEvent | control_plane/app/modules/agent/application/events.py:115-257 | In a sound database the step-by-step transaction equals the simple form, and no failure that blames a lost lock or a conflicting row ever occurs |
| AgentStore.AgentPlatform.CancelAttempt | control_plane/app/modules/agent/application/control.py:146-220 | Likewise for cancellation; the row lock is never lost and the command key is always free |
| AgentStore.AgentPlatform.ResumeAttempt | control_plane/app/modules/agent/application/control.py:270-361 | Likewise for resumption, with its two clock readings and for every answer the Requirement owner may give between them |
| AgentStore.AppendCannotConflict | control_plane/app/modules/agent/adapters/sqlalchemy.py:385-442 | For a new event at the expected next position neither its place nor its receipt is taken |
| AgentRuns.StepKeepsInv | control_plane/app/modules/agent/application/events.py:141-257 | Start, accept, cancel and resume keep the invariant of attempts, runs, events, sequences and command keys |
| AgentEffects.TransitionsByColumns | control_plane/app/modules/agent/domain/transitions.py:17-74 | The table of transitions by where they lead, which refusal comes first, and what a transition changes |
| AgentEffects.ResumptionsByColumns | control_plane/app/modules/agent/domain/transitions.py:77-96 | When a generation may be resumed, and what that changes |
| AgentEffects.EventsAcceptedExactly | control_plane/app/modules/agent/application/events.py:141-199 | A new event is accepted if and only if it is the next of the current generation, its kind may follow the attempt's state, and a wait brings a question and an unused checkpoint |
| AgentEffects.RefusedEvents | control_plane/app/modules/agent/application/events.py:179-193 | Why an event of the current generation is refused, and which reason comes first |
| AgentEffects.MalformedEvents | control_plane/app/modules/agent/domain/models.py:290-346 | Which events are not well formed |
| AgentEffects.AcceptedEventTakesEffect | control_plane/app/modules/agent/application/events.py:188-251 | What an accepted event changes in every table, in particular that its run ends exactly if the event is terminal and in the state it names |
| AgentEffects.ChangedRedeliveryConflicts | control_plane/app/modules/agent/application/events.py:142-144 | A known event with other content is a conflict and changes nothing |
| AgentEffects.CancelTakesEffect | control_plane/app/modules/agent/application/control.py:162-206 | At its revision an attempt in any of the seven cancelable states becomes CANCELING with its command filed; any other is left alone; both leave one audit entry |
| AgentEffects.CancelIsRefused | control_plane/app/modules/agent/application/control.py:154-166 | At another revision or under an unknown run a cancellation changes nothing |
| AgentEffects.ResumeAcceptedExactly | control_plane/app/modules/agent/application/control.py:285-308 | A resume is accepted if and only if the attempt waits at this revision, both readings lie before the deadline, the binding is intact and the owner protects the recorded context |
| AgentEffects.RefusedResumes | control_plane/app/modules/agent/application/control.py:226-308 | Why a resume is refused, and which reason comes first |
| AgentEffects.ResumeTakesEffect | control_plane/app/modules/agent/application/control.py:309-345 | What an accepted resume changes in every table |
| AgentEffects.StartTakesEffect | control_plane/app/modules/agent/application/runs.py:80-239 | The rows a started run begins with |
| AgentEffects.TransactionsAreFree | control_plane/app/modules/agent/application/control.py:184-195 | Any transaction may be tried at any time; only the identifiers it brings must be new |
| AgentHistory.SequencesAreOneToN | control_plane/app/modules/agent/application/events.py:179-205 | Accepted sequences per attempt and generation are exactly 1..n, n is the counter of the current generation, and no later generation has an event |
| AgentHistory.OldGenerationsAreFrozen | control_plane/app/modules/agent/application/events.py:158-178 | Once a resume has raised the generation, no event is ever added to an earlier one |
| AgentHistory.RedeliveryReturnsOriginal | control_plane/app/modules/agent/application/events.py:141-152 | After any later events, resumes and cancels, redelivery returns the first acceptance and changes nothing, audit included |
| AgentHistory.RefusalLeavesFacts | control_plane/app/modules/agent/application/events.py:158-195 | A refused event changes no fact; only a stale generation leaves one audit entry |
| AgentHistory.OtherGenerationsAreStale | control_plane/app/modules/agent/application/events.py:153-178 | A new event is refused as stale, with exactly one audit entry, if and only if it is of another generation and not a WAITING_INPUT without question; that one is refused first, for its question, and leaves no trace |
| AgentHistory.RevisionCountsMutations | control_plane/app/modules/agent/application/control.py:162-195 | A revision grows by exactly the number of accepted events, resumes and effective cancels |
| AgentHistory.OneControlPerRevision | control_plane/app/modules/agent/application/control.py:163-166 | Two mutating controls of an attempt never name the same revision |
| AgentHistory.RunsMirrorAttempts | control_plane/app/modules/agent/application/events.py:213-225 | A run is succeeded, failed, canceled or timed out exactly if its attempt is, and active in the other eight states; the fence names the current generation |
| CommandKeys.KeyTexts | control_plane/app/modules/agent/application/control.py:187-187 | The key of each kind of command, letter by letter |
| CommandKeys.DecimalReadsBack | control_plane/app/modules/agent/application/control.py:187-187 | A generation is written in decimal digits that read back as the number, without a leading zero |
| CommandKeys.DecimalIsSeparable | control_plane/app/modules/agent/application/control.py:187-187 | Texts as the keys need them exist |
| CommandKeys.KeyParts | control_plane/app/modules/agent/application/control.py:187-187 | Split at colons, a key text is its kind, its attempt and its generation |
| CommandKeys.CommandKeysNeverCollide | control_plane/app/modules/agent/application/control.py:184-195 | No two commands of a sound database have the same key text |
| CommandKeys.KeyTextInjective | control_plane/app/modules/agent/application/control.py:323-334 | The key text determines kind, attempt and generation |
| PlatformRuns.FilesExactlyOne | control_plane/app/modules/agent/application/control.py:184-195 | An agent transaction files exactly the command it answers with, or none, under a new identifier |
| PlatformRuns.FollowedIsEnabled | control_plane/app/modules/agent/adapters/sqlalchemy.py:558-577 | In a sound state the row of an agent's new command is always admitted: neither its identifier nor its key is taken |
| PlatformRuns.StepKeepsInv | control_plane/app/modules/agent/adapters/sqlalchemy.py:558-716 | Agent transactions and workers interleaved keep both invariants, and rows and commands match one to one, key by key |
| PlatformRuns.WorkersSeeARun | control_plane/app/modules/agent/application/workflow.py:157-334 | Seen from the workers, every run of the whole platform is a run of the claim protocol, so that all its theorems apply |
| PlatformRuns.AgentCommandsAreCarriedOut | control_plane/app/modules/agent/adapters/dev_temporal.py:40-87 | Every command the agent filed has its row under a key of its own; the key is admitted at most once, and a final row tells the truth about it |
| PlatformRuns.AgentCommandsAreTriedAtMostThrice | control_plane/app/modules/agent/application/workflow.py:222-334 | Such a command is passed to dispatch and completed at most three times, and after three completions its row is final |
| Paging.PageIsLeast | control_plane/app/modules/agent/adapters/sqlalchemy.py:480-527 | A page is increasing, beyond its anchor, and every visible key left out lies behind it on a full page |
| Paging.ColumnsDecideInOrder | control_plane/app/modules/agent/adapters/sqlalchemy.py:487-500 | Attempt number, generation, sequence and identifier order the events, each deciding where those before it agree |
| Paging.PagingAgreesWithSortedLog | control_plane/app/modules/agent/adapters/sqlalchemy.py:480-527 | Paging while keys are added reads the keys present at the start as a prefix of the sorted log, each once, and all of them at a short page |
| AcceptanceLog.LogIsUnique | control_plane/app/modules/agent/adapters/sqlalchemy.py:480-510 | A run has at most one acceptance log: the events whose attempt row belongs to it, in the order of acceptance |
| EventReader.PageIsNextStretch | control_plane/app/modules/agent/adapters/sqlalchemy.py:471-527 | The page after the m-th event of a run's acceptance log is the next stretch of it |
| EventReader.PagesAreRefusedExactly | control_plane/app/modules/agent/adapters/sqlalchemy.py:471-500 | A page is refused exactly for a limit outside 1..101 or an anchor that is no event of the run |
| EventReader.ListingsAreRefusedExactly | control_plane/app/modules/agent/application/queries.py:334-352 | A listing is refused exactly for a limit outside 1..100, an unknown run, or a cursor that names no event of the run |
| EventReader.ReaderFollowsAcceptanceLog | control_plane/app/modules/agent/adapters/sqlalchemy.py:471-527 | A reader interleaved with accepts, resumes and cancels always holds a prefix of the acceptance log, is never refused its anchor, and has caught up at a short page |
| EventReader.ListingCoversLog | control_plane/app/modules/agent/application/queries.py:347-359 | A page of the listing is the next stretch of the log and names its last event exactly while events remain |
| EventReader.TextListingCoversLog | control_plane/app/modules/agent/application/queries.py:327-361 | The same with signed text cursors: the cursor of the last page is accepted and leads to the next stretch |
| EventReader.FollowingCursorsCoversLog | control_plane/app/modules/agent/application/queries.py:327-361 | A client following text cursors while events are accepted is never refused, holds a prefix of the acceptance log, and all of it when a page comes without a cursor |
| CursorCodec.SymbolsAreTheAlphabet | control_plane/app/modules/agent/adapters/dev_policy.py:65-75 | The 64 symbols in order of value are the alphabet of section 5 of RFC 4648, and no other character is accepted |
| CursorCodec.SameBits | control_plane/app/modules/agent/adapters/dev_policy.py:65-67 | Four sextets hold the bits of three octets, the most significant first |
| CursorCodec.DecodeEncode | control_plane/app/modules/agent/adapters/dev_policy.py:65-84 | Every non-empty byte string survives encoding without padding |
| CursorCodec.AcceptsExactlyCanonical | control_plane/app/modules/agent/adapters/dev_policy.py:69-84 | A segment is accepted exactly if it is canonical by sections 5 and 3.5 of RFC 4648, and is then the encoding of what it decodes to |
| CursorCodec.AcceptedCursors | control_plane/app/modules/agent/adapters/dev_policy.py:96-117 | A cursor yields an event exactly if it is the text of a signed payload for that run and event |
| CursorCodec.CursorsAreBoundToTheirRun | control_plane/app/modules/agent/adapters/dev_policy.py:86-117 | An encoded cursor returns its event to its own run and is refused to every other |
| Idempotency.ExecuteIdempotent | control_plane/app/shared/idempotency.py:149-213 | Claim, lookup, command, seal and completion in sequence equal the one-step form; a raise leaves the store as it was |
| Idempotency.ReplaysExactly | control_plane/app/shared/idempotency.py:126-146 | A record replays exactly the response sealed for its own scope, fingerprint and status; which failure it is otherwise |
| Idempotency.SealedByColumns | control_plane/app/shared/idempotency.py:193-213 | What the record of a completed command holds, column by column |
| Idempotency.LaterCallsReplayTheFirst | control_plane/app/shared/idempotency.py:126-189 | After a call took effect, later calls with its key change nothing: same fingerprint, same response; other fingerprint, conflict |
| Idempotency.EffectsCommitOnce | control_plane/app/shared/idempotency.py:149-213 | Effects commit at most once per actor, operation and key in every history of calls and aborts |
| Idempotency.UntouchedKeysAreFree | control_plane/app/shared/idempotency.py:162-193 | Aborted and raising calls leave the key free, so the next call runs its command |
| Idempotency.ReplayIsAlwaysAvailable | control_plane/app/shared/idempotency.py:126-146 | No history leads to "still in progress" or to a replay that cannot be opened |
| RequirementContext.Context | control_plane/app/modules/agent/adapters/requirement.py:65-129 | The two passes over work items and assignments decide exactly the declarative form, reasons included |
| RequirementContext.ContextByRows | control_plane/app/modules/agent/adapters/requirement.py:65-129 | Row by row: an assignment exactly if owner, workspace and rows agree, one row lists the work item, and one row that is not superseded assigns it, every other being superseded; otherwise which reason |
| RequirementContext.UnverifiableExactly | control_plane/app/modules/agent/application/control.py:242-250 | A resume is told that its context cannot be verified exactly if the owner's rows are inconsistent or ambiguous |
| RequirementContext.ProtectsExactlyCurrent | control_plane/app/modules/agent/application/control.py:223-267 | The owner protects exactly while a row that is not superseded assigns the recorded assignment to its work item and every other row of that work item is superseded, in the run's workspace, with an eligible assignee; exactly then does the resume accept the answer |
| ResumeProtection.StepKeepsInv | control_plane/app/modules/agent/application/control.py:276-361 | Under every step of resumes, of all other agent transactions and of the owner, the agent database stays sound, the rows of a resume stay as it found them, and its requirement stays locked with the recorded assignment current |
| ResumeProtection.OnlyCommitsRaiseGenerations | control_plane/app/modules/agent/application/control.py:309-320 | No step but the commit of a resume of that attempt changes its generation |
| ResumeProtection.ResumesAreProtected | control_plane/app/modules/agent/application/control.py:285-361 | Whenever an attempt enters a new generation, the assignment recorded on its run has been the only current one, under the requirement's lock, from the owner's check until after the commit, and a clock reading in between lay before the attempt's waiting deadline |
| ResumeProtection.GuardedResumesCommit | control_plane/app/modules/agent/application/control.py:309-322 | A resume that reaches its commit is never refused there: what it checked before still holds |
| ResumeProtection.TimelyResumeCommits | control_plane/app/modules/agent/application/control.py:285-361 | From every sound state in which nothing stands in its way, four enabled steps bring a resume to its commit and the attempt into its next generation |
| ResumeProtection.GuardExactly | control_plane/app/modules/agent/application/control.py:223-267 | A guard goes on, under the requirement's lock, exactly if the recorded assignment is current in the run's workspace with an eligible assignee; otherwise the resume ends and holds nothing |
| ResumeProtection.StepsAreFree | control_plane/app/modules/agent/adapters/requirement.py:40-63 | When each step of the system may happen |
| ResumeProtection.NoChangeInBetween | control_plane/app/modules/agent/adapters/requirement.py:40-63 | Between check and commit the owner commits no change to that requirement |
| ConnectionCheck.GuardConnectionCheck | migrations/model_gateway/0003_model_stream_checks.py:96-118 | The trigger, comparing columns with IS DISTINCT FROM, raises exactly for what is no step of a check's life |
| ConnectionCheck.ProbingOneRowSuffices | migrations/model_gateway/0002_model_connection_checks.py:50-57 | Probing both unique indexes for the one row written decides uniqueness over all pairs |
| ConnectionCheck.ConstraintsByColumns | migrations/model_gateway/0002_model_connection_checks.py:14-48 | The rows that the constraints let through at each stage, column by column and without three-valued logic |
| ConnectionCheck.CheckTable.Execute | migrations/model_gateway/0002_model_connection_checks.py:12-89 | Trigger, constraints and index probe in sequence accept exactly what the declarative form accepts, leave its table, and keep the invariant |
| ConnectionCheck.ReachableIsSound | migrations/model_gateway/0002_model_connection_checks.py:12-89 | Every sequence of statements keeps constraints, indexes and the two-update life of a check |
| ConnectionCheck.ChecksEvolve | migrations/model_gateway/0002_model_connection_checks.py:62-84 | Over any later statements input and execution stay frozen, and a terminal check stays as it is |
| ConnectionCheck.OneTokenEver | migrations/model_gateway/0002_model_connection_checks.py:62-84 | Once a check has an execution token it has that token at every later moment |
| ConnectionCheck.ReachableTables | migrations/model_gateway/0002_model_connection_checks.py:36-57 | One running check per connection, one open check per deployment, a token exactly for attempted checks |
| ConnectionCheck.MissingDeadlines | migrations/model_gateway/0002_model_connection_checks.py:36-39 | After any statements, an attempted check lacks its deadline if and only if some accepted update once set it running with a NULL one |
| ConnectionCheck.DeadlinesCanBeRequired | migrations/model_gateway/0009_model_check_deadline.py:12-18 | The deadline constraint can be added if and only if no check was ever started without one |
| ConnectionCheck.DeadlinesAfterConstraint | migrations/model_gateway/0009_model_check_deadline.py:14-18 | Once the constraint stands every attempted check has a deadline after its start |
| ConnectionCheck.MissingDeadlineSlipsThrough | migrations/model_gateway/0002_model_connection_checks.py:36-39 | Before it, a reachable running check without deadline exists, and blocks adding the constraint |
| FileReferences.AcceptedExactly | control_plane/app/shared/security/file_references.py:20-31 | Which references are accepted, character by character and part by part |
| FileReferences.NormalFormIsStable | control_plane/app/shared/security/file_references.py:20-31 | An accepted reference's normal form has the same parts, is no longer, and is accepted unchanged |
| FileReferences.SameNormalForm | control_plane/app/shared/security/file_references.py:20-31 | Two references have one normal form exactly if they name the same parts |
| FileTree.LinksLead | control_plane/app/shared/security/file_references.py:62-66 | A link leads where its target leads, from the anchor or from its own directory, and `..` to the directory above |
| FileTree.ResolutionIsCanonical | control_plane/app/shared/security/file_references.py:62-66 | Whatever links a path goes through, its strict resolution is free of links and `..` |
| FileTree.LookUpOfCanonical | control_plane/app/shared/security/file_references.py:69-70 | A canonical path resolves to itself and is looked up without following anything |
| BoundedFile.IdentitiesByFields | control_plane/app/shared/security/file_references.py:34-50 | Which fields make two objects the same, the same unchanged, and alike in a reference chain |
| BoundedFile.ReferenceChain | control_plane/app/shared/security/file_references.py:42-50 | One entry per component, each as the component looked at some instant of the walk; at rest the chain of the snapshot, or a failure exactly where a component is missing |
| BoundedRead.OpenDirectories | control_plane/app/shared/security/file_references.py:77-91 | Whatever others do, each name was opened in what the name before led to, through no link, and the identity noted was the opened object's; at rest this reaches the object the path names |
| BoundedRead.ReadChunks | control_plane/app/shared/security/file_references.py:101-108 | Terminates; at most one byte over the bound is read; each byte was at its place at some instant of the read; at rest the result is the whole content |
| BoundedRead.SteadyAcross | control_plane/app/shared/security/file_references.py:98-111 | Equal content identities at first and last examination, and equal sizes, make the bytes the content at every instant between |
| BoundedRead.ReadBoundedFile | control_plane/app/shared/security/file_references.py:53-125 | Under every concurrent history: at most one byte over the bound is read; for returned bytes, root and reference resolved to the same places before and after, the candidate inside the root was opened name by name without links, through the very root examined before, and each name still leads to the same identity, each byte stood in the opened file at some instant, and the bytes are its whole content throughout when writes show; with nobody else active the result, failures included, is that of the simple form |
| Recovery.ExitsStayTruthful | control_plane/tools/recovery.py:150-320 | Whatever other sessions do later, and however a commit in doubt ends, what the exit said stays true |
| Recovery.RuledOutForGood | control_plane/tools/recovery.py:96-106 | A transaction that can no longer commit never does, whatever other sessions do |
| Recovery.RecordedForGood | control_plane/tools/recovery.py:77-93 | A credential recorded for the command is the one that stays |
| Recovery.Connect | control_plane/tools/recovery.py:185-224 | However connecting, executing, printing, committing, rolling back or closing raise, an unrequested commit is ruled out and a requested one is preceded by its printed password |
| Recovery.Settle | control_plane/tools/recovery.py:225-262 | After a raising commit: if no further call raises, a recorded printed password counts as delivered, an aborted transaction with nothing recorded exits 4 with FAILED, and the outcome is unknown only while in doubt or with another password recorded; under any faults it goes on only with the printed password recorded |
| Recovery.RecordDenial | control_plane/tools/recovery.py:109-147 | Exit 3 only with a recorded denial, exit 4 otherwise, and the evidence says which; without faults exactly the denial and its line |
| Recovery.CompleteTickets | control_plane/tools/recovery.py:310-319 | Tickets are completed in order, a prefix of them if one raises, all of them if none does |
| Recovery.Conclude | control_plane/tools/recovery.py:225-320 | From the end of the connection to the exit, for a commit that raised and for one that did not |
| Recovery.RecoverSuperAdmin | control_plane/tools/recovery.py:150-320 | Under every schedule of faults a non-zero exit means that this run's change has not committed and never will, and that a credential is recorded exactly if one was at the start or another session recorded one; SUCCESS means the recorded credential was printed; when only the commit raised, the exit is the one its outcome calls for; without faults the run is a refusal with exit 3 or line for line a success, every ticket completed |
| Recovery.ReplayThatFails | control_plane/tools/recovery.py:185-224 | Call by call, the run of a repeated command whose report of the attempt raises: it rolls back and exits 4, truthfully, while the credential of the first run stays recorded |
| Recovery.FailedReportsKeepRecords | control_plane/tools/recovery.py:203-224 | Every such run keeps what was recorded and leaves nothing that could still commit |

## Left out

- Transactions as one step: lock waits, deadlocks and isolation anomalies inside a transaction are not modelled; the locked re-read of an attempt in `accept_workflow_event` always finds what the first read found.
- The timestamp columns that no property needs (`updated_at` of commands and runs) and the CHECKs on them, and length limits on texts.
- Counters returned by the dispatch and reconcile loops, and their refusal of a non-positive limit; a loop iteration is a step of its own, so that other workers interleave between iterations.
- WorkflowRuns.StepKeepsInv: the claim step may take any set of eligible rows; `WorkflowRuns.SelectionIsEnabled` shows that ORDER BY, LIMIT and SKIP LOCKED choose one of these sets.
- `start_run` beyond the facts it writes: definition, context and policy checks.
- The idempotency wrapper around start, cancel and resume; `Idempotency` treats the shared engine on its own, and the agent module's own variant (`application/idempotency.py`) is not part of this model.
- ResumeProtection.ResumesAreProtected: assumes that the Requirement connection survives until the agent transaction has committed; whether the assignee is eligible is a free answer of the guard step.
- RequirementContext.Context: identifiers are already parsed, so malformed UUIDs and types, reported as invalid owner data, do not occur.
- Cookies in replayed responses, and the callback that tells a caller about its claim.
- JSON, HMAC and authenticated encryption are parameters with the laws named under Assumptions.
- BoundedRead.ReadBoundedFile: one path call (resolve, stat, lstat, open) sees one instant, while a read does not; access rights are not modelled, an unreadable object counts as missing; links are followed up to a fixed number; the root is an absolute path.
- `FileSecretReferenceReader`, which decodes what the reader returns.
- Recovery.RecoverSuperAdmin: argument parsing, start-up of the engine, exceptions outside `Exception` such as an interrupt, and the final `reconcile_pending` call.
- ConnectionCheck.CheckTable.Execute: the observation columns that migrations 0003 to 0005 and 0010 add, with their shape constraint, are not modelled; check kinds of 0003 to 0005 come in one step, and 0010 is not part of this model.
- The run listing and its cursor, business context status, and waiting input views: read-only queries without interleaving.
- `bootstrap_admin.py`, HTTP routing, role grants, and the requirement, source control, authorization and identity modules.
