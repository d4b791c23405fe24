# A verified model of the incident executor

The repository carries out one thing on live infrastructure: an authorized traffic shift of a Cloud Run
service, decided by a policy gate or a person, executed by a separate identity, and closed only on what
that identity sees for itself. This project models that path in Dafny and proves what it promises.

Verify with `dafny verify dfyconfig.toml`.

## The main core: the fenced execution protocol

`Protocol` is a state machine over one `World`: decisions, approvals, incident statuses, execution
records, authorization bindings, live services with their `resourceVersion`s, any number of `/execute`
requests (`Worker`) and `/terminalize` requests (`Closer`), and the history of what was applied, sighted,
cleared for mutation and closed. One action is one Firestore transaction, one read, one probe, or one message. Every
transaction reads a clock of its own, and nothing relates one reading to another. A PUT is split into
sending it, the server taking or rejecting it, and the answer; a request can die at any point, and a lost
answer is an exception, as in the source. Operators edit services, people rule on approvals, decisions are
revoked, incidents move, and new requests arrive at any time. Requests may share one owner string.

What is assumed of the outside world, and of nothing else: the server takes a PUT only if the version
matches, leaves the rest of the document as sent, and gives every accepted write a version it has not
used before for that service; a 409 answers only a rejected PUT and a success only one that was taken.

`Invariant` states what every reachable world satisfies: who holds which epoch, what a current holder
knows about its record, and which requests have a PUT out. `Preservation`, `RequestSteps` and `OtherSteps`
show that each action keeps it, `Safety` that every reachable world has it, and `Theorems` draws the
consequences. `Progress` shows that interrupted executions can be recovered and closed, that a repaired
incident resolves, and that an authorized shift happens when nothing prevents it; there too every step has
its own clock, and all that is asked is that the writes fall within a lease.

`Execution` is the store: each operation as a function of the documents it reads, a class whose methods
are proved equal to those functions, and theorems over every history of operations. `Executor` is
`/execute` and `/terminalize` as straight-line programs over that class, with the proof that on every
path, whatever the server does, they make a run of the protocol with nobody else's steps in it, on exactly
the clock readings and observations they were given (`Traces` follows one request step by step, `Runs` puts
runs together).

## The other components

- `CloudRun`: the replacement document and the compare-and-set. `Traffic`: reading live traffic and the
  candidate. `Authority`: validation of a decision and its approval. `Ids`: the identities.
- `Chain` and `Repository`: the audit chain, and the incident whose status and audit record commit
  together. `Lifecycle`: the status table. `Routes`: `path_to` over any table.
- `Policy` and `Values`: the gate and its treatment of evidence. `Health` and `HealthBody`: the health reader.
  `Additions`: what adding to a document can do to its verdict.

SHA-256 and canonical JSON are parameters. Where a statement needs the hash to be injective it says
instead "or here is an explicit collision", so it holds of any hash; `TailPinsTheTrail` also takes the
canonical form to be injective and the hash to have a fixed length.

## Where code and comments disagree

- `src/scf/app/executor.py:318-323` promises of a human-approved revision that it passes while it is still
  addressable and still healthy, "whatever tag carries it". The code lets the first `known-good` entry decide
  alone. `ApprovedTargetPassesExactly` is the exact condition: nobody holds the tag, or its first holder is
  the approved revision and has a URL. It fails with the tag on another revision
  (`TagOnAnotherRevisionBlocksAnApprovedShift`) and with the tag on an entry of the approved revision that
  has no URL (`TagWithoutUrlBlocksAnApprovedShift`).
- `append_audit` does not check what it is given, so an entry `state_transition` with `from` and `to` would
  read as a change of status that never happened (`ForgedEntryIsNotAccounted`). No caller appends one;
  `AppendsAreAccountedUnlessReserved` is the exact condition for one append, `EveryRunIsAccounted` for whole
  runs.
- An execution of a human-approved decision can be recovered and closed only while its approval has not
  expired, because both endpoints validate again: `ValidWhileApproved` is the exact condition.
- Joined identities are injective exactly for fields without `|` (`JoinIdentifiesExactlyBarFreeFields`).
- The states `/execute` hands to `advance` would let MUTATED be demoted (`TheStoreAloneWouldDemote`); that it
  never is rests on the whole protocol (`EveryMoveIsAllowed`).

## Model

| member | source | states |
|---|---|---|
| Theorems.OneFingerprintOnePut | src/scf/app/executor.py:467-490 | Of all requests with one fingerprint or one execution, at most one ever has a PUT in flight or applied |
| Theorems.AtMostOneEffect | src/scf/app/executor.py:622-660 | No two PUTs ever applied share a fingerprint or an execution, over every interleaving |
| Theorems.EveryMoveIsAllowed | src/scf/app/executor.py:104-131 | Every action moves every record within a fixed table: MUTATED only to VERIFIED by a close, MUTATION_REQUESTED only to MUTATED or, by its own 409, to PRECONDITION_CHECKED; finished records never change |
| Theorems.WritesRecordWhatTheyMean | src/scf/app/executor.py:537-941 | Each write of a request, when it gets through, records the state it stands for, from the state it expects, and only reconciliation says whose effect it was |
| Theorems.RecordsStartClaimed | src/scf/state/execution_store.py:163-181 | A record appears only by a claim, CLAIMED and under epoch 1, and says what its request's decision says |
| Theorems.TheStoreAloneWouldDemote | src/scf/app/executor.py:104-109 | The store with PRE_MUTATION_STATES accepts the demotion of a live MUTATED record |
| Theorems.TheHolderIsRight | src/scf/app/executor.py:531-544 | While an epoch is current and its record unfinished, the record is in the state its holder last read or wrote |
| Theorems.HoldersHaveTheirOwnEpochs | src/scf/app/executor.py:99 | Two requests holding one execution never bear one epoch, even under one owner string |
| Theorems.MutatedStands | src/scf/app/executor.py:622-660 | From MUTATED on, a record is MUTATED or VERIFIED in every continuation, and VERIFIED is final |
| Theorems.RecordsOverARun | src/scf/state/execution_store.py:279-388 | Along every run a record keeps its claim, its epoch never falls, finished records stay equal, and a disclaimer is never withdrawn |
| Theorems.DisclaimersHoldForever | src/scf/app/executor.py:592-602 | Once a record says its effect predates it, it says so for good, and its execution has applied no PUT and never will |
| Theorems.StaleNeverActs | src/scf/app/executor.py:662-686 | A STALE execution has applied nothing, has nothing in flight, and stays so in every continuation |
| Theorems.EveryEffectIsSanctioned | src/scf/app/executor.py:188-303 | Every applied PUT belongs to a stored decision unrevoked when validated, automatic or covered by a standing approval with its fingerprint that was unexpired then, and changes only traffic, to its authorized revision |
| Theorems.EveryEffectWasCleared | src/scf/app/executor.py:565-712 | Every applied PUT comes from a request that saw traffic where its decision expects it and not yet on the authorized revision, and that revision offered under a URL that answered 200 with a healthy body |
| Theorems.EveryEffectWasRuledOn | src/scf/state/firestore_repo.py:364-404 | Behind every applied PUT of a decision that is not automatic stands an action of the run that ruled its very approval APPROVED, while it was PENDING and unexpired, for this fingerprint |
| Theorems.ApprovedWasRuled | src/scf/state/firestore_repo.py:364-404 | Along every run an approval is APPROVED only by such a ruling, and records who ruled and when |
| Theorems.NoEditIsOverwritten | src/scf/app/executor.py:760-797 | When a PUT is applied, the live document is exactly the snapshot the request had read |
| Theorems.MutatedIsEvidenced | src/scf/app/executor.py:572-602 | MUTATED or VERIFIED rests on an applied PUT of its own or on a sighting of the authorized revision with all traffic |
| Theorems.VerifiedIsEvidenced | src/scf/app/executor.py:1075-1134 | VERIFIED also rests on an observation of the authorized revision alone with all traffic, answering 200 with a healthy body |
| Theorems.EchoesAreTerminal | src/scf/app/executor.py:1045-1068 | In every reachable world, whoever asks again about a VERIFIED execution is echoed a terminal receipt |
| Theorems.ResolvedIsVerified | src/scf/app/main.py:1447-1549 | A RESOLVED incident was closed on its own decision, whose execution is VERIFIED on evidence and stays so in every continuation |
| Theorems.ResolvedWasVerified | src/scf/app/main.py:1447-1549 | Along every run an incident is RESOLVED only by an action on a verdict RECOVERED with a healthy answer, the right revision and all traffic, and on a terminal receipt |
| Theorems.RepliesAreTrue | src/scf/app/executor.py:505-990 | Every answer of /execute is true when given: a reported mutation was applied, a reconciliation or any refusal but OUTCOME_UNKNOWN comes from a request that applied nothing |
| Safety.StepKeepsInv | src/scf/app/executor.py:384-1134 | Every enabled action keeps the invariant |
| Safety.RunKeepsInv | src/scf/app/executor.py:384-1134 | So does every run |
| Safety.EveryReachableWorldHasInv | src/scf/app/executor.py:384-1134 | The invariant holds of every world reachable from an empty one |
| Preservation.OneStepKeepsInv | src/scf/app/executor.py:384-990 | A step that changes one request and at most its own record keeps the invariant if it spares the other requests |
| RequestSteps.WorkKeepsInv | src/scf/app/executor.py:384-990 | Every step of a request keeps the invariant |
| RequestSteps.ReconcilingIsSafe | src/scf/app/executor.py:572-607 | The reconciling write leaves no request with a PUT out behind a disclaimer |
| RequestSteps.StaleIsSafe | src/scf/app/executor.py:662-686 | STALE is written only where no request on the execution has a PUT out |
| RequestSteps.CheckingIsSafe | src/scf/app/executor.py:726-735 | PRECONDITION_CHECKED is written only where no other request on the execution has a PUT out |
| RequestSteps.RequestingIsSafe | src/scf/app/executor.py:784-793 | When the intent is recorded, no other request on the execution has a PUT out |
| RequestSteps.RewindingIsSafe | src/scf/app/executor.py:802-824 | The rewind after a 409 is made by the only request that was engaged |
| RequestSteps.RecordingIsSafe | src/scf/app/executor.py:903-941 | MUTATED is recorded over MUTATION_REQUESTED only for an applied PUT |
| RequestSteps.ClaimantStaysOk | src/scf/app/executor.py:492-533 | A claimant bears the newest epoch and carries away what the record says |
| OtherSteps.TakenIsLawful | src/scf/executor/cloud_run.py:154-204 | A PUT the server takes was built from the document it replaces |
| OtherSteps.TakingKeepsInv | src/scf/executor/cloud_run.py:154-204 | The server taking a PUT keeps the invariant, whether or not its sender is still alive |
| OtherSteps.EditingKeepsInv | src/scf/app/executor.py:760-771 | So does any operator edit at any time |
| OtherSteps.ClosingKeepsInv | src/scf/state/execution_store.py:342-388 | So does the closing write, racing with any request |
| OtherSteps.EchoesAreEarned | src/scf/app/executor.py:1039-1068 | Only the record of a VERIFIED execution is echoed as a terminal receipt; EchoesAreTerminal is the converse |
| OtherSteps.EchoesTellTheRecord | src/scf/app/executor.py:1045-1068 | An echo vouches for exclusive service exactly as the stored evidence does |
| OtherSteps.ReceiptsTellTheOutcome | src/scf/app/executor.py:1107-1134 | The receipt of a closing write is verified exactly if the record is then finished, and says its state |
| OtherSteps.ResolvingKeepsInv | src/scf/app/main.py:1518-1549 | Resolving on a terminal receipt keeps every RESOLVED incident backed by a VERIFIED execution |
| Progress.RecoveryCompletes | src/scf/app/executor.py:565-620 | From every reachable unfinished record whose decision still validates at both clocks, lease lapsed and revision alone and healthy, with a separate clock for each step and the write within the lease: one undisturbed /execute records MUTATED without a PUT under the next epoch, and one /terminalize records VERIFIED with a terminal receipt |
| Progress.ReconciliationGoes | src/scf/app/executor.py:572-620 | The reconciling run moves one record, applies nothing, and credits authorship as the record warrants |
| Progress.ClosingGoesThrough | src/scf/app/executor.py:1075-1134 | The closing run moves that record to VERIFIED and issues the terminal receipt |
| Progress.EchoGoesThrough | src/scf/app/executor.py:1045-1068 | A /terminalize on a VERIFIED execution issues the terminal receipt again and changes nothing else |
| Progress.RepairedIncidentResolves | src/scf/app/main.py:1518-1549 | From every reachable world where a decision that still validates is VERIFIED and its incident may resolve, one undisturbed /terminalize and one resolution close the incident, moving no record and applying nothing |
| Progress.ValidWhileApproved | src/scf/app/executor.py:188-283 | A decision with a record validates again exactly while it is not revoked and is automatic or has its approval unexpired |
| Progress.AuthorizedShiftHappens | src/scf/app/executor.py:688-990 | With a clock of its own at each step, an admitted, untried, favourable decision is carried out by one undisturbed request whose PUT is taken and answered: one PUT applied, record MUTATED, also when the lease lapses during the PUT and has to be taken again |
| Protocol.Work | src/scf/app/executor.py:384-990 | A request's step changes no other request and no service |
| Protocol.BranchesExactly | src/scf/app/executor.py:565-712 | Each of the five branches after the observation is taken exactly under its own condition: live, attempted before, traffic moved, target not offered healthily, or none of these |
| Executor.ExecutorService.Execute | src/scf/app/executor.py:384-990 | On every path, for every server behaviour, /execute makes a run of the protocol that is its own request's alone and takes at each step the clock and observation given for it. It sends a PUT only if the given observation clears its decision; it ends with its answer, which tells what was heard of the PUT, or with an exception, for which one of four causes is there |
| Executor.ExecutorService.Pursue | src/scf/app/executor.py:467-990 | The same from a passed validation on |
| Executor.ExecutorService.Act | src/scf/app/executor.py:492-990 | The same from the claim on, whatever record the claim came back with |
| Executor.ExecutorService.Engage | src/scf/app/executor.py:555-990 | The same from the observation on: nothing is mutated unless the given observation clears the decision |
| Executor.ExecutorService.Admit | src/scf/app/executor.py:406-418 | The refusals are exactly a missing decision, a missing incident and a failed validation, in that order; the steps are the protocol's first, and the identities the decision's own |
| Executor.ExecutorService.Check | src/scf/app/executor.py:413-465 | Reading the incident and validating refuse exactly as validation does, and make the protocol's steps |
| Executor.ExecutorService.BindOnce | src/scf/app/executor.py:467-490 | It stops, with DUPLICATE_AUTHORIZATION, exactly when the fingerprint is bound to another execution, and makes the protocol's binding step |
| Executor.ExecutorService.Claim | src/scf/app/executor.py:492-533 | Outcome, record and store are those of the claim transaction at the given clock, and the request is answered as a duplicate exactly when it was refused |
| Executor.ExecutorService.Reconcile | src/scf/app/executor.py:555-712 | A live revision is recorded as MUTATED with whose effect it was; else an attempt that did not hold is reported and the lease given back; else moved traffic is recorded as STALE; else a target not offered under a healthy URL is refused and the lease given back; only else the request goes on, with the records as they are |
| Executor.ExecutorService.Adopt | src/scf/app/executor.py:572-620 | A revision that is live already is recorded by one fenced write, and the answer says whether that succeeded |
| Executor.ExecutorService.Prevent | src/scf/app/executor.py:622-712 | The same without a live revision: answer and records of each of the four cases, going on exactly if nothing was attempted, traffic is where expected and the target is offered under a URL that answered 200 with a healthy body |
| Executor.ExecutorService.Mutate | src/scf/app/executor.py:726-990 | The acting part makes such a run from the ownership write on, and leaves the services as they were or as the server left them |
| Executor.ExecutorService.Shift | src/scf/app/executor.py:795-990 | The PUT was built from the snapshot, the live document is what the server made of it, and the answer is the one that belongs to what was heard |
| Executor.ExecutorService.Confirm | src/scf/app/executor.py:726-758 | Going on means the ownership write succeeded at the given clock and the incident is still open; a closed incident releases the lease, a missing one is an exception, a failed write a refusal, in that order |
| Executor.ExecutorService.Request | src/scf/app/executor.py:760-793 | Going on means the snapshot is the live document of the target and the intent was recorded at the given clock; an unreadable service is an exception |
| Executor.ExecutorService.Flip | src/scf/app/executor.py:795-800 | The live document is what the server made of a PUT built from the snapshot, and the answer is what was heard; an unsafe snapshot is an exception and changes nothing |
| Executor.ExecutorService.Settle | src/scf/app/executor.py:802-990 | An acceptance is reported as recorded exactly when the record could be moved in time, a 409 as wound back exactly when that write succeeded, an unclear answer as unknown with the lease released, and no answer as an exception |
| Executor.ExecutorService.Rewind | src/scf/app/executor.py:802-846 | The answer says exactly whether the rewind succeeded, and only then is the lease given back |
| Executor.ExecutorService.RecordMutation | src/scf/app/executor.py:903-941 | The mutation is reported as recorded exactly when the lease was live at the write, or had lapsed and could be taken and used in time; then, and only then, the record says MUTATED |
| Executor.ExecutorService.Retake | src/scf/app/executor.py:913-941 | With a lapsed lease it is recorded exactly when the record still says MUTATION_REQUESTED, nobody holds it and the write falls within the new lease; then it stands under the next epoch |
| Executor.ExecutorService.TakeBack | src/scf/app/executor.py:913-925 | Store and new epoch are those of a claim transaction at the given clock |
| Executor.ExecutorService.WriteFenced | src/scf/app/executor.py:537-544 | Outcome and store are those of the fenced advance at the given clock, and the request goes on in one of its three ways |
| Executor.ExecutorService.GiveBack | src/scf/app/executor.py:645-660 | The store is as the release leaves it: at most the record's expiry has changed, to the given clock |
| Executor.ExecutorService.Terminalize | src/scf/app/executor.py:1000-1134 | /terminalize makes a run of the protocol that is its own alone and issues exactly its receipt. A decision that validates at the given clock has its VERIFIED execution echoed from the stored evidence and its MUTATED one closed exactly if the given observation shows the revision alone with all traffic, status 200 and a healthy body; otherwise nothing is written and nothing issued |
| Executor.ExecutorService.CloseDecision | src/scf/app/executor.py:1018-1035 | The same from the decision on: one that no longer validates leaves no trace |
| Executor.ExecutorService.CloseExecution | src/scf/app/executor.py:1036-1082 | A VERIFIED record is echoed from its own evidence, a MUTATED one closed with the evidence of the given observation if that satisfies the decision, any other refused; the closing recorded is of that observation |
| Executor.ExecutorService.CloseOnSight | src/scf/app/executor.py:1075-1134 | A MUTATED record becomes VERIFIED exactly when the given observation shows the revision alone with all traffic, status 200 and a healthy body, with its evidence, and that closing is recorded; else nothing changes |
| Executor.ExecutorService.WriteVerified | src/scf/app/executor.py:1097-1134 | Store and receipt are those of the state-gated close on the evidence given |
| Traces.SightingsAreOffered | src/scf/app/executor.py:565-607 | A request on its own records as sighted nothing but an observation it was given |
| Traces.SoloRunsStayReachable | src/scf/app/executor.py:384-990 | Such a run leads from reachable worlds to reachable ones, so every theorem holds of what /execute leaves behind |
| Executor.Region.FlipTraffic | src/scf/executor/cloud_run.py:154-204 | The live document becomes the server's if the version matched, else stays; a 409 and an unclear status are told apart, and a lost answer is an exception with the same effect |
| Execution.ExecutionStore.BindAuthorization | src/scf/state/execution_store.py:84-125 | New state and answer are those of the binding transaction |
| Execution.ExecutionStore.AcquireLease | src/scf/state/execution_store.py:127-204 | New state and answer are those of the claim transaction |
| Execution.ExecutionStore.RenewLease | src/scf/state/execution_store.py:206-242 | New state and answer are those of the renewal |
| Execution.ExecutionStore.ReleaseLease | src/scf/state/execution_store.py:244-277 | New state and answer are those of the release |
| Execution.ExecutionStore.AdvanceState | src/scf/state/execution_store.py:279-340 | New state and answer are those of the fenced advance |
| Execution.ExecutionStore.Close | src/scf/state/execution_store.py:342-388 | New state and answer are those of the state-gated close |
| Execution.EpochsRiseByOne | src/scf/state/execution_store.py:189-202 | The epochs granted along any history are consecutive, none skipped and none repeated |
| Execution.FencedWritesAreVoid | src/scf/state/execution_store.py:313-327 | After a newer epoch, deleting a write that presents an older one changes nothing, whatever its owner string |
| Execution.FinishedForever | src/scf/state/execution_store.py:184-187 | No operation of anybody changes a finished record |
| Execution.LeaseExcludes | src/scf/state/execution_store.py:189-196 | While a lease is live by every clock, only its holder's writes or a close move the record |
| Execution.OnlyALiveHolderAdvances | src/scf/state/execution_store.py:279-340 | An advance happens exactly under all five conditions together, and moves nothing else |
| Execution.WritesAreAnsweredInOrder | src/scf/state/execution_store.py:206-340 | What a write is told is the first that stands against it: absent, finished, fenced, lapsed, unexpected |
| Execution.ClaimsAreAnswered | src/scf/state/execution_store.py:127-204 | A claim starts a new record, leaves a finished or leased one as it is, and takes a lapsed one over under the next epoch with all it says |
| Execution.ClosesAreAnswered | src/scf/state/execution_store.py:342-388 | A close succeeds exactly in an expected unfinished state, whoever holds it, and leaves the record finished, free and with the evidence |
| Execution.ReleasedIsClaimable | src/scf/state/execution_store.py:244-277 | A released execution is claimable at once under the next epoch, and its former holder is fenced out |
| Execution.RenewedIsHeld | src/scf/state/execution_store.py:206-242 | A renewed lease holds everybody off for its new term |
| Execution.FirstWriterWins | src/scf/state/execution_store.py:84-125 | After any requests a bound fingerprint still names its first execution, and only that one is told SAME |
| Authority.ValidationSanctions | src/scf/app/executor.py:188-283 | Validation passes exactly for executable, unrevoked decisions that are automatic or validly approved, on open incidents |
| Authority.RefusalsAreTrue | src/scf/app/executor.py:188-283 | A refusal names the first condition that fails, in the order in which they are asked |
| Authority.ExecutionsAreTheirOwn | src/scf/app/executor.py:286-303 | Decisions with bar-free identities share an execution only if they agree on incident, action, target and decision id, or the hash collides |
| Authority.ApprovalsDoNotTravel | src/scf/app/executor.py:247-303 | One approval sanctions two bar-free authorizations only if they are the same, or the hash collides |
| CloudRun.BuildTrafficReplacement | src/scf/executor/cloud_run.py:95-151 | The step-by-step copy and edits yield the replacement document or the same error; ReplacementExists, TemplateIsPinned, OnlyTrafficIsReplaced and ReplacementShiftsTraffic say which document that is |
| CloudRun.OnlyTrafficIsReplaced | src/scf/executor/cloud_run.py:95-151 | At every path apart from the touched places, the replacement equals the snapshot |
| CloudRun.PreconditionIsTheSnapshots | src/scf/executor/cloud_run.py:87-121 | The replacement carries the snapshot's own resourceVersion |
| CloudRun.TemplateIsPinned | src/scf/executor/cloud_run.py:131-141 | The template bears the snapshot's own template name, and without one status.latestCreatedRevisionName |
| CloudRun.ReplacementExists | src/scf/executor/cloud_run.py:95-151 | There is a replacement exactly for a well-formed snapshot with a resourceVersion and one of those names; otherwise the error says what is missing |
| CloudRun.ServerFieldsAreDropped | src/scf/executor/cloud_run.py:95-121 | Status and the metadata the server stamps are not sent |
| CloudRun.ReplacementShiftsTraffic | src/scf/executor/cloud_run.py:131-151 | Only the first entry carries a percent, 100, for the revision; every tagged entry survives without its percent and nothing else is there |
| CloudRun.ReplacementKeepsTagsInOrder | src/scf/executor/cloud_run.py:131-151 | Behind it stand exactly the tagged entries, in their order and number |
| CloudRun.TakenReplacementChangesOnlyTraffic | src/scf/executor/cloud_run.py:154-204 | A replacement taken over the document it was built from changes nothing desired but the traffic |
| Traffic.BaseNameIsLastPart | src/scf/executor/cloud_run.py:165 | The name sent is what follows the last slash, or the whole name |
| Traffic.TrafficAllocation | src/scf/tools/cloud_run_evidence.py:71-86 | The loop yields the allocation of the entries |
| Traffic.AllocationIsShares | src/scf/tools/cloud_run_evidence.py:71-86 | A revision is listed exactly when its positive entries add up to something, with that sum |
| Traffic.ExclusiveMeansAllOfIt | src/scf/tools/cloud_run_evidence.py:89-91 | Exclusive service means every entry with traffic is the revision's and they add up to 100 |
| Traffic.ActiveTakesAll | src/scf/app/executor.py:325-327 | The active revision takes exactly 100, and an exclusively served one is active |
| Traffic.ActiveIsFirstAtFull | src/scf/app/executor.py:325-327 | The active revision is the first to appear with exactly 100, and there is none only if no revision has that |
| Traffic.FindCandidate | src/scf/app/executor.py:329-352 | The loop finds the first known-good entry, else the last addressable entry of the authorized revision |
| Traffic.CandidateIsExactly | src/scf/app/executor.py:329-352 | The URL probed is that of the first known-good entry, else of the last entry of the authorized revision with a URL, for a human-approved shift only |
| Traffic.CandidateIsAuthorized | src/scf/app/executor.py:329-379 | Exactly when the candidate is the authorized revision |
| Traffic.TargetIsFresh | src/scf/app/executor.py:318-379 | The freshness check passes exactly when the target's own URL answered 200 with a healthy body and the first known-good entry is the target's with a URL, or nobody holds the tag and a human-approved target has an entry with a URL |
| Traffic.ApprovedTargetPassesExactly | src/scf/app/executor.py:318-379 | An approved revision that is addressable and healthy passes exactly when nobody holds known-good or its first holder is that revision and has a URL |
| Traffic.UntaggedRollbackIsRefused | src/scf/app/executor.py:329-379 | Without the tag every automatic rollback is refused, whatever answers healthily |
| Traffic.TagOnAnotherRevisionBlocksAnApprovedShift | src/scf/app/executor.py:318-379 | An input on which a tag elsewhere makes the check refuse an approved, addressable revision, whatever the probes say |
| Traffic.TagWithoutUrlBlocksAnApprovedShift | src/scf/app/executor.py:318-379 | So does an input on which the approved revision's own tagged entry has no URL |
| Ids.JoinIdentifiesExactlyBarFreeFields | src/scf/domain/ids.py:38-100 | Joined fields identify the list exactly when no field holds a bar |
| Ids.ExecutionIdIsFaithful | src/scf/domain/ids.py:38-59 | Equal execution ids of bar-free identities mean equal identities or a collision |
| Ids.FingerprintIsFaithful | src/scf/domain/ids.py:68-100 | Equal fingerprints of bar-free authorizations mean equal authorizations or a collision |
| Chain.VerifyChain | src/scf/audit/chain.py:69-101 | Accepts exactly the linked trails, and otherwise names the first faulty record and its first fault |
| Chain.LinkedExactly | src/scf/audit/chain.py:69-101 | A trail is linked exactly when every record is numbered in place, names its predecessor, and carries the hash of that and its content |
| Chain.FaultsInOrder | src/scf/audit/chain.py:69-101 | The fault named is the first of the three that is there |
| Chain.VerifyIncidentChain | src/scf/audit/chain.py:104-157 | Accepts exactly the linked trails of the recorded length and tail, and otherwise names the check that failed: a fault in the chain, the length, or the tail |
| Chain.TailPinsTheTrail | src/scf/audit/chain.py:104-157 | Two accepted trails with one sequence number and tail agree in every field of every record, or a collision is at hand |
| Chain.LinksAgree | src/scf/domain/ids.py:103-108 | Equal chain hashes over equally long previous hashes commit to the same record |
| Repository.IncidentRepository.Create | src/scf/state/firestore_repo.py:86-98 | An existing incident is left alone; a new one starts at INTAKE with its first audit record |
| Repository.IncidentRepository.Commit | src/scf/state/firestore_repo.py:100-149 | Status, slot, record and tail move together or not at all |
| Repository.CommitsSayTheirEntry | src/scf/state/firestore_repo.py:100-149 | The one record a commit adds is numbered next, chained to the tail, and says actor, identity, event, payload, trace and time of its entry; earlier records stay |
| Repository.IncidentRepository.AppendAudit | src/scf/state/firestore_repo.py:151-179 | An append grows the trail and keeps the status |
| Repository.IncidentRepository.Transition | src/scf/state/firestore_repo.py:181-213 | A legal transition changes status and trail together; an illegal one changes nothing |
| Repository.IncidentRepository.CreateApproval | src/scf/state/firestore_repo.py:307-356 | A colliding approval id fails and changes nothing; a new one is PENDING with its fingerprint and expiry and is audited, or fails for want of an incident |
| Repository.IncidentRepository.DecideApproval | src/scf/state/firestore_repo.py:364-404 | A pending unexpired approval afterwards has exactly the given state, time and approver, a pending expired one is EXPIRED as of now, and any other stays as it is; subject and expiry never change |
| Repository.CommitGrowsTheTrail | src/scf/state/firestore_repo.py:100-149 | Every commit extends the verified trail by exactly one record |
| Repository.TransitionsAreAccounted | src/scf/state/firestore_repo.py:181-213 | A transition keeps the trail replaying to the stored status |
| Repository.AppendsAreAccountedUnlessReserved | src/scf/state/firestore_repo.py:151-179 | An append keeps them in step exactly when it does not pose as a transition |
| Repository.EveryRunIsAccounted | src/scf/state/firestore_repo.py:86-213 | Along any interleaving every stored trail verifies and replays to a legal history ending at the stored status, all the way, exactly when no append to an existing incident reads as a status change |
| Repository.ForgedEntryIsNotAccounted | src/scf/state/firestore_repo.py:151-179 | An entry that append_audit takes and after which trail and status disagree |
| Repository.EveryTrailIsOrderly | src/scf/domain/state_machine.py:17-69 | When nothing was forged, each trail shows EXECUTING at most once and only when authorized, and only verification repeating |
| Repository.ApprovalsAreDecidedOnce | src/scf/state/firestore_repo.py:364-404 | An approval that left PENDING is never rewritten, and its subject and expiry never change |
| Lifecycle.HistoriesAreOrderly | src/scf/domain/state_machine.py:17-69 | In every legal history only VERIFYING and REMEDIATION_FAILED recur, EXECUTING follows AUTO_ALLOWED or APPROVED once, RESOLVED follows VERIFYING, closed is last |
| Lifecycle.EveryStatusFollowsOnItsGrounds | src/scf/domain/state_machine.py:17-69 | For each status exactly which statuses it may follow |
| Lifecycle.EveryOpenIncidentCanEscalate | src/scf/domain/state_machine.py:17-98 | Every open status can be escalated within two legal steps without passing an assertion state |
| Routes.PathTo | src/scf/domain/state_machine.py:100-135 | On any table the search ends with a shortest admissible route, empty exactly when source is target or none exists |
| Routes.WalksMeetTheFrontier | src/scf/domain/state_machine.py:116-135 | Every permitted walk meets the frontier of the search no later than it gets there |
| Policy.TrustedEvidenceConflicts | src/scf/policy/engine.py:28-45 | One pass finds exactly the keys with two differing trusted values |
| Policy.GateMeaning | src/scf/policy/engine.py:77-149 | The gate opens exactly when every trusted assertion of every required key satisfies it, and reports contradiction exactly on a dispute |
| Policy.VerdictIgnoresOrderAndUntrusted | src/scf/policy/engine.py:77-149 | Order, repetition and untrusted items change neither decision, reason nor role |
| Policy.PermutingAndPaddingChangesNothing | src/scf/policy/engine.py:77-149 | In particular no permutation with untrusted items inserted does |
| Policy.PermissionNeedsExactEvidence | src/scf/policy/engine.py:48-149 | Nothing is permitted but a registered target, by the default where no rule fits or by the first rule that fits with every trusted occurrence of each required key satisfying it type-exactly |
| Policy.UnregisteredTargetsAreDenied | src/scf/policy/engine.py:105-111 | An unregistered target is DENIED as UNKNOWN_TARGET |
| Policy.DefaultDecidesWhereNothingFits | src/scf/policy/engine.py:113-119 | Where no rule fits, the verdict is the policy's default decision and reason |
| Policy.FirstFitDecides | src/scf/policy/engine.py:121-149 | Where a rule is the first that fits, a disputed required key denies as contradictory, else an unmet one as missing, and otherwise the rule's decision, reason and role stand |
| Policy.SnapshotHoldsLastValues | src/scf/policy/engine.py:12-25 | The snapshot holds the last trusted value of each key |
| Policy.BooleansSatisfyOnlyThemselves | src/scf/policy/engine.py:48-74 | A boolean satisfies, and is satisfied by, only itself, although it equals a number |
| Policy.FirstFittingRule | src/scf/policy/loader.py:58-64 | The deciding rule is the first that fits |
| Health.ObjectPairs | src/scf/tools/cloud_run_evidence.py:191-201 | The hook keeps last values and marks contradicted names |
| Health.CollapseMeaning | src/scf/tools/cloud_run_evidence.py:191-201 | After it, a name holds its last value and the marker lists exactly the names with differing values |
| Health.ContradictionsAreDisagreements | src/scf/tools/cloud_run_evidence.py:178-201 | Comparing with the previous value finds exactly the names whose occurrences disagree |
| Health.CollectHealthVerdicts | src/scf/tools/cloud_run_evidence.py:204-263 | The recursive collection yields the verdicts of the tree |
| Health.ReadsExactly | src/scf/tools/cloud_run_evidence.py:204-263 | A tree reads healthy exactly when some node asserts health and no node at any depth is pessimistic |
| Health.LoneFieldDecides | src/scf/tools/cloud_run_evidence.py:168-169 | A lone field reads healthy exactly if it says true under one of the six health keys |
| Health.SomeNodeIsAtAPath | src/scf/tools/cloud_run_evidence.py:204-263 | "Some node" means a node at the end of a path of child positions |
| Additions.ComplainedBodiesStayUnhealthy | src/scf/tools/cloud_run_evidence.py:378-395 | No addition of fields or items makes a body healthy that carries a complaint |
| Additions.SilenceCanBeFilled | src/scf/tools/cloud_run_evidence.py:247-257 | A parsed body can be added to until it reads healthy exactly if it is a container, carries no complaint, and every health key answered by a silent container leaves room for an assertion within the depth limit |
| Health.DeepBodiesAreUnhealthy | src/scf/tools/cloud_run_evidence.py:204-220 | Whatever is nested more than twenty levels deep spoils the body |
| Health.SelfContradictionSpoilsTheBody | src/scf/tools/cloud_run_evidence.py:191-240 | A health key given twice with different values spoils every body its object survives in |
| Health.LoadReachesObjects | src/scf/tools/cloud_run_evidence.py:191-201 | Of every loaded object a name holds its loaded last value and is marked if its values disagree |
| HealthBody.StripPrefixes | src/scf/tools/cloud_run_evidence.py:353-361 | The unbounded loop ends at a suffix that it can no longer shorten |
| HealthBody.LayersComeOff | src/scf/tools/cloud_run_evidence.py:353-361 | Any finite pile of guards, BOMs and whitespace comes off exactly |
| HealthBody.BodyIsHealthy | src/scf/tools/cloud_run_evidence.py:312-402 | The reader computes the verdict defined on size, stripped text and structure |
| HealthBody.DocumentsAreReadStructurally | src/scf/tools/cloud_run_evidence.py:312-402 | Behind any such pile a document is healthy exactly when it parses, asserts health somewhere and is pessimistic nowhere |
| HealthBody.BodiesAreReadExactly | src/scf/tools/cloud_run_evidence.py:312-402 | How every body is read: unhealthy if too long or blank, by structure if it parses to something, and by words only if it neither parses nor starts like a document |

## Left out

- Audit payloads: each member's value stands as its canonical JSON text, in which a status is its quoted name.
- EveryEffectIsSanctioned: an approval is required to be unexpired when validated, not when the PUT lands, because nothing in the source relates the two.
- That the expected source revision still holds when the PUT is applied: it is observed before the snapshot is read and not compared with it.
- That no mutation lands after an incident is closed: the re-read narrows that window and does not shut it.
- Handover authorship text, wall-clock budgets, and concurrent orchestrator handlers on one incident.
- The orchestrator's walk to RESOLVED: reduced to one action that needs a recovered verdict, a terminal receipt and a legal transition; its other moves are arbitrary legal transitions. The protocol's incidents carry a status only; their audited form is `Repository`.
- HTTP, authentication, retries, logging, fault injection, tracing, the console, the agents and the screening; worker answers, probes and observations are arbitrary inputs.
- Action receipts, `claim_once`, timestamps and notes in records: written and never read back by this path. Of the extra fields of an advance only `effect_predates_execution` is kept.
- Interleaving inside `Executor`: its programs run alone against the stores; interleaving is the protocol's, whose steps they are proved to make.
- ISO timestamps are integers; a missing field and an empty or falsy one are one value where the source reads them alike.
- Word-level health matching and the JSON parser are parameters; JSON numbers are reals, without NaN or infinities.
- SHA-256 and canonical JSON are parameters; the evidence snapshot in a policy verdict stands for its hash.
- Sets that Python iterates in sorted order are sequences in that order.
- The text fields of decisions, evidence and incidents that no branch reads.
