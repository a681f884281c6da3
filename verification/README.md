# The AgentTeams bridge and its evidence, verified

This project models the durable bridge between EgoAgentOS and AgentTeams, the
independent verifier of the evidence that the bridge produces, and the small
machines around them, and proves properties of the models.  Check the proofs
with `dafny verify dfyconfig.toml` (Dafny 4.11).

**The bridge as a transition system** (`RunStore`, `RunHistory`, `Knowledge`,
`BridgeService`, `TaskIds`, `TaskGraph`).  The run store is an object with its
tables as fields; each of its methods is one transaction and is tied to a
specification of what the transaction does to the tables.  The store keeps a
ghost history of all transactions.  The orchestration is an object whose methods
rebind the local run step by step, as the original does.  Before every
transaction `Interference` lets any number of other bridge processes act, and
every call to AgentTeams, Matrix or EgoAgentOS may answer anything or fail.  Each
operation is proved to extend a *good* history to a good one by steps that carry
its own owner id only, which is what `Interference` assumes of the others; since a claim
about all states of all good histories also covers a process that stops between
any two transactions, crashes need no extra case.  Within this system no run
executes without a committed grant or completes without a committed
finalization, committed facts stay, task graphs stay sound, reassignment
terminates, and leases fence.  "Committed" is more than a flag: the consumptions of
approval tokens are part of the history, an update may commit a grant only after
its own author consumed the run's token, and a project or finalization only with
its receipt in the run's ledger.

One property that the program aims at is false as it stands and is proved with its
exact condition.  The comment at `apps/agentteams_bridge/service.py:2244` says that
the grant is persisted at once because the token is consumed, and line 2344 tells
the operator that the token is not reused.  Yet a process that stalls between its
renewal and its request can consume the token after another one has stored the
grant, because the call to EgoAgentOS is not itself a store transaction.
`ExpiredLeaseCanBeOvertaken` takes the other process through every step of the
grant, `ConsumptionAfterGrantExists` gives a whole history from the creation of a
run, and `ConsumptionSafeExactlyBeforeExpiry` shows that the property holds against
all behaviours of the others if and only if the request falls before the lease
expires.

A second one is narrower than it looks: a Skill whose manifest declares the canary
state has no percentage until one is set.  `PercentNeverMissingIff` says exactly
when routing a name is affected, and `CanaryManifestIsNotRouted` gives the registry
that shows it.

**Ledgers and their verifier** (`HashChain`, `LedgerVerifier`, `TraceVerifier`,
`TraceAttestation`, `TraceSoundness`, `Scenario`).  The digest is a free
constructor: equal digests have equal preimages, and no preimage digests to the
genesis value.  The verifier loops are proved equivalent to declarative acceptance, the exported ledgers of
all good histories are shown to be accepted, and accepted traces to mean what
they claim.  The three scenario tables of verifier, oracle and release gate are
proved to agree.

**The extension stream** (`Extension`, `ExtensionHistory`, `ExtensionStore`).
Admission rules, idempotent replay and the lease and evaluator tables, with causal
closure after every sequence of calls.

**Arithmetic and small machines** (`Statistics`, `RawMetrics`, `SkillRegistry`,
`EventStream`, with `Reals`, `Sequences`, `Decimal`, `Texts` and `Wrappers` below them).

The clock is a nondecreasing input.  Owner ids of claims and ids of new envelopes
are fresh, as random ids are.  JSON payloads are datatypes; floats are reals.

## Model

| member | source | states |
|---|---|---|
| `RunStore.OnlyUpdateRewritesRuns` | apps/agentteams_bridge/store.py:631-803 | A transaction moves the stored lease only if it is a claim, a renewal or a release; whatever else of a row changes is an accepted update's doing, which raises the version by one; id and header columns never change. |
| `RunStore.EveryStepIsARowStep` | apps/agentteams_bridge/store.py:578-803 | The complete list of what any transaction can do to one run row, with the check each change rests on; a rolled-back transaction does nothing. |
| `RunStore.LeasedWriteNeedsCurrentLease` | apps/agentteams_bridge/store.py:117-168 | A renewal, update, event or receipt in an owner's name succeeds only while that owner's unexpired lease is stored; an update must also present exactly that lease and the stored version. |
| `RunStore.UnleasedWriteNeedsNoLease` | apps/agentteams_bridge/store.py:117-168 | A write in nobody's name succeeds only while no lease record is stored at all, not even an expired one. |
| `RunStore.BridgeStore.CreateRun` | apps/agentteams_bridge/store.py:578-618 | Insert a run unless its id or its AgentTeams project is taken; the transaction is logged with the state it leaves. |
| `RunStore.BridgeStore.ClaimOperation` | apps/agentteams_bridge/store.py:631-668 | Claim refuses a held or unreadable lease and otherwise stores a fresh one; success and the returned row are exactly those of the specification. |
| `RunStore.BridgeStore.RenewOperation` | apps/agentteams_bridge/store.py:694-742 | Renew replaces the caller's own unexpired lease by one of the same operation that runs from now. |
| `RunStore.BridgeStore.ReleaseOperation` | apps/agentteams_bridge/store.py:670-692 | Release removes the lease of this owner only, and fails on an unreadable one. |
| `RunStore.BridgeStore.UpdateRun` | apps/agentteams_bridge/store.py:744-803 | An accepted update stores state, graph and checkpoint under the next version; a refused one reports the specified error and stores nothing. |
| `RunStore.BridgeStore.AppendEventRow` | apps/agentteams_bridge/store.py:1667-1752 | One sealed event row is appended behind the newest row of its own run, under the lease check. |
| `RunStore.BridgeStore.ArchiveReceipt` | apps/agentteams_bridge/store.py:1807-1924 | A receipt key stores one payload: the same payload is answered with the stored row, another one is refused. |
| `RunStore.BridgeStore.Events` | apps/agentteams_bridge/store.py:1754-1788 | The read-back reports a valid chain exactly when every row is sealed and linked to its predecessor. |
| `RunStore.BridgeStore.Receipts` | apps/agentteams_bridge/store.py:1926-1959 | The same read-back for the receipt ledger, which also digests every stored payload again. |
| `HashChain.InterleavedChainsAreValid` | apps/agentteams_bridge/store.py:1667-1788 | However the inserts of many runs interleave in one table, the projection of every run is a valid chain. |
| `HashChain.AppendKeepsChains` | apps/agentteams_bridge/store.py:1692-1720 | An insert for one run keeps every run's chain, and leaves the rows of the other runs as they were. |
| `HashChain.Commitment` | apps/agentteams_bridge/store.py:1754-1788 | Two valid chains have the same head if and only if they are the same chain. |
| `HashChain.RewriteIsVisible` | apps/agentteams_bridge/store.py:1754-1788 | Replacing any row of a valid chain breaks the chain or moves its head. |
| `HashChain.Walk` | apps/agentteams_bridge/store.py:1760-1788 | The loop that recomputes digests with the previous hash in hand decides exactly the declarative chain property. |
| `RunHistory.EveryStateOk` | apps/agentteams_bridge/service.py:456-2349 | In every state of every interleaving: executing and completed runs rest on committed facts, committed facts on their receipts and consumptions, graphs are consistent, budgets respected, events belong to their run's identity and carry distinct envelope ids, ledgers are chains, receipt keys are unique. |
| `RunHistory.NoUngrantedExecution` | apps/agentteams_bridge/service.py:692-2349 | No persisted run is POST_APPROVAL without a committed grant or COMPLETED without a committed finalization, no compensation checkpoint can resume one there, and a committed project or finalization has its receipt in the run's ledger. |
| `RunHistory.GrantFollowsConsumption` | apps/agentteams_bridge/service.py:2219-2250 | Every committed grant was committed by an update whose own author had consumed the run's approval token at an earlier step. |
| `RunHistory.ExecutionFollowsConsumption` | apps/agentteams_bridge/service.py:2219-2309 | Whenever a run is POST_APPROVAL or COMPLETED, its approval token was consumed at an earlier step. |
| `RunHistory.LedgersReadBackValid` | apps/agentteams_bridge/store.py:1754-1959 | At every point of every history both ledgers of every run pass their read-back, payload digests included. |
| `RunHistory.FactsAreForever` | apps/agentteams_bridge/service.py:2238-2252 | A committed project, grant or finalization is never withdrawn by any later step of anybody, and no run returns to PROVISIONING; rows stay and headers never change. |
| `RunHistory.EveryGraphIsSound` | apps/agentteams_bridge/service.py:1174-1357 | In every reachable state: ids are unique, dependencies lead to strictly earlier stages, no logical task exceeds its limit, and each planned one has exactly reassignments + 1 attempts. |
| `RunHistory.OthersKeepMine` | apps/agentteams_bridge/store.py:117-168 | While an owner's lease is stored, no other process changes anything of the row. |
| `RunHistory.UnnamedStepsAreOthers` | apps/agentteams_bridge/service.py:109-129 | Own steps of which none carries a given owner id are, for the process with that id, steps of others; every operation's contract confines its own steps to its owner's id and to run creation. |
| `RunHistory.OthersKeepLedger` | apps/agentteams_bridge/store.py:1667-1720 | While an owner's lease is stored, nobody else writes into the event ledger of its run. |
| `RunHistory.ClaimFencesEarlierOwner` | apps/agentteams_bridge/service.py:109-129 | After another owner's successful claim no write of the earlier owner to that run ever succeeds again. |
| `RunHistory.LostForever` | apps/agentteams_bridge/service.py:109-117 | An owner id that lost a run never holds it again, because every claim brings a fresh id. |
| `RunHistory.ReassignmentsAreBounded` | apps/agentteams_bridge/service.py:1184-1195 | Each committed reassignment spends one unit of a budget of stages times limit, so a run reassigns at most that often. |
| `RunHistory.RowProtectedUntilExpiry` | apps/agentteams_bridge/store.py:99-168 | Until the lease expires, the row of a held run is exactly as its holder left it, whatever the others do. |
| `RunHistory.ConsumptionSafeExactlyBeforeExpiry` | apps/agentteams_bridge/service.py:2220-2252 | A process that has just renewed on a run at the gate and read no grant consumes the token safely against every behaviour of the others if and only if the consumption happens before its lease expires. |
| `RunHistory.ExpiredLeaseCanBeOvertaken` | apps/agentteams_bridge/service.py:2184-2252 | Once the lease has expired, there is a continuation in which a rival takes every step of the grant itself first: claim, renewal, consumption, update. |
| `RunHistory.RivalGrants` | apps/agentteams_bridge/service.py:2184-2252 | The rival's four steps are good steps from any row at the gate whose lease is gone or expired, and end in a committed grant. |
| `RunHistory.TimelyConsumptionFindsNoGrant` | apps/agentteams_bridge/service.py:2229-2235 | A consumption before the renewed lease expires finds the row that the renewal left, without a committed grant. |
| `RunHistory.OnlyLateConsumptionAfterGrant` | apps/agentteams_bridge/service.py:2219-2250 | A consumption after a committed grant is made by a process whose lease has expired and is no longer stored. |
| `RunHistory.GateIsReachable` | apps/agentteams_bridge/service.py:456-2216 | For every live header a good history leads from the creation of the run to a process that has renewed at the gate and is about to consume. |
| `RunHistory.ConsumptionAfterGrantExists` | apps/agentteams_bridge/service.py:2219-2250 | The concrete failure: some good history of every live header ends with a consumption although the grant is stored. |
| `Knowledge.OthersKeepKnowledge` | apps/agentteams_bridge/service.py:119-129 | What a process knows of its run, and that its lease copy is the stored one, survives every transaction of the others. |
| `Knowledge.OwnRenewKeeps` | apps/agentteams_bridge/service.py:119-129 | After a renewal the local run carries the stored lease; a refused renewal means that the lease is lost or expired. |
| `Knowledge.OwnUpdateOutcome` | apps/agentteams_bridge/store.py:744-803 | A process whose lease copy is in sync is refused only for a lost lease or a moved version, never for a lease mutation. |
| `Knowledge.StaleCopyKnows` | apps/agentteams_bridge/service.py:1315-1327 | A run copy with an older lease is still a good update of the committed row, as on the exception paths. |
| `Knowledge.ReassignKeepsKnowledge` | apps/agentteams_bridge/service.py:1184-1274 | Rewiring the graph for a replacement within the budget is a good update of the committed row. |
| `BridgeService.AgentTeamsBridge.RenewOperation` | apps/agentteams_bridge/service.py:119-129 | On success the stored row is the committed base under this owner's new lease; on failure nothing known is lost. |
| `BridgeService.AgentTeamsBridge.UpdateRun` | apps/agentteams_bridge/service.py:2134-2139 | On success the stored row is the local run under the next version; the only refusals are a lost lease and a moved version. |
| `BridgeService.AgentTeamsBridge.ExternalWrite` | apps/agentteams_bridge/service.py:220-253 | A remote write needs a renewal directly before it, and until the lease expires the row it acts for cannot move while the request travels. |
| `BridgeService.AgentTeamsBridge.Send` | apps/agentteams_bridge/service.py:324-352 | Renew, deliver, archive, record; after a success exactly one event of the run's ledger carries the envelope id, and the caller's stale copy stays usable on every failure. |
| `BridgeService.AgentTeamsBridge.RecordOnce` | apps/agentteams_bridge/service.py:346-351 | After a success exactly one event of the run's ledger carries the envelope id, whoever recorded it. |
| `BridgeService.AgentTeamsBridge.EnsureWorkersReady` | apps/agentteams_bridge/service.py:220-253 | Every worker call is fenced by its own renewal; the run changes in its lease only. |
| `BridgeService.AgentTeamsBridge.CreateProject` | apps/agentteams_bridge/service.py:745-800 | The project is created under the lease; a conflict is accepted only with the identity of the reservation. |
| `BridgeService.AgentTeamsBridge.ConfirmReservedProject` | apps/agentteams_bridge/service.py:692-819 | Success means that the stored run has its project confirmed; failure leaves the run as it was. |
| `BridgeService.AgentTeamsBridge.PrepareDispatch` | apps/agentteams_bridge/service.py:582-594 | Whatever step of the start fails, the local run handed to compensation is a good update of the stored one. |
| `BridgeService.AgentTeamsBridge.Dispatch` | apps/agentteams_bridge/service.py:595-624 | A dispatched run is stored as PRE_APPROVAL; the reserved request envelope is reused. |
| `BridgeService.AgentTeamsBridge.CompensateStart` | apps/agentteams_bridge/service.py:625-664 | Success means that the compensation checkpoint is the stored row. |
| `BridgeService.AgentTeamsBridge.StartRun` | apps/agentteams_bridge/service.py:456-666 | Success answers the stored run with the requested header, past provisioning if it is live; every path extends the history by good steps and consumes no token, although the claimed run may have moved since it was read. |
| `BridgeService.AgentTeamsBridge.StartClaimed` | apps/agentteams_bridge/service.py:582-665 | Success of the claimed part means that the stored row is the dispatched run in PRE_APPROVAL. |
| `BridgeService.AgentTeamsBridge.ObserveStatuses` | apps/agentteams_bridge/service.py:1112-1147 | Only the observed node statuses change, and the lease copy stays in sync. |
| `BridgeService.AgentTeamsBridge.CheckTask` | apps/agentteams_bridge/service.py:1363-1425 | One newest attempt is a conflict, or settled, or settled by accepting its contract now; a revision, a block, or a passed ACK or execution timeout is always a conflict, and nothing else is one before completion. |
| `BridgeService.AgentTeamsBridge.FirstConflict` | apps/agentteams_bridge/service.py:1359-1426 | Either a newest attempt of the run in conflict, or every newest attempt is settled. |
| `BridgeService.AgentTeamsBridge.AllStageTasksCompleted` | apps/agentteams_bridge/service.py:1453-1462 | True exactly when the stages have newest attempts and every one is completed with an accepted contract. |
| `BridgeService.AgentTeamsBridge.Reassign` | apps/agentteams_bridge/service.py:1174-1357 | A spent budget or no candidate blocks the run; the plan changes only by one reassignment within the budget to an eligible worker; the run keeps its state or stops. |
| `BridgeService.AgentTeamsBridge.ReassignTo` | apps/agentteams_bridge/service.py:1220-1274 | The committed plan is the reassigned one, with the status that cancelling an active attempt leaves. |
| `BridgeService.AgentTeamsBridge.AnnounceReassignment` | apps/agentteams_bridge/service.py:1275-1357 | A failed announcement leaves the new plan with a compensation checkpoint. |
| `BridgeService.AgentTeamsBridge.Fence` | apps/agentteams_bridge/service.py:1315-1345 | A compensation checkpoint may only promise a resume whose facts are committed. |
| `BridgeService.AgentTeamsBridge.RecoverCompensation` | apps/agentteams_bridge/service.py:1835-1943 | Recovery resumes exactly in the state that the checkpoint's operation stands for and clears the checkpoint; without such a state nothing changes. |
| `BridgeService.AgentTeamsBridge.RepeatAnnouncement` | apps/agentteams_bridge/service.py:1858-1926 | The repeated announcement changes the lease of the run and nothing else. |
| `BridgeService.AgentTeamsBridge.AdvanceEgoToApproval` | apps/agentteams_bridge/service.py:1486-1540 | Advancing EgoAgentOS stage by stage changes the lease of the run and nothing else. |
| `BridgeService.AgentTeamsBridge.Announce` | apps/agentteams_bridge/service.py:2012-2078 | After a failed announcement the run is in compensation with exactly the given retry. |
| `BridgeService.AgentTeamsBridge.FinalizeEgo` | apps/agentteams_bridge/service.py:1762-1833 | Success means that finalization is committed, on top of the grant, in POST_APPROVAL. |
| `BridgeService.AgentTeamsBridge.Complete` | apps/agentteams_bridge/service.py:2079-2133 | A finalized run ends COMPLETED, or in compensation for its announcement. |
| `BridgeService.AgentTeamsBridge.Reconcile` | apps/agentteams_bridge/service.py:1945-2161 | Success answers the stored run, a live one; every path extends the history by good steps and consumes no token. |
| `BridgeService.AgentTeamsBridge.ReconcileClaimed` | apps/agentteams_bridge/service.py:1963-2161 | The stored outcome follows the state machine: a compensation resumes where its operation says or stays, PRE_APPROVAL may wait for R2, POST_APPROVAL may complete with its finalization committed, anything else stays, blocks or asks for compensation. |
| `BridgeService.AgentTeamsBridge.WorkflowKeyInjective` | apps/agentteams_bridge/service.py:1967-1969 | Two different snapshots never share a receipt key. |
| `BridgeService.AgentTeamsBridge.ConsumeGrant` | apps/agentteams_bridge/service.py:2220-2236 | Exactly one consumption of this run is recorded in the owner's name, as the newest step; one made in time found the row that the renewal left, without a grant. |
| `BridgeService.AgentTeamsBridge.CommitGrant` | apps/agentteams_bridge/service.py:2218-2278 | A run that was granted when it was claimed consumes no token; a success on any other run has consumed exactly one, of this run, and the grant is stored. |
| `BridgeService.AgentTeamsBridge.CommitResponse` | apps/agentteams_bridge/service.py:2238-2278 | The grant is stored before the response is judged; an answer without EXECUTE still fails. |
| `BridgeService.AgentTeamsBridge.ResumeExecution` | apps/agentteams_bridge/service.py:2279-2306 | Success stores POST_APPROVAL with exactly the expanded graph and no compensation checkpoint. |
| `BridgeService.AgentTeamsBridge.FenceGrant` | apps/agentteams_bridge/service.py:2307-2349 | A granted run that was not carried through is stored with a checkpoint that needs no token. |
| `BridgeService.AgentTeamsBridge.GrantR2Claimed` | apps/agentteams_bridge/service.py:2201-2349 | Consumes no token if the claimed run is granted and exactly one for a success otherwise, and on success stores POST_APPROVAL with the expanded graph. |
| `BridgeService.AgentTeamsBridge.GrantR2` | apps/agentteams_bridge/service.py:2184-2199 | Success answers the stored run with its grant committed; at most one token is consumed, and it is this run's, although the claimed run may have moved since it was read. |
| `TaskIds.AttemptIdInjective` | apps/agentteams_bridge/service.py:51-60 | Two attempts share an id exactly if they are the same stage and attempt, although one role suffix begins like another. |
| `TaskIds.RolePlanOk` | apps/agentteams_bridge/service.py:51-60 | The role plan meets what the id scheme needs. |
| `TaskGraph.BuildTaskGraph` | apps/agentteams_bridge/service.py:256-281 | The loop builds one first attempt for each selected stage, each depending on the one before. |
| `TaskGraph.PlannedOk` | apps/agentteams_bridge/service.py:256-281 | The initial graph satisfies the graph invariant. |
| `TaskGraph.UniqueIds` | apps/agentteams_bridge/service.py:1216-1274 | Task ids are unique. |
| `TaskGraph.DependenciesResolve` | apps/agentteams_bridge/service.py:1243-1274 | Every dependency names a task of the graph, the newest attempt of a strictly earlier stage. |
| `TaskGraph.Acyclic` | apps/agentteams_bridge/service.py:1243-1274 | No path of dependencies returns to its start. |
| `TaskGraph.AttemptsAreCounted` | apps/agentteams_bridge/service.py:1216-1274 | A planned logical task has exactly reassignments + 1 attempts, the newest numbered reassignments + 1. |
| `TaskGraph.ReassignGraph` | apps/agentteams_bridge/service.py:1233-1262 | The loop replaces the task, rewires its dependents and appends the replacement. |
| `TaskGraph.ReassignKeepsGraph` | apps/agentteams_bridge/service.py:1233-1270 | Replacing a newest attempt keeps the graph invariant under the raised count. |
| `TaskGraph.BudgetStep` | apps/agentteams_bridge/service.py:1184-1195 | A reassignment lowers the summed remaining budget by exactly one. |
| `TaskGraph.EffectiveTasks` | apps/agentteams_bridge/service.py:1428-1451 | The loop over the latest attempts returns exactly the newest attempt of each origin among the stages, in graph order. |
| `TaskGraph.EffectiveIsOnePerLogicalTask` | apps/agentteams_bridge/service.py:1428-1451 | Exactly one newest attempt for each planned logical task of the stages. |
| `TaskGraph.PostApprovalGraph` | apps/agentteams_bridge/service.py:2163-2182 | The method builds the expanded graph. |
| `TaskGraph.ExpandKeepsGraph` | apps/agentteams_bridge/service.py:2163-2182 | The post-approval expansion keeps the graph invariant on the first grant and on every repeated one. |
| `LedgerVerifier.VerifyBridgeEventChain` | benchmarks/trace_verifier.py:218-337 | The walk accepts exactly the chains that are contiguous, distinct, well formed for the run's identity, sealed, linked and headed as claimed, and returns the digest of every event id. |
| `LedgerVerifier.WalkItems` | benchmarks/trace_verifier.py:249-330 | The loop over the items succeeds exactly on acceptable item lists. |
| `LedgerVerifier.HeadCommits` | benchmarks/trace_verifier.py:249-337 | Two accepted chains have the same head if and only if they are identical, run and identity included. |
| `LedgerVerifier.ExportBridgeEventChain` | integrations/agentteams/benchmark_adapter.py:87-127 | The export renumbers from 1, adds the run id, and refuses an invalid, empty or secret-bearing ledger. |
| `LedgerVerifier.ProducerVerifierAgree` | integrations/agentteams/benchmark_adapter.py:87-127 | At every point of every history, the export of every run's ledger has the fields, schema and parties that the verifier asks for and is accepted if and only if its event and envelope ids are texts. |
| `ExtensionHistory.EveryStoreOk` | apps/agentteams_bridge/store.py:814-1590 | After every sequence of calls all streams are chained, contiguous, causally closed and within their binding's watermark, event ids are unique, and rows correspond to admission events. |
| `ExtensionHistory.SafetyProvenance` | apps/agentteams_bridge/store.py:1102-1202 | A safety decision follows its exact effect, that effect's task lease, its exact Guardian decision, and that decision's system-HIGH assessment. |
| `ExtensionHistory.ProjectionSourcesPrecede` | apps/agentteams_bridge/store.py:1164-1186 | Every source of a projection names exactly one earlier event, and no source is cited twice. |
| `ExtensionHistory.CountCheckMeansDistinctAndStored` | apps/agentteams_bridge/store.py:1168-1186 | The count comparison admits exactly the source lists that are free of repeats and entirely stored. |
| `ExtensionHistory.EvidenceFollowsItsLease` | apps/agentteams_bridge/store.py:1091-1202 | Effects, attention packets, projections and evaluations come after the admission of their task's lease, whose row is in the table. |
| `ExtensionHistory.WatermarksStayWithinTheBinding` | apps/agentteams_bridge/store.py:814-871 | A campaign binding is written once, and no event ever cites a watermark beyond it. |
| `ExtensionHistory.LeaseReplayReturnsTheRow` | apps/agentteams_bridge/store.py:1404-1416 | Replaying a stored lease at any later time returns the stored row and changes nothing. |
| `ExtensionHistory.ConflictingLeaseLeavesNoTrace` | apps/agentteams_bridge/store.py:1396-1416 | Another lease for the task, or another key, is refused and leaves no event behind. |
| `ExtensionHistory.EvaluationReplayReturnsTheRow` | apps/agentteams_bridge/store.py:1541-1554 | A replayed evaluation returns the stored row, even when it brings another signature, key or issuer. |
| `ExtensionHistory.ConflictingEvaluationLeavesNoTrace` | apps/agentteams_bridge/store.py:1534-1554 | A stored binding id with another key, task or evaluation is refused and leaves no event behind. |
| `ExtensionHistory.SecondBindingLeavesNoTrace` | apps/agentteams_bridge/store.py:474-493 | An admission event backs one evaluator row only: a second binding id on it is rolled back whole. |
| `ExtensionHistory.StoresGrow` | apps/agentteams_bridge/store.py:814-1590 | No later call withdraws a binding, an event, a lease row or an evaluator row. |
| `ExtensionHistory.StoredStreamsAreValid` | apps/agentteams_bridge/store.py:1204-1257 | Every stored stream passes its own read-back check. |
| `ExtensionHistory.RootCommits` | apps/agentteams_bridge/store.py:1204-1274 | Two valid streams have the same root if and only if they agree in everything, payloads and sequence numbers included. |
| `ExtensionStore.BridgeExtensionStore.BindCampaign` | apps/agentteams_bridge/store.py:814-871 | The first binding is stored, the same one is answered, another one is refused. |
| `ExtensionStore.BridgeExtensionStore.AppendBytesLocked` | apps/agentteams_bridge/store.py:976-1077 | A new event, a replay, or an error that stores nothing, as specified. |
| `ExtensionStore.BridgeExtensionStore.AppendExtensionEvent` | apps/agentteams_bridge/store.py:954-974 | A typed event is appended or replayed under its key; admissions cannot enter this way. |
| `ExtensionStore.BridgeExtensionStore.StoreSignedTaskLease` | apps/agentteams_bridge/store.py:1367-1447 | Event and row are stored together or not at all; the returned row is the stored one and carries the given lease and key. |
| `ExtensionStore.BridgeExtensionStore.BindSealedEvaluation` | apps/agentteams_bridge/store.py:1490-1590 | Event and row are stored together or not at all; the returned row is the stored one. |
| `ExtensionStore.BridgeExtensionStore.ExtensionEvents` | apps/agentteams_bridge/store.py:1204-1257 | Reads back the whole stream, always valid, with its root. |
| `ExtensionStore.BridgeExtensionStore.WalkStream` | apps/agentteams_bridge/store.py:1221-1257 | The loop decides the read-back property and returns the root. |
| `ExtensionStore.BridgeExtensionStore.VerifyExtensionRoot` | apps/agentteams_bridge/store.py:1259-1274 | The root matches if and only if the stream is the one known to have had that root. |
| `TraceVerifier.CollectAgents` | benchmarks/trace_verifier.py:500-521 | Succeeds exactly on three agents or more with three roles and pairwise different names, and returns the table of all names. |
| `TraceVerifier.CollectPrincipals` | benchmarks/trace_verifier.py:523-538 | Succeeds exactly when principal ids are distinct from each other and from all agent names, with human, bridge and ego present. |
| `TraceVerifier.CollectEvents` | benchmarks/trace_verifier.py:540-559 | Succeeds exactly on contiguous events of known actors and this trial with every lifecycle type, grouped by type in order. |
| `TraceVerifier.CheckOrder` | benchmarks/trace_verifier.py:561-570 | The comparison of list ends decides the order of first and last events. |
| `TraceVerifier.CheckRoles` | benchmarks/trace_verifier.py:572-625 | Decides delegation, the fields of skill calls, approval, acceptance, review and decision roles, and that executors and reviewers are different agents. |
| `TraceVerifier.DisjointMeansIndependent` | benchmarks/trace_verifier.py:576-582 | Disjoint id sets mean that no agent both executes and reviews under any of its names. |
| `TraceSoundness.CheckBindings` | benchmarks/trace_verifier.py:702-758 | The loop accepts exactly the traces whose five bound types, and no others, each cite their own ledger item of the required kind. |
| `TraceSoundness.VerifyTrace` | benchmarks/trace_verifier.py:468-771 | The whole verifier accepts exactly the traces that satisfy the declarative specification for the given trial. |
| `TraceAttestation.CheckRxp` | benchmarks/trace_verifier.py:627-640 | Accepts exactly when the five RXP values are well formed and each is bound by an event of its lifecycle type. |
| `TraceAttestation.CheckOfficial` | benchmarks/trace_verifier.py:642-691 | Accepts exactly when the contract names the official repository and a commit, the identifiers name this project and matrix root, and the snapshots are the listed responses. |
| `TraceAttestation.CheckReplay` | benchmarks/trace_verifier.py:762-771 | The comparisons of set sizes accept exactly when two or more different runs replayed and all reported one digest. |
| `TraceSoundness.DecisionRestsOnIndependentReview` | benchmarks/trace_verifier.py:572-640 | The evidence that a decision binds was bound by a review of an agent that executed no skill under either name, and different replays agreed. |
| `TraceSoundness.LifecycleMapsInjectively` | benchmarks/trace_verifier.py:702-758 | Bound lifecycle events map injectively to ledger items of the required kinds; no other event carries a binding. |
| `TraceSoundness.ExecutorsNeverReview` | benchmarks/trace_verifier.py:609-619 | No agent executes a skill and reviews, under whichever of its names. |
| `TraceSoundness.LifecycleInOrder` | benchmarks/trace_verifier.py:561-570 | A creation precedes all delegations and acceptances, and the last decision follows every completion and review. |
| `TraceSoundness.SameHeadSameLedger` | benchmarks/trace_verifier.py:692-701 | Accepted traces that report the same ledger head carry the same ledger. |
| `TraceAttestation.AttestedValuesAreTexts` | benchmarks/trace_verifier.py:175-194 | Every attested digest and commit is also a text: the text rule in front of a digest pattern refuses nothing more. |
| `Scenario.ScenarioFacts` | benchmarks/trace_verifier.py:377-465 | Facts are derived exactly when the scenario's events are there and well formed, and say which events occur. |
| `Scenario.Adjudicate` | benchmarks/oracle.py:21-89 | The oracle confirms a pass exactly when the invariant holds, never upgrades, and changes status and reason only. |
| `Scenario.GateFailures` | benchmarks/runner.py:217-261 | The gate's per-trial checks are silent exactly when every passing trial meets its demands. |
| `Scenario.VerifiedFactsPassOracleAndGate` | benchmarks/runner.py:201-261 | For every scenario and event list, verified facts copied into a passing observation satisfy the oracle and the gate. |
| `Scenario.VerifiedFactsAreComplete` | benchmarks/trace_verifier.py:95-146 | The required events of each scenario suffice for every fact its table claims. |
| `Scenario.SameScenarios` | benchmarks/oracle.py:37-79 | The oracle can pass exactly the scenarios that the verifier knows. |
| `Statistics.WilsonIsTheScoreInterval` | benchmarks/statistics.py:29-40 | The unclamped interval is exactly the set of rates whose score statistic is within z. |
| `Statistics.ClampingNeverMatters` | benchmarks/statistics.py:29-40 | The unclamped bounds lie in [0, 1] and enclose the observed rate, so clamping changes nothing. |
| `Statistics.QuantileWithinRange` | benchmarks/statistics.py:14-26 | A quantile lies between the smallest and the largest value. |
| `Statistics.QuantileMonotone` | benchmarks/statistics.py:14-26 | A quantile is nondecreasing in the probability. |
| `Statistics.QuantileIgnoresOrder` | benchmarks/statistics.py:14-26 | The order of the input does not matter. |
| `Statistics.QuantileIsPercentileOfSorted` | apps/api/evaluator.py:18-27 | The quantile equals the evaluator's percentile of the sorted values. |
| `Statistics.BootstrapMeans` | benchmarks/statistics.py:92-95 | The loop collects the mean of each resample. |
| `Statistics.BootstrapMeanInterval` | benchmarks/statistics.py:85-96 | For whatever positions are drawn, the interval is ordered and inside the data range. |
| `Statistics.PairedBootstrapDelta` | apps/api/evaluator.py:30-45 | Refuses empty or unequal samples and fewer than 100 iterations; every resampled delta is the difference of both means over the same drawn pairs. |
| `Statistics.EvaluatePairedMetric` | apps/api/evaluator.py:48-79 | For whatever pairs are drawn, the percentile interval of the resampled differences is ordered and, like the mean difference, inside the range of the differences; the verdict is the threshold multiplied out. |
| `SkillRegistry.EverySequenceKeepsOk` | skill_runtime/registry.py:215-252 | Every lifecycle sequence keeps at most one active release a name and a percentage for exactly the canaries. |
| `SkillRegistry.ResolveIsSafe` | skill_runtime/registry.py:254-277 | Routing never meets two active releases or a missing percentage, never serves a retired release, and always serves while one is active. |
| `SkillRegistry.PercentNeverMissingIff` | skill_runtime/registry.py:254-262 | Routing a name is free of missing percentages for every bucket if and only if each of its canaries has one. |
| `SkillRegistry.CanaryManifestIsNotRouted` | skill_runtime/registry.py:254-262 | The concrete failure: a registry whose only release is a canary by its manifest routes no bucket at all. |
| `SkillRegistry.RaisingOnlyAttracts` | skill_runtime/registry.py:215-262 | Raising a canary's percentage never routes an id away from it, and moves other ids only to it. |
| `SkillRegistry.DescendingIsDescending` | skill_runtime/registry.py:259-259 | Canaries are tried from the highest version down. |
| `SkillRegistry.SkillRegistry.Create` | skill_runtime/registry.py:129-144 | A repeated release is refused; otherwise every release is registered once, and the invariant holds from the start exactly when no manifest declares a canary and no two releases of a name are active. |
| `SkillRegistry.SkillRegistry.SetCanary` | skill_runtime/registry.py:215-223 | Succeeds exactly for 1 to 50 percent on a draft or canary, with the specified new state. |
| `SkillRegistry.SkillRegistry.Activate` | skill_runtime/registry.py:225-238 | The release becomes active, the active one of its name retires; a retired one is refused. |
| `SkillRegistry.SkillRegistry.DemoteOthers` | skill_runtime/registry.py:233-235 | The loop retires exactly the other active releases of the name. |
| `SkillRegistry.SkillRegistry.Retire` | skill_runtime/registry.py:240-244 | The release is retired and loses its percentage. |
| `SkillRegistry.SkillRegistry.Rollback` | skill_runtime/registry.py:246-252 | A known release becomes active again even if it was retired. |
| `SkillRegistry.SkillRegistry.Resolve` | skill_runtime/registry.py:254-277 | The loop serves what the routing specification says. |
| `EventStream.CursorRoundTrip` | apps/api/event_stream.py:18-32 | Printing and parsing a cursor are inverse for every non-empty generation, colons included. |
| `EventStream.ParsedCursorIsStable` | apps/api/event_stream.py:18-32 | Whatever parses as a cursor names a non-empty generation and survives printing and parsing. |
| `EventStream.SendRows` | apps/api/event_stream.py:85-101 | The rows are sent in order under their cursor ids, up to the maximum. |
| `EventStream.IterTaskEvents` | apps/api/event_stream.py:47-112 | One connection sends a segment for each generation it saw, each an unbroken beginning of that generation's rows under their cursor ids, within the maximum; a last poll that fetched fewer rows than the limit leaves nothing of its generation behind. |
| `EventStream.OneGenerationIsOneSegment` | apps/api/event_stream.py:68-101 | While the generation stays, what was sent is an unbroken beginning of the rows behind the cursor. |
| `EventStream.CutShort` | apps/api/event_stream.py:85-101 | A connection cut at any point has delivered an unbroken beginning. |
| `EventStream.ExactlyOnce` | apps/api/event_stream.py:68-112 | Over any number of reconnects with rows committed in between, the client has the audit rows in order, each once, and all of them exactly when nothing is left behind its cursor. |
| `EventStream.ClientGetsEachRowOnce` | apps/api/event_stream.py:47-112 | Connections as IterTaskEvents serves them, each cut anywhere and resumed with the id of the last frame that arrived: the client has the rows of the generation in order, each once, and all of them exactly when nothing is left behind its cursor. |
| `RawMetrics.ValidateContract` | semifinal_acceptance/bundle.py:379-419 | The length comparisons accept exactly the well-formed metric contracts: scale, aggregation, samples, seeded cells, filters, rationale codes and policy. |
| `RawMetrics.ValidateRawMetrics` | semifinal_acceptance/bundle.py:710-806 | The loop accepts exactly the record lists of the specification whose claimed summary, digest of the record file included, is the computed one, and returns the verdict with its rationale code. |
| `RawMetrics.OneRecordForEachPair` | semifinal_acceptance/bundle.py:718-757 | Accepted records and sample-cell pairs correspond one to one. |
| `RawMetrics.IncludedPlusFiltered` | semifinal_acceptance/bundle.py:718-772 | Included plus filtered records are samples times cells. |
| `RawMetrics.OrderDoesNotMatter` | semifinal_acceptance/bundle.py:758-806 | A reordered file, with its own digest in the summary, is accepted if and only if the first is, and with the same verdict. |
| `RawMetrics.RaisingNeverRejects` | semifinal_acceptance/bundle.py:778-802 | Raising a value of the judged cell never turns KEEP into REJECT. |

## Left out

- `apps/agentteams_bridge/postgres_store.py`: the same contract over SQL locking, which would repeat the store model.
- HTTP clients, routes, settings, operator authentication, Matrix message text, deployment and packaging: I/O without state of its own.
- JSON syntax, regular expressions, secret scanning (a predicate on envelopes here), SHA-256, HMAC and ISO dates (times are integers).
- Digests that a checkpoint only copies from responses are not fields.
- The choice among candidate workers: the source sorts them, prefers a suggested one and indexes by the count; here any candidate may be taken, and the results hold for each.
- Titles, addressees and deliverables of tasks, blocked reasons, pending-replan notes and the action lists of a reconciliation: nothing that is proved reads them.
- A task's stage is its position in the role plan, since stage names and plan rows correspond one to one.
- `BridgeService.AgentTeamsBridge.CheckTask`: the checks inside artifact validation are one answer of the environment, success or failure.
- `BridgeService.AgentTeamsBridge.FinalizeEgo`: the checks on the finalization evidence are one answer of the environment.
- `BridgeService.AgentTeamsBridge.ConfirmReservedProject`: whether a stored receipt, a creation response or an upstream workflow names the reserved project and team is one answer of the environment.
- A lease record that cannot be parsed is one value, `Malformed`, whatever is wrong with it.
- `run.checkpoint` of the local run is a value that is rebound, so aliasing between run copies is not modelled.
- `recover_active`, skill evidence and the acceptance index: reads over the same rows.
- `TraceSoundness.VerifyTrace`: the byte length, duplicate keys and JSON shape of a trace, and the digest roots computed from its bytes.
- The release gate's totals and evidence replay; only its demands on a passing trial are modelled.
- `Statistics.WilsonIsTheScoreInterval`: takes the square root as a parameter whose square is the radicand; rounding is not modelled.
- `Statistics.BootstrapMeanInterval`: takes the drawn positions as a parameter; the generator is not modelled.
- `EventStream.ParseEventCursor`: reads an optional sign and decimal digits; white space, underscores and non-ASCII digits, which Python's `int` also reads, count as malformed.
- `EventStream.IterTaskEvents`: the endless wait is a list of polls, and heartbeats carry nothing; rows of a generation that are written after the last poll that showed it are not sent, as in the source.
- `SkillRegistry.SkillRegistry.Resolve`: the digest bucket of a correlation id is an arbitrary function.
- Skill discovery, invocation and traces of the registry: file reading and one dictionary.
- `RawMetrics.ValidateRawMetrics`: the mean of the claimed summary is compared as a number, not as the text of its reduced fraction; the digest of the decision policy is not part of the result.
- `ExtensionStore.BridgeExtensionStore.BindSealedEvaluation`: whether a payload holds private material is a field of it; metadata of a replay is not compared, as in the source.
