# Verified model of the agent-company control plane

This project models the state machines of the agent-company control plane, the validators that
compare its stores with each other, and two of its parsers, and proves what they keep over whole
runs. SQLite transactions are atomic: a refused one leaves every table as it was. Signatures and
hashes are symbolic terms of what they cover, so two are equal exactly when they cover the same
thing. Time is an integer. `dafny verify dfyconfig.toml` checks the project.

**Tasks.** Executors claim a task under a lease and get a token stamped with a generation; they
renew, checkpoint, fail or complete it; a cycle recovers stale leases within a retry budget; the
Chairman, the CEO and a migration reopen, cancel, reconcile or close it. `TaskTables` and
`TaskProtocol` say which calls are accepted and what they do; `TaskSafety` and `PilotCompletion`
prove properties of every run, `TaskInvariant` gathers them into the invariant of the tables, and
`TaskWitness` gives the runs in which the exceptions occur. `TaskStore` and `OperatingCycle` (with
`Ordering` for `ORDER BY`) are the transactions and loops of `CompanyOS`, each proved to be one
step, or a run, of the protocol, and to keep the invariant; `TaskAdmission` says
exactly when each call is accepted, and `TaskEffects` what it means for its caller and how long that
lasts.

**Governed recovery.** Records, provenance anchors, audit rows, events and an external hash-chained
ledger describe the same recoveries. `RecoveryLedger` is the file, `RecoveryConflicts` the validator,
`RecoveryRequeue` and `RecoveryStore` the requeue across both stores with its compensation, and
`RecoveryRuns` the runs of any number of processes that commit, append, compensate, die and work on
the tasks in any order; `RecoveryWitness` is one in which the two stores end up disagreeing.
`RecoveryEffects` is what a requeue needs and stores, and what the ledger proves about the tables.

**Assurance kernel.** `ManifestDag` is the cycle check of design manifests; `LifecycleChain` the
signed chain of an artifact version; `AssuranceState` and `AssuranceKernel` registration, approval,
supersession, gates and the lifecycle graph; `AssuranceSafety` and `AssuranceHistory` what every run
keeps, and `AssuranceEffects` what each operation stores and how long a decision binds.

**Evaluation ledger.** `EvaluationTables`, `EvaluationLedger` and `EvaluationStore` are the writers
and readers of trusted evaluations; `EvaluationSafety` proves exactly when the readers accept what
the writers produce, and `EvaluationEffects` that the stored runs are the reports made.

**Parsers.** `GitTreeCodec` and `GitInventory` decode Git tree objects and list a whole tree;
`PathBounds` and `BoundedSvg` check that a vector image stays on its canvas.

**Queue and CEO state.** `EventQueue` and `EventEngine` are the durable event queue with crashes at
any commit; `CeoState`, `CeoSafety` and `CeoRuntime` the versioned CEO state that concurrent
reasoning runs update by comparison; `EventEffects` and `CeoEffects` say what their transactions
store.

Some facts of the source that the proofs bring out:

- A call that omits the fencing token is not fenced: heartbeats, checkpoints and completions insist
  on a token only for pilot-bound tasks, and failure reports never do
  (`TaskSafety.OmittedTokenIsUnfenced`).
- Terminal tasks stay terminal, and a completed pilot task stays whole, with one exception each:
  a compensation checks nothing and can land after other work (`TaskSafety.TerminalIsAbsorbing`,
  `PilotCompletion.WholeExactly`). `TaskWitness.StaleCompensation` is a run from the empty tables in
  which it takes a task from done back to blocked; a pilot task in that state is never completed
  again, because its completion row stays (`PilotCompletion.ReopenedForever`).
- A task can be claimed more often than its limit, once for each Chairman decision that reopens it
  after exhaustion (`TaskSafety.RetryBudget`). In `TaskWitness.SecondClaim` a task with a limit of one
  is claimed twice: its failure report mentions "#1", and approval 1 opens it.
- A decision on approval 1 also moves tasks that wait for approval 12
  (`TaskTables.MatchesByPrefix`, `TaskTables.TwelveMatchesOne`).
- The integrity guard ignores the recovery ledger (`RecoveryStore.LedgerNeverBlocks`,
  `RecoveryStore.CommitIgnoresLedger`). A readable ledger that lags behind stops nothing; with an
  unreadable one every requeue that commits is rolled back (`RecoveryRuns.UnreadableForever`).
- Commit and append are two steps without a common lock. When no requeue is under way, the
  stores agree if and only if the lines were appended in commit order and no process died in between
  (`RecoveryRuns.ConflictFreeExactly`); otherwise the mismatch is reported ever after
  (`RecoveryRuns.MismatchForever`). `RecoveryWitness.LateAppendDisagrees` is a run without any
  failure that ends so. Two processes that append at the same moment can also leave a file that
  does not read (`RecoveryLedger.RacingAppendsBreak`).
- The ledger is a witness of the four recovery tables: no change of them away from a conflict-free
  state stays unreported unless the ledger changes with it (`RecoveryEffects.TamperingIsReported`).
- A process id taken over by another process is reported dead, but does not prove death for a
  requeue; only an absent process does (`RecoveryEffects.DeathProof`).
- A quarantined execution is never recovered: only a cancellation, a retirement or the compensation of
  a requeue still under way ends its status (`TaskEffects.UnknownIsLeftBy`).
- A compensation deletes its rows but not the AUTOINCREMENT sequences they advanced
  (`RecoveryRequeue.CompensationRestores`).
- The answer to a requeue is built from some record of the task, which after a second recovery need
  not be the new one (`RecoveryStore.Stores.Requeue`).
- An approval suspends every gate decision of its initiative, and superseding the approved version
  again revives them (`AssuranceSafety.ApprovalSuspendsGates`, `AssuranceSafety.SupersedingRevivesGates`).
- An initiative that is blocked while already blocked can never leave `blocked`
  (`AssuranceHistory.SecondBlockSticks`, `AssuranceHistory.StuckForever`).
- The path interpreter never resets its cursor when a subpath is closed, and yet returns the
  bounding box that section 8.3 of SVG 1.1 (Second Edition) gives (`PathBounds.Bounds`).

## Model

| member | source | states |
|---|---|---|
| TaskProtocol.StepRows | agent_company/ops.py:643-716 | an accepted call changes the rows of its own task only; a decision changes every task it matches; a refused call changes nothing |
| TaskSafety.JointStep | agent_company/ops.py:1483-1488 | every call, including Chairman decisions over all tasks, keeps task status and execution status compatible |
| TaskSafety.JointMeaning | agent_company/ops.py:1989-2030 | in every reachable state `in_progress` iff the execution is running, failed or unknown; `reconciled` iff reconciled; completed implies `done`; `cancelled` implies none or cancelled, and a cancelled execution implies `cancelled`; open and blocked imply none, requeued or exhausted |
| TaskSafety.TerminalIsAbsorbing | agent_company/ops.py:1411-1421 | a done, cancelled or reconciled task keeps its status under every call, except exactly an accepted compensation of that task |
| TaskSafety.FencingStep | agent_company/ops.py:1908-1943 | tokens stay stamped with the generation, generations never fall, and a generation that left `running` never returns |
| TaskSafety.Fencing | agent_company/ops.py:1870-1888 | over any interleaving: once a claimed generation is no longer running, no heartbeat, checkpoint, failure or completion with its token is accepted in any continuation |
| TaskSafety.PastTokenRejected | agent_company/ops.py:1333-1347 | a call presenting a token of a generation that is over is refused |
| TaskSafety.OmittedTokenIsUnfenced | agent_company/ops.py:731-736 | a call without token is accepted iff the same call with the current token is, and it is a failure report or the task is not pilot-bound |
| TaskSafety.CancelFences | agent_company/ops.py:1399-1436 | after a cancellation no heartbeat, checkpoint, failure or completion with any token handed out for the task is accepted, in any continuation |
| TaskSafety.AttachedProcessIsInert | agent_company/runner.py:273-278 | attaching a process changes the verdict on no call but the governed requeue |
| TaskSafety.RetryBudget | agent_company/ops.py:2007-2030 | between governed requeues a task is claimed at most as often as the largest limit, plus once for each decision that reopens it exhausted |
| TaskSafety.RecoveryDescends | agent_company/ops.py:2020-2029 | each requeue by recovery strictly lowers the attempts left and leaves at least one |
| TaskEffects.OnlyTheHolder | agent_company/ops.py:1870-1888 | a heartbeat, checkpoint, failure or completion needs the running execution of the caller before its lease ends, with the stored token if it gives one |
| TaskEffects.PilotCallsAreBound | agent_company/ops.py:731-742 | for a pilot-claimed task the same calls need the token, under the initiative and artifact set of the claim, and a completion the assurance of that binding |
| TaskEffects.PilotNeedsClaim | agent_company/pilot_gate.py:567-628 | under a binding to the pilot they need a claim of the present generation |
| TaskEffects.ClaimStarts | agent_company/ops.py:1890-1966 | an accepted claim starts the next generation under its executor, lease, limit and process, and keeps attempts, checkpoint and next action |
| TaskEffects.HeartbeatExtends | agent_company/ops.py:718-753 | a heartbeat moves the end of the lease to now plus the requested time and changes nothing else |
| TaskEffects.CheckpointStores | agent_company/ops.py:755-789 | a checkpoint stores both texts and renews the lease by 600 seconds |
| TaskEffects.LeaseProtects | agent_company/ops.py:1908-1943 | until the lease ends, whatever others try, the execution stays running under the same token, nobody claims the task and no cycle recovers it, unless the holder reports, the task is closed or a compensation lands |
| TaskEffects.ExpiredIsRecoverable | agent_company/ops.py:2043-2056 | a running execution is recoverable iff its lease has ended |
| TaskEffects.CheckpointSurvives | agent_company/ops.py:1908-1943 | through failures, recoveries and claims by others, checkpoint and next action stay until a checkpoint, a governed requeue or a compensation replaces them |
| TaskEffects.QuarantineKeeps | agent_company/ops.py:1989-2006 | a failed execution whose process is alive becomes unknown; task row and attempts stay, and no claim is accepted whatever its arguments |
| TaskEffects.RecoverySpends | agent_company/ops.py:2007-2030 | any other recovery adds one attempt: below the limit the task opens and the execution is requeued, at the limit they are blocked and exhausted; never unknown |
| TaskEffects.UnknownIsLeftBy | agent_company/ops.py:1399-1436 | a quarantined execution leaves that status iff an accepted cancellation, retirement or compensation of it says so, the last only while its requeue is under way |
| TaskEffects.QuarantineLasts | agent_company/ops.py:1989-2006 | until one of those, no run of whatever calls lets anyone claim the task |
| TaskEffects.FailureReports | agent_company/ops.py:791-828 | a failure keeps attempts, lease and token; the task stays in progress iff it is recoverable, else both rows end |
| TaskEffects.CompletionCloses | agent_company/ops.py:1368-1383 | a completion closes task and execution with the reported summary |
| TaskEffects.CancellationCloses | agent_company/ops.py:1399-1436 | the CEO or the owner ends an unfinished task together with its execution |
| TaskEffects.ReconciliationCloses | agent_company/ops.py:1250-1296 | a reconciliation ends an exhausted task without a result and gives it none |
| TaskEffects.RequeueResets | agent_company/ops.py:954-986 | a governed requeue opens task 145 or 146 with all attempts and no trace of the old process |
| TaskEffects.PublicationEnds | agent_company/ops.py:1048-1050 | once its ledger line is written a requeue can no longer be compensated |
| TaskEffects.CompensationWrites | agent_company/ops.py:1066-1074 | a compensation writes the saved columns over whatever the rows hold; executor, generation, lease and limit stay |
| TaskEffects.PilotRows | agent_company/pilot_gate.py:471-548 | a piloted claim stores token, initiative and artifact set; a piloted completion stores what the verifier returned, in its row and in the binding |
| TaskEffects.CreationAndBinding | agent_company/pilot_gate.py:771-811 | a binding is set on an open task never claimed under the pilot, and keeps its completion fields |
| TaskEffects.DecisionMoves | agent_company/ops.py:1442-1504 | an approval opens exactly the blocked tasks whose reason contains its number, a denial closes them as done; it is refused iff a denial meets a pilot-claimed one |
| TaskEffects.EscalationIsAnswered | agent_company/ops.py:417-423 | a task escalated for an approval is opened by it, or closed by its denial |
| TaskAdmission.ClaimAccepted | agent_company/ops.py:643-716 | a claim is accepted iff the owner claims an open task nobody executes, with positive lease and limit, and under the pilot for the present artifact set and a generation without claim |
| TaskAdmission.HeartbeatAccepted | agent_company/ops.py:718-753 | a heartbeat is accepted iff the executor holds the running execution before its lease ends, with the stored token if any is given, and under the pilot with the token of its claim |
| TaskAdmission.CheckpointAccepted | agent_company/ops.py:755-789 | the same for a checkpoint |
| TaskAdmission.FailureAccepted | agent_company/ops.py:791-828 | a failure report is accepted under lease and token alone |
| TaskAdmission.CompletionAccepted | agent_company/ops.py:1309-1397 | in whole tables a completion is accepted iff the owner completes work in progress under lease, token and claim, and under the pilot with the assurance of its binding |
| TaskAdmission.ControlAccepted | agent_company/ops.py:1399-1504 | exactly when a cancellation, retirement, escalation, reconciliation, attachment or recovery is accepted |
| TaskAdmission.SetupAccepted | agent_company/pilot_gate.py:771-811 | exactly when a task can be created and a binding set |
| TaskAdmission.RequeueAccepted | agent_company/ops.py:927-937 | exactly when a requeue, its publication and its compensation are accepted |
| TaskTables.OnlyAtHash | agent_company/ops.py:1485 | a text with one hash sign contains `#digits` iff the digits are a prefix of what follows it |
| TaskTables.MatchesByPrefix | agent_company/ops.py:1485 | a decision for approval m matches a task waiting for approval n iff the digits of m are a prefix of those of n |
| TaskTables.TwelveMatchesOne | agent_company/ops.py:1485 | the concrete case: approval 1 matches a task waiting for 12, and not the other way round |
| PilotCompletion.TriggersAgree | agent_company/pilot_gate.py:187-260 | while the invariant holds, a completion is accepted iff row conditions, token rule, claim fence and completion decision hold: neither trigger nor the primary key ever aborts it |
| PilotCompletion.CompletionVerdict | agent_company/ops.py:1309-1397 | in every reachable state a completion is accepted iff those checks pass and no compensation has landed on the task after an earlier completion |
| PilotCompletion.WholeExactly | agent_company/ops.py:1066-1074 | a call keeps task, execution, completion row and binding together iff it is not an accepted compensation of a completed pilot task, and that call always reopens the task |
| PilotCompletion.ReopenedForever | agent_company/pilot_gate.py:994-1086 | a pilot task reopened by a compensation never becomes done again, and no completion of it is accepted, in any continuation |
| PilotCompletion.AllOrNothing | agent_company/ops.py:1353-1383 | in every reachable state of a pilot-claimed task, done, execution completed and a verifying completion row are equivalent iff no compensation has landed on the completed task; in any case the row exists iff all three completion fields are set, otherwise none is, and all claims carry the binding's initiative and artifact set |
| PilotCompletion.DoneMeans | agent_company/ops.py:1353-1383 | a completed pilot task no compensation has touched shows one story in all five tables, column by column |
| PilotCompletion.TriggersMean | agent_company/pilot_gate.py:187-260 | what the two triggers demand of task, execution, binding and completion row |
| PilotCompletion.CompletionPassesTriggers | agent_company/ops.py:1353-1383 | an accepted completion passed both triggers, the second with row, fields and execution in place |
| TaskInvariant.SoundStep | agent_company/ops.py:643-1504 | every call keeps the whole invariant: compatible statuses, stamped tokens, completions whole or reopened, requeues under way over exhausted tasks |
| TaskInvariant.CompensationChecksNothing | agent_company/ops.py:1051-1076 | in every reachable state a compensation is accepted iff its requeue is still under way, whatever has become of the task |
| TaskWitness.StaleCompensation | agent_company/ops.py:1048-1076 | a run from the empty tables: requeue, claim and completion, then the compensation of that requeue takes the task from done to blocked, and a pilot task out of its invariant |
| TaskWitness.SecondClaim | agent_company/ops.py:1483-1488 | a run in which a task with a limit of one attempt is claimed twice, because its failure text mentions the number of an unrelated approval |
| TaskStore.CompanyOS.constructor | agent_company/db.py:953-978 | the operating tables start empty, which establishes the invariant |
| TaskStore.CompanyOS.ClaimExecution | agent_company/ops.py:1890-1966 | the upsert moves an open task and takes over only a requeued or exhausted execution, under the next generation |
| TaskStore.CompanyOS.RecordClaimBinding | agent_company/pilot_gate.py:471-556 | a piloted claim is bound once to initiative, artifact set and token; any other claim is left unbound |
| TaskStore.CompanyOS.ClaimTask | agent_company/ops.py:643-716 | is the protocol's claim: same acceptance, same new tables, full rollback on refusal |
| TaskStore.CompanyOS.ActiveExecution | agent_company/ops.py:1870-1888 | an execution is active iff it is held by this executor, runs, its lease has not expired, and a presented token is the stored one |
| TaskStore.CompanyOS.Heartbeat | agent_company/ops.py:718-753 | is the protocol's heartbeat, and keeps the invariant |
| TaskStore.CompanyOS.Checkpoint | agent_company/ops.py:755-789 | is the protocol's checkpoint, and keeps the invariant |
| TaskStore.CompanyOS.Fail | agent_company/ops.py:791-828 | is the protocol's failure report, and keeps the invariant: recoverable keeps the task in progress, otherwise it is blocked and the execution exhausted |
| TaskStore.CompanyOS.RecordCompletion | agent_company/pilot_gate.py:994-1086 | inserts the completion row iff its trigger allows it, and sets all three fields with it |
| TaskStore.CompanyOS.Close | agent_company/ops.py:1368-1383 | completes execution and task together iff both are live and the completion trigger allows it |
| TaskStore.CompanyOS.Complete | agent_company/ops.py:1309-1397 | is the protocol's completion, and keeps the invariant: completion row and status change behind their triggers, all rolled back if one aborts |
| TaskStore.CompanyOS.RecoverExecution | agent_company/ops.py:1979-2041 | is the protocol's recovery; unknown iff a failed execution's process is alive, otherwise one more attempt, and requeued or exhausted by comparison with the limit |
| TaskStore.CompanyOS.Reconcile | agent_company/ops.py:1250-1296 | is the protocol's reconciliation, rolled back if the task has a result |
| TaskStore.CompanyOS.DecideTasks | agent_company/ops.py:1483-1488 | the loop over blocked tasks, in any order, decides exactly the matching ones, or stops iff a denial meets a pilot-bound task |
| TaskStore.CompanyOS.Decide | agent_company/ops.py:1442-1504 | is the protocol's decision over all matching tasks, all or none |
| TaskStore.CompanyOS.BindPilot | agent_company/pilot_gate.py:771-811 | is the protocol's binding: refused once the task has been claimed under the pilot |
| TaskStore.CompanyOS.EnforceDispatch | agent_company/event_engine.py:339-370 | blocks an unclaimed open task after three dispatch attempts and defers its event before |
| OperatingCycle.RecoverStale | agent_company/ops.py:1968-1977 | recovers each stale execution once and no other row, and reports exactly those, each with its fate: quarantined iff failed and alive, else requeued below the limit and exhausted at it |
| OperatingCycle.HeadsInOrder | agent_company/ops.py:401-409 | in priority order, a task is taken up iff its lane is neither busy nor taken by an earlier task |
| OperatingCycle.TwoHeads | agent_company/ops.py:396-434 | at most one product task and one commercial task are taken up, and no other |
| OperatingCycle.HeadIsFree | agent_company/ops.py:393-403 | no open task is taken up while a task of its side works or waits |
| OperatingCycle.StopMeans | agent_company/ops.py:397-434 | the tasks the loop comes to are exactly those not behind the second ready head |
| OperatingCycle.InspectOpen | agent_company/ops.py:396-431 | exactly the first open task of each free lane is taken up: escalated iff it needs an approval, ready otherwise; it succeeds iff every task it comes to has intact recovery records |
| OperatingCycle.RunCycle | agent_company/ops.py:380-449 | a cycle is a run of the protocol; it inspects nothing if it recovers anything, otherwise it fails iff a task it comes to is not intact, and a failure undoes all of it |
| Ordering.OrderBy | agent_company/ops.py:1969-1971 | lists every row once, ordered by the two columns and then the id |
| Ordering.OneListing | agent_company/ops.py:156-159 | there is only one ascending listing of a set of keys |
| Ordering.Newest | agent_company/ops.py:910-912 | the greatest id of a selection, if it is not empty |
| RecoveryLedger.Read | agent_company/integrity.py:80-99 | reads a file iff every line has its sequence number, the hash of the line before and a valid signature |
| RecoveryLedger.Append | agent_company/integrity.py:102-113 | appends one sealed line to a file that reads, and the result reads back as the old values and the new one |
| RecoveryLedger.RacingAppendsBreak | agent_company/integrity.py:102-113 | two lines sealed against the same file and both written leave a file that does not read |
| RecoveryLedger.HeadDeterminesFile | agent_company/integrity.py:80-99 | two valid ledgers with the same head hash are the same file |
| RecoveryLedger.ChainMeans | agent_company/integrity.py:80-99 | a file is a chain iff each line is numbered by its place, names the hash of the line before and signs all this with its values |
| RecoveryLedger.EditBreaks | agent_company/integrity.py:80-99 | no line but the last can be replaced or removed without making the file unreadable |
| RecoveryConflicts.ListAnchors | agent_company/ops.py:144-152 | the ledger values equal the anchor listing iff they list all anchors in ascending record order |
| RecoveryConflicts.CheckAnchors | agent_company/ops.py:156-182 | reports exactly the invalid anchors and the records without one |
| RecoveryConflicts.CheckAudits | agent_company/ops.py:184-192 | reports exactly the requeue audit rows no record refers to |
| RecoveryConflicts.CheckEvents | agent_company/ops.py:185-199 | reports exactly the requeue events no record refers to |
| RecoveryConflicts.CheckRecords | agent_company/ops.py:201-247 | reports exactly the invalid records, and raises iff some record makes the conjunction raise |
| RecoveryConflicts.CheckLedger | agent_company/ops.py:132-154 | reports exactly the broken triggers, an invalid ledger and a mismatch |
| RecoveryConflicts.Conflicts | agent_company/ops.py:92-247 | the reported conflicts are exactly those of the declarative meaning of each conflict |
| RecoveryConflicts.PayloadNamesRecord | agent_company/integrity.py:184-202 | two valid records never share an audit row or an event, because a payload names its record |
| RecoveryConflicts.ConflictFree | agent_company/ops.py:120-247 | no conflict is reported iff records, anchors, audit rows, events and ledger lines correspond one to one, with ledger order equal to record order |
| RecoveryConflicts.OneEntryEach | agent_company/ops.py:120-154 | in a conflict-free state all five stores have the same number of entries |
| RecoveryConflicts.GapIsReported | agent_company/ops.py:152-154 | different numbers of ledger lines and anchors are always reported |
| RecoveryEffects.LedgerDeterminesTables | agent_company/ops.py:120-247 | two conflict-free states with the same ledger values have the same records, anchors, audit rows and events |
| RecoveryEffects.TamperingIsReported | agent_company/ops.py:92-247 | so any change of these tables away from a conflict-free state, in one row or in many, is reported unless the ledger changes with it |
| RecoveryEffects.ValidMeans | agent_company/ops.py:201-247 | what makes a record valid, column by column |
| RecoveryEffects.RaisedMeans | agent_company/ops.py:201-247 | when a record aborts the whole validation instead of being reported |
| RecoveryEffects.AnchorMeans | agent_company/ops.py:156-179 | a valid anchor is determined by its record: task, references, signature and priority, all signed |
| RecoveryEffects.IntactMeans | agent_company/ops.py:266-273 | what the integrity guard of a task demands of the tables |
| RecoveryRequeue.CommitCorresponds | agent_company/ops.py:987-1047 | the rows of a commit keep records, anchors, audit rows and events one to one |
| RecoveryRequeue.AppendCompletes | agent_company/ops.py:1046-1050 | from a conflict-free state, a commit with its append is conflict-free |
| RecoveryRequeue.CrashIsReported | agent_company/ops.py:1046-1050 | from a conflict-free state, a commit without its append is reported as a ledger mismatch |
| RecoveryRequeue.CompensationRestores | agent_company/ops.py:1051-1076 | the compensation restores every row of every table exactly; only the sequences stay advanced |
| RecoveryEffects.RecordTells | agent_company/ops.py:954-1008 | the record shows task and execution as they were and as they became, the process that is gone, and its own audit row and event |
| RecoveryEffects.CompensationRepairs | agent_company/ops.py:1051-1076 | a compensation deletes its four rows, writes the saved columns back and repairs the triggers |
| RecoveryStore.LedgerNeverBlocks | agent_company/ops.py:266-273 | the integrity guard gives the same answer for any two ledger files |
| RecoveryStore.CommitIgnoresLedger | agent_company/ops.py:892-953 | so does the decision whether a requeue commits |
| RecoveryEffects.DeathProof | agent_company/ops.py:2089-2106 | death is proven iff a process is recorded and the probe finds none; neither a refused probe nor another process under the same id proves it |
| RecoveryEffects.AliveMeans | agent_company/ops.py:2089-2106 | a process counts as alive iff it exists and its start is the recorded one if one was recorded |
| RecoveryEffects.CommitNeeds | agent_company/ops.py:869-937 | a commit needs the CEO, a governed blocked task without result, exhausted attempts and a proven death, and a task state not recorded before |
| RecoveryEffects.CommitIsNew | agent_company/ops.py:987-1043 | neither this state of the task nor an anchor for the rows to come is recorded yet |
| RecoveryEffects.CommitsExactly | agent_company/ops.py:869-953 | a requeue commits iff request, task, execution and process are as demanded, the tables intact and nothing of it recorded yet |
| RecoveryEffects.CommitNeedsApproval | agent_company/ops.py:938-953 | task 146 also needs that the newest approval in favour of task 145 is a genuine one of its decision package by the Chairman |
| RecoveryEffects.RepetitionMeans | agent_company/ops.py:910-926 | a request repeats the newest recovery iff it gives the same reason and both rows are still as the record says |
| RecoveryEffects.ReconciledIsFinal | agent_company/ops.py:899-900 | a reconciled task or execution is beyond recovery |
| RecoveryEffects.RepetitionIsRecognised | agent_company/ops.py:910-926 | right after a requeue, the same request is a repetition iff it gives the same reason, and commits nothing either way |
| RecoveryStore.RequeueingKeeps | agent_company/ops.py:1046-1076 | an uninterrupted requeue keeps consistent stores consistent, a readable ledger readable, and the gap between anchors and ledger as it is |
| RecoveryStore.Stores.AssertIntegrity | agent_company/ops.py:266-273 | passes iff no schema, trigger or provenance conflict exists and none names the task |
| RecoveryStore.Stores.LatestRecord | agent_company/ops.py:910-912 | finds the newest recovery record of a task, if there is one |
| RecoveryStore.Stores.Judge | agent_company/ops.py:869-953 | proceeds, repeats or refuses exactly under the stated conditions, including the proof of process death and the approval of task 145 |
| RecoveryStore.Stores.Task145Approved | agent_company/ops.py:938-953 | task 145 counts as approved iff the newest selected approval carries both signatures, the summary and the Chairman's name |
| RecoveryStore.Stores.Transact | agent_company/ops.py:892-1047 | commits iff admitted; from a conflict-free state a crash right after it is reported |
| RecoveryStore.Stores.Requeue | agent_company/ops.py:861-1078 | one uninterrupted requeue: both stores extended, or all rows restored when the append fails or the ledger does not read, or nothing changed; the answer names a record of the task, the new one if it is the only one |
| RecoveryStore.ProtocolSteps | agent_company/ops.py:954-1076 | a commit is the protocol's requeue, and its compensation undoes it |
| RecoveryStore.CommitsAdmitted | agent_company/ops.py:935-975 | an admitted commit writes the rows of a requeue the protocol admits |
| RecoveryRuns.IdentityKept | agent_company/ops.py:643-1504 | no call of the task protocol deletes a task or execution row or changes the columns a recovery record signs as identity |
| RecoveryRuns.ConflictFreeExactly | agent_company/ops.py:892-1078 | from a conflict-free state, after any interleaving of task calls, commits, appends, compensations and deaths of any number of processes, records, anchors, audit rows and events still correspond one to one, and no conflict is reported iff no requeue is under way, every line was appended in commit order and no process died between commit and append |
| RecoveryRuns.MismatchForever | agent_company/ops.py:1046-1050 | once a line is out of order or a process has died there, the ledger mismatch is reported in every continuation |
| RecoveryRuns.DeedKeeps | agent_company/ops.py:954-1076 | every step of every process keeps the invariant: one-to-one tables, a chained ledger of distinct anchors, and each anchor in the ledger, waiting for its line, or of a dead process |
| RecoveryRuns.UndoneCorresponds | agent_company/ops.py:1051-1074 | a compensation that lands among other requeues removes exactly its own record, anchor, audit row and event |
| RecoveryRuns.GuardPasses | agent_company/ops.py:266-273 | in all these states the integrity guard passes for every task |
| RecoveryRuns.RequeueIsRun | agent_company/ops.py:1046-1076 | an uninterrupted requeue is a commit followed by its append, or by its compensation |
| RecoveryWitness.LateAppendDisagrees | agent_company/ops.py:1046-1050 | two requeues commit and append without failure or crash, the later one first: every anchor has its line, and the mismatch is reported ever after |
| RecoveryRuns.UnreadableForever | agent_company/integrity.py:102-113 | an unreadable ledger stays as it is in every run, and every requeue that commits then is rolled back |
| ManifestDag.WalkDescends | agent_company/assurance.py:1492-1504 | every walk leads down a topological order |
| ManifestDag.OrderedIsAcyclic | agent_company/assurance.py:1492-1504 | a complete topological order excludes cycles |
| ManifestDag.Walker.Visit | agent_company/assurance.py:1492-1500 | the depth-first visit ends, extends the order by the node, and fails only on a real cycle |
| ManifestDag.Walker.Search | agent_company/assurance.py:1501-1504 | the search fails iff the graph has a directed cycle |
| ManifestDag.ValidateEdges | agent_company/assurance.py:1476-1504 | a manifest is accepted iff its edges are well-formed and acyclic; otherwise the first error is reported |
| ManifestDag.CycleMeans | agent_company/assurance.py:1476-1504 | the graph is cyclic iff some sequence of edges leads from a node back to it |
| LifecycleChain.Validate | agent_company/assurance.py:571-605 | a chain validates iff sequence, statuses, links and signatures fit and it ends in the stored status |
| LifecycleChain.RecordKeepsChain | agent_company/assurance.py:541-569 | recording a change from the last status keeps the chain valid |
| LifecycleChain.HeadDeterminesChain | agent_company/completion_verifier.py:96-130 | two validating chains of a version with the same head signature are equal entry by entry |
| LifecycleChain.ChainMeans | agent_company/assurance.py:571-605 | a chain is valid iff each row is numbered by its place, signs its change and starts from status and signature of the row before |
| AssuranceSafety.RecordedStep | agent_company/db.py:725-741 | every operation keeps every chain valid, ending in the stored status |
| AssuranceSafety.ChainsValidate | agent_company/assurance.py:541-605 | in every reachable state the chain of every artifact validates and its body matches its hash |
| AssuranceSafety.SoundStep | agent_company/assurance.py:720-1366 | every operation keeps the invariant: valid chains, gates that bind only once-approved versions with unchanged digests, and stages to resume to for blocked initiatives only |
| AssuranceSafety.GateBindsApproved | agent_company/assurance.py:929-940 | a recorded gate binds every version approved in its initiative at that moment |
| AssuranceSafety.DeadGate | agent_company/assurance.py:732-748 | a gate recorded while a version was approved never authorises again once that version is superseded or stale, in any continuation |
| AssuranceSafety.ApprovalSuspendsGates | agent_company/assurance.py:1317-1366 | as long as a newly approved version stays approved, no gate decision recorded before in its initiative authorises anything, in any continuation |
| AssuranceSafety.SupersedingRevivesGates | agent_company/assurance.py:740-748 | an approval followed by a supersession on which nothing approved depends leaves every gate decision exactly as live as before |
| AssuranceSafety.TransitionNeedsLiveGate | agent_company/assurance.py:732-748 | so a gated transition whose latest gate is dead is refused |
| AssuranceEffects.GateStoresDecision | agent_company/assurance.py:929-940 | a recorded decision is one new row with initiative, gate, decision and expiry as given, bound to the approved set, and is then the latest of its gate |
| AssuranceEffects.GateNeeds | agent_company/assurance.py:862-930 | a decision references exactly the approved versions, unchanged and owned by others; a conditional pass has conditions and an expiry |
| AssuranceEffects.GateNeedsKinds | agent_company/assurance.py:885-895 | a decision needs an approved version of every kind its gate is about |
| AssuranceEffects.GateAccepted | agent_company/assurance.py:855-945 | a decision is accepted iff it names exactly the approved set, nothing of it the decider's or changed, every kind of its gate among it, and a conditional pass its conditions and expiry |
| AssuranceEffects.DecisionDecides | agent_company/assurance.py:740-748 | right after it is recorded, a decision authorises iff it is a pass, conditional or not, without expiry or before it |
| AssuranceEffects.NegativeDecisionStands | agent_company/assurance.py:732-748 | after a return, block or rejection no transition behind that gate is accepted in any continuation without another accepted decision of it; a pass ends so when it expires |
| AssuranceEffects.LiveGateMeans | agent_company/assurance.py:740-748 | a gate row authorises iff it passed, has not expired, binds the present approved set and no approved body was changed |
| AssuranceEffects.GatedTransitions | agent_company/assurance.py:720-785 | which transition needs which gate, and which a trusted evaluation |
| AssuranceEffects.TransitionAccepted | agent_company/assurance.py:720-796 | a transition is accepted iff the graph has it, its gate is open, and what is released is trusted |
| AssuranceEffects.GatedStages | agent_company/assurance.py:71-76 | which stage is entered under which gate, and that no other is |
| AssuranceState.ClosedUnderPaths | agent_company/assurance.py:970-1001 | a set closed under links contains everything its members lead to |
| AssuranceKernel.ClosureExact | agent_company/assurance.py:970-979 | an empty frontier means that exactly the dependents of the source were seen |
| AssuranceKernel.Kernel.MarkStale | agent_company/assurance.py:980-994 | every approved version of a dependent becomes stale, once, with its lifecycle row |
| AssuranceKernel.Kernel.Expand | agent_company/assurance.py:973-979 | following the links of one artifact keeps the frontier and marks each new dependent |
| AssuranceKernel.Kernel.Supersede | agent_company/assurance.py:947-1001 | terminates on any links; exactly the approved versions of other artifacts reachable by one or more links become stale, `invalidated` lists each once, nothing else changes |
| AssuranceKernel.LinkIsNew | agent_company/db.py:645-653 | an edge can be inserted iff it repeats no link |
| AssuranceKernel.Kernel.Register | agent_company/assurance.py:1224-1315 | inserts artifact, lifecycle row, initiative and links, or nothing |
| AssuranceEffects.RegistrationStores | agent_company/assurance.py:1224-1315 | a registration stores the version as a draft with its hash and first lifecycle row, its links, and a new initiative in discovery |
| AssuranceEffects.LinksDistinct | agent_company/db.py:645-653 | no link of an initiative is ever stored twice |
| AssuranceEffects.ApprovalStores | agent_company/assurance.py:1317-1366 | an approval turns an intact draft of another owner into an approved version, and changes nothing else |
| AssuranceEffects.SupersessionStores | agent_company/assurance.py:947-1001 | a supersession ends its version; exactly the approved dependents of other artifacts become stale, and nothing else changes |
| AssuranceEffects.OthersAccepted | agent_company/assurance.py:798-853 | exactly when versions are approved or superseded, and initiatives created, blocked or resumed |
| AssuranceKernel.Kernel.LatestGate | agent_company/assurance.py:733-739 | finds the newest decision of a gate in an initiative |
| AssuranceKernel.Kernel.RecordGate | agent_company/assurance.py:855-945 | records a decision iff it references exactly the approved set, none of it owned by the principal; the new row carries initiative, gate, decision and expiry as given |
| AssuranceKernel.Kernel.GatePasses | agent_company/assurance.py:740-748 | a gate passes iff its latest decision passes, has not expired and binds the present approved set |
| AssuranceKernel.Kernel.Transition | agent_company/assurance.py:720-796 | moves an initiative iff the graph, the gate and the evaluation checks allow it |
| AssuranceHistory.ApprovedForBuildHistory | agent_company/assurance.py:48-76 | every entry to `approved_for_build` follows, since the last entry to `design_draft`, exactly the build path, with G1 to G4 passing, unexpired and current at their steps |
| AssuranceHistory.DeployedAfterCandidate | agent_company/assurance.py:59-68 | every entry to `enabled_or_deployed` comes after one to `release_candidate` |
| AssuranceHistory.ReleaseHistory | agent_company/assurance.py:59-68 | every approved release comes straight from an independent evaluation, with G5 for the candidate and G6 for the decision |
| AssuranceHistory.DeploymentHistory | agent_company/assurance.py:62-72 | every deployment follows an approval, verified conditions or a resolved incident |
| AssuranceHistory.GraphTransposes | agent_company/assurance.py:48-70 | the lifecycle graph read backwards: the predecessors of every stage |
| AssuranceHistory.FinalStages | agent_company/assurance.py:48-70 | no transition leaves a final or blocked stage |
| AssuranceHistory.ExplainsStep | agent_company/assurance.py:798-853 | transitions, blocks and resumptions keep the status equal to the stage reached, or blocked over it |
| AssuranceHistory.StatusIsReached | agent_company/assurance.py:787-791 | outside blocks, the status of an initiative is the target of its last accepted transition |
| AssuranceHistory.OnlyResumeUnblocks | agent_company/assurance.py:831-853 | a call takes a blocked initiative out of `blocked` iff it resumes it to a recorded stage other than `blocked`, and then to that stage |
| AssuranceHistory.ResumeUndoesBlock | agent_company/assurance.py:831-853 | resuming right after a block restores the stage |
| AssuranceHistory.SecondBlockSticks | agent_company/assurance.py:808 | a blocked initiative can be blocked again, and is then stuck |
| AssuranceHistory.StuckForever | agent_company/assurance.py:831-853 | a stuck initiative stays blocked in every continuation |
| EvaluationStore.WalkChain | agent_company/trusted_evaluator.py:249-276 | accepts a chain iff every entry links to the one before, in order of issue |
| EvaluationStore.Ledger.RegisterPrincipal | agent_company/assurance.py:373-474 | registers or rotates a principal, keeping its creation time, and records evaluator credentials |
| EvaluationStore.Ledger.EnsureProvenance | agent_company/trusted_evaluator.py:246-306 | accepts a valid chain that ends in the current credential, or starts one |
| EvaluationStore.Ledger.EnsureContract | agent_company/trusted_evaluator.py:308-340 | returns a signed contract of the same budget, or creates it |
| EvaluationStore.Ledger.CreateContract | agent_company/trusted_evaluator.py:342-364 | issues provenance and contract together, or neither |
| EvaluationStore.Ledger.RecordRun | agent_company/trusted_evaluator.py:427-522 | appends one run with initiative, material, status, evaluator and time as reported, or changes nothing |
| EvaluationStore.Ledger.Append | agent_company/trusted_evaluator.py:439-512 | the transaction succeeds iff evaluator, chain, contract, budget and chronology allow it, and then appends exactly the reported run |
| EvaluationEffects.RunStoresReport | agent_company/trusted_evaluator.py:463-512 | an accepted report appends one run with exactly what was reported, and changes no other run |
| EvaluationEffects.RunsAreReports | agent_company/trusted_evaluator.py:427-522 | from a fresh ledger, the k-th stored run of an initiative is the k-th accepted report about it, with its material, status, principal and time |
| EvaluationEffects.AcceptedMeansCompleted | agent_company/completion_verifier.py:513-544 | a ledger is accepted only if the last accepted report about the initiative was a completion, within three reports |
| EvaluationEffects.RunIsSignedIn | agent_company/trusted_evaluator.py:439-512 | a run is signed under the credential its evaluator holds at that moment, the last of a valid chain, and neither credential nor contract is younger than the run |
| EvaluationEffects.WritersAreEvaluators | agent_company/trusted_evaluator.py:187-192 | only an active Trusted Evaluator operator reports, creates contracts or quarantines, within the budget |
| EvaluationEffects.ReportAccepted | agent_company/trusted_evaluator.py:427-522 | a report is accepted iff a credited evaluator makes it within the budget of an initiative that is not quarantined, and neither credential nor contract is younger |
| EvaluationEffects.OthersAccepted | agent_company/trusted_evaluator.py:342-364 | exactly when contracts, quarantines, revocations and registrations are accepted |
| EvaluationEffects.ContractStoresBudget | agent_company/trusted_evaluator.py:308-340 | the budget of an initiative is the one of its first call, and no later call changes it |
| EvaluationStore.Ledger.ProvenanceValid | agent_company/completion_verifier.py:324-362 | finds the credential a run was signed under, whichever rotation that was |
| EvaluationStore.Ledger.CurrentValid | agent_company/completion_verifier.py:382-444 | the evaluator's present credential heads a valid chain |
| EvaluationStore.Ledger.RunValid | agent_company/completion_verifier.py:288-487 | accepts a run iff the declarative conditions hold |
| EvaluationStore.Ledger.LedgerValid | agent_company/completion_verifier.py:490-544 | accepts a ledger iff contract, attempts, runs and chronology are valid and the last attempt completed |
| EvaluationEffects.AcceptedMeans | agent_company/completion_verifier.py:288-487 | what the acceptance of a run means, condition by condition |
| EvaluationEffects.LedgerMeans | agent_company/completion_verifier.py:490-544 | what the acceptance of a ledger means: runs in turn and in order of time within a signed budget, the last one completed |
| EvaluationEffects.CredentialsMean | agent_company/trusted_evaluator.py:249-276 | a credential chain is valid iff each is numbered by its place, not older than the one before, linked to it and signed |
| EvaluationSafety.ChainGrows | agent_company/assurance.py:433-472 | issuing a fresh credential keeps the chain valid and heads it |
| EvaluationSafety.SoundStep | agent_company/trusted_evaluator.py:463-512 | every writer keeps chains, contracts and runs sound under a clock that does not go back |
| EvaluationSafety.AttemptsContiguous | agent_company/trusted_evaluator.py:463-468 | attempts are exactly 1..n with n at most the budget, at most 3, after any history |
| EvaluationSafety.EveryRunAccepted | agent_company/completion_verifier.py:370-442 | after any history, a stored run is accepted, also when signed under an earlier credential, iff its evaluator is an active Trusted Evaluator operator whose credential is the last one issued to it |
| EvaluationSafety.ReusedCredentialDisowns | agent_company/assurance.py:433-472 | registering an evaluator under an earlier credential succeeds, its insertion is ignored, and all runs of that evaluator are rejected |
| EvaluationSafety.AcceptedWhileActive | agent_company/assurance.py:384-385 | with credentials that are always new, a stored run is accepted iff its evaluator is active |
| EvaluationSafety.RevocationRejects | agent_company/assurance_credentials.py:92-101 | after a revocation no run of that evaluator is accepted, whichever credential signed it |
| EvaluationSafety.QuarantineForever | agent_company/trusted_evaluator.py:524-535 | a quarantined initiative stays so and never gets another run, in any continuation |
| EvaluationSafety.LedgerAcceptedExactly | agent_company/completion_verifier.py:513-544 | after any history, a ledger is accepted iff all its evaluators are active under their last credential and its last attempt completed |
| EvaluationSafety.TabledStep | agent_company/trusted_evaluator.py:284-305 | every writer, at any time, keeps the credential rows signed, owned and distinct |
| EvaluationSafety.TabledIsKeyed | agent_company/trusted_evaluator.py:284-305 | such tables meet the uniqueness the readers rely on |
| GitTreeCodec.DecodeInvertsEncode | agent_company/phase_d_redesign.py:930-972 | bytes decode to a tree iff the tree is safe and encodes to those bytes |
| GitTreeCodec.DecodedTreeEncodes | agent_company/phase_d_redesign.py:930-972 | what is decoded encodes back to the bytes read, with safe distinct names |
| GitTreeCodec.EncodedTreeDecodes | agent_company/phase_d_redesign.py:930-972 | every safe tree is decoded from its encoding |
| GitTreeCodec.EncodeInjective | agent_company/phase_d_redesign.py:930-972 | two safe trees with the same bytes are equal |
| GitTreeCodec.SafeMeans | agent_company/phase_d_redesign.py:945-958 | a safe name is a single step downwards, without slash or NUL |
| GitInventory.TreeReader.ReadTree | agent_company/phase_d_redesign.py:926-977 | terminates on every store, also cyclic and shared; succeeds iff the tree is readable, and records exactly its walk |
| GitInventory.ReadableMeaning | agent_company/phase_d_redesign.py:926-977 | a tree is readable iff everything reachable decodes and no tree contains itself |
| GitInventory.WalkIsExact | agent_company/phase_d_redesign.py:926-977 | a node is walked iff its names lead to it from the root |
| GitInventory.JoinInjective | agent_company/phase_d_redesign.py:945-950 | distinct safe name chains have distinct paths |
| GitInventory.SamePathSameNode | agent_company/phase_d_redesign.py:945-950 | distinct nodes never share a path |
| GitInventory.Inventory | agent_company/phase_d_redesign.py:914-981 | lists exactly the root-to-node paths; file paths and directory paths are disjoint |
| PathBounds.SegmentTracks | agent_company/phase_d_redesign.py:1855-1873 | an operand extends the coordinates as drawing its segment extends the vertices |
| PathBounds.CloseTracks | agent_company/phase_d_redesign.py:1843-1851 | closing a subpath without moving the cursor keeps the extent |
| PathBounds.Bounds | agent_company/phase_d_redesign.py:1799-1878 | fails exactly on unsupported paths; otherwise returns the tightest box of the vertices that section 8.3 of SVG 1.1 (Second Edition) draws |
| BoundedSvg.WeightedBounds | agent_company/phase_d_redesign.py:1779-1781 | a convex combination stays within the bounds of its parts |
| BoundedSvg.HullOnCanvas | agent_company/phase_d_redesign.py:1964-1986 | every convex combination of points is on the canvas iff the points are |
| BoundedSvg.EllipseOnCanvas | agent_company/phase_d_redesign.py:1938-1950 | every point of an ellipse is on the canvas iff its box is |
| BoundedSvg.DiscOnCanvas | agent_company/phase_d_redesign.py:1930-1937 | every point within the radius of the centre is on the canvas iff the box of the circle is |
| BoundedSvg.SegmentOnCanvas | agent_company/phase_d_redesign.py:1951-1963 | every point between the ends of a line is on the canvas iff all four coordinates are in range |
| BoundedSvg.RectFits | agent_company/phase_d_redesign.py:1919-1929 | a rectangle, x and y defaulting to 0, paints on the canvas only iff its corners are on it |
| BoundedSvg.FitsExactly | agent_company/phase_d_redesign.py:1919-1986 | for each kind, the test on the attributes holds iff they read and every point the element paints by their meaning is on the canvas |
| BoundedSvg.AdmissibleMeans | agent_company/phase_d_redesign.py:1880-1918 | an admissible element has only the listed attributes of its kind, no transform, no stroke and no unreadable paint |
| BoundedSvg.CheckGeometry | agent_company/phase_d_redesign.py:1919-1986 | an element has no geometry reason iff its attributes read and every point they paint is on the canvas; otherwise the reason says which of the two fails |
| BoundedSvg.CheckElement | agent_company/phase_d_redesign.py:1880-1986 | an element has no reason iff it is in the supported subset and paints on the canvas only; otherwise the reasons are those of the first check it fails |
| BoundedSvg.ValidateBoundedSvg | agent_company/phase_d_redesign.py:1721-1990 | reports bounded iff canvas and every element are admissible; then every point painted lies in the square of side 512; the reasons are those of canvas and elements in order |
| BoundedSvg.StrokesOnCanvas | agent_company/phase_d_redesign.py:1799-1878 | every point of every drawn stroke of a bounded path is on the canvas |
| EventQueue.CoherentStep | agent_company/event_engine.py:205-261 | every commit and every crash keeps at most one event processing, in line with the worker |
| EventQueue.NothingLost | agent_company/event_engine.py:263-326 | in any continuation an event is still there with its content, claimed exactly `attempts` times, and unchanged once processed or failed |
| EventQueue.OneProcessing | agent_company/event_engine.py:205-231 | in every reachable state at most one event is processing, and it is the worker's |
| EventQueue.RestartRecovers | agent_company/event_engine.py:205-231 | after a crash anywhere, a restarted worker finds every unacknowledged event pending |
| EventQueue.ClaimTakesGreatest | agent_company/event_engine.py:233-261 | a claim takes the due event of greatest priority, then earliest availability, then lowest id, and no other row changes |
| EventQueue.EnqueueAdds | agent_company/db.py:1606-1639 | an enqueue adds one pending event under a new id |
| EventEffects.ChosenIsFirst | agent_company/event_engine.py:236-241 | the claim takes the waiting event of highest priority, then earliest availability, then lowest id |
| EventEffects.ClaimMarks | agent_company/event_engine.py:233-261 | the claimed event is processing under the worker with one more attempt, and no other event changes |
| EventEffects.AcknowledgedForGood | agent_company/event_engine.py:306-326 | an acknowledged event is processed at that time, and in every continuation stays as it is and is never claimed again |
| EventEffects.RejectedForGood | agent_company/event_engine.py:462-473 | the same for a rejected event: failed, with its error, for good |
| EventEffects.DeferredUntil | agent_company/event_engine.py:430-440 | a deferred event is pending for the time given, and nobody claims it before, in any continuation |
| EventEffects.InterruptionReturns | agent_company/event_engine.py:278-296 | an error gives the event back at once; a crash leaves it to the next start |
| EventEffects.StartReturns | agent_company/event_engine.py:205-231 | a start returns what was processing and nothing else |
| EventEffects.LockIsExclusive | agent_company/event_engine.py:90-138 | while a worker holds the lock, acquiring it changes nothing |
| EventEffects.EnqueueStores | agent_company/db.py:1606-1639 | an event enters as it was given, pending and untried, under the next id |
| EventEngine.Engine.RecoverProcessing | agent_company/event_engine.py:205-231 | is the queue's recovery, of at most one event |
| EventEngine.Engine.ClaimOne | agent_company/event_engine.py:233-261 | is the queue's claim, and finds an event iff one is due |
| EventEngine.Engine.AcknowledgeEvent | agent_company/event_engine.py:306-326 | sets exactly the claimed event to processed, with the time, and frees the worker |
| EventEngine.Engine.DeferEvent | agent_company/event_engine.py:430-440 | sets exactly the claimed event to pending for the given time with its error, and frees the worker |
| EventEngine.Engine.DeadLetterEvent | agent_company/event_engine.py:464-473 | sets exactly the claimed event to failed with its error, and frees the worker |
| EventEngine.Engine.GiveBackEvent | agent_company/event_engine.py:278-296 | after an error no event is processing and nobody holds the lock; the event is pending again with its content, attempts and availability |
| EventEngine.Engine.ProcessOne | agent_company/event_engine.py:263-330 | claims the greatest due event and leaves it processed, deferred, failed or given back as its outcome demands |
| CeoSafety.SoundStep | agent_company/ceo_runtime.py:627-687 | every step of every session keeps the invariants |
| CeoSafety.VersionsContiguous | agent_company/ceo_runtime.py:862-889 | in every reachable state versions are 1..n, the active directive version is the number of directives, and every version has a cause of its own |
| CeoSafety.AppliedSawCurrent | agent_company/ceo_runtime.py:662-687 | a run is applied iff the row it saw is the current row; otherwise it is superseded and only its own run row changes |
| CeoSafety.NoLostUpdate | agent_company/ceo_runtime.py:662-889 | in every reachable state each version was made from the one right before it: by a directive, which keeps its content, or by a run that had read exactly that row |
| CeoSafety.ReingestIdempotent | agent_company/ceo_runtime.py:384-397 | ingesting a message again at any later time changes nothing |
| CeoSafety.OneDirectivePerMessage | agent_company/db.py:1256-1271 | a message is ingested at most once |
| CeoSafety.ActionsRespectLanes | agent_company/ceo_runtime.py:798-835 | however many tasks a response asks for, it adds at most one to a lane, only to a free lane, and never a title that exists |
| CeoEffects.DirectiveStores | agent_company/ceo_runtime.py:398-456 | a new message becomes the next directive with its content, a version of the state under it, and one announcement |
| CeoEffects.EveryDirectiveAnnounced | agent_company/ceo_runtime.py:428-456 | in every reachable state each directive has been announced exactly once, in order |
| CeoEffects.PatchApplies | agent_company/ceo_runtime.py:764-795 | an applied patch sets exactly the parts it names and keeps the rest; one that changes nothing appends no version |
| CeoEffects.LateRunIsSuperseded | agent_company/ceo_runtime.py:665-678 | a run that comes too late changes its own row only |
| CeoEffects.RunRowStores | agent_company/ceo_runtime.py:627-661 | a run row holds what the snapshot read, and ends with the classified error |
| CeoEffects.SessionAccepted | agent_company/ceo_runtime.py:627-712 | exactly when each step of a reasoning session is possible |
| CeoEffects.ActionMeans | agent_company/ceo_runtime.py:796-857 | each action: a task is refused for its title or for a taken side, otherwise created active; a request becomes an approval |
| CeoRuntime.Runtime.AppendState | agent_company/ceo_runtime.py:862-889 | appends iff the expected version is still the latest |
| CeoRuntime.Runtime.IngestDirective | agent_company/ceo_runtime.py:363-456 | is the ingest step; the result names the directive of that message |
| CeoRuntime.Runtime.PerformActions | agent_company/ceo_runtime.py:796-857 | performs the actions in order, each on the result of the ones before |
| CeoRuntime.Runtime.ConcludeRun | agent_company/ceo_runtime.py:676-713 | applies or supersedes by comparison with the current row |

## Left out

- Task creation (`create_task`, seeding, CEO tasks): any open row may be created, so the WIP-lane, owner and title checks of `create_task` are not modelled; they would add easy members.
- Gate decisions, runtime fences, execution bindings, the kill switch, recovery integrity, role authentication and process liveness enter the task protocol as booleans; the claim fence and the completion triggers are modelled.
- The claim binding and its history row are one entry, because they are written together and both immutable; columns that no guard reads (backend, evidence and log paths, `claimed_at`, `created_at`) are omitted.
- `_migrate_organization` may cancel any unfinished task here; which owners are obsolete is not modelled.
- TaskSafety.RetryBudget: excludes governed requeues and compensations of the task within the counted run, because a governed requeue resets the attempts.
- TaskSafety.Fencing: covers calls that present a token; what happens without one is stated by OmittedTokenIsUnfenced.
- RecoveryStore.Stores.Requeue: one uninterrupted requeue and an append that fails before it writes; partial appends are not modelled, and the reason is taken as already stripped.
- RecoveryRuns.ConflictFreeExactly: an append reads the file and writes its line in one step; RacingAppendsBreak says what happens when two of them overlap.
- JSON columns are symbolic: a task row, an execution row, a process proof, another object, a non-object, or no JSON; an object that merely looks like a task row in some fields counts as another object, and numbers equal to booleans are not identified.
- Signature keys, file modes, symlinks and permission checks of the key and ledger files.
- TaskStore.CompanyOS.Reconcile: the change of the two rows; the commit, verdict and replay checks, the reconciliation table with its signature and `reconciliation_conflicts` are one boolean.
- AssuranceKernel.Kernel.Register: artifact profiles, manifest references and the initiative contract are one boolean.
- AssuranceKernel.Kernel.RecordGate: review contents and content schemas are one boolean.
- AssuranceKernel.Kernel.Transition: the trusted evaluation check of G5, G6 and the release stages is one boolean, because the two sides of it disagree on the signed fields.
- EvaluationStore.Ledger.RecordRun: argument, manifest, content and evidence file checks are one boolean.
- EvaluationStore.Ledger.Append: the same checks, done before the transaction.
- EvaluationSafety.EveryRunAccepted: assumes a clock that does not go back, and leaves evidence files and manifests to the reader's boolean.
- Handoffs, token sums, change classification, profile validators, dashboards, command line and configuration would add only easy members.
- BoundedSvg.ValidateBoundedSvg: starts from elements and lexed attributes, and idealises floats as reals; XML parsing, the attribute lexers and the finiteness test are not modelled.
- GitInventory.Inventory: paths are bytes, so the decoding of file names to text is taken as injective; object hashes are checked by the store, and the comparison with files on disk is not modelled.
- EventQueue.NothingLost: the deletion of an event by the compensation of a failed requeue belongs to the recovery model; wake-ups, timeouts and the recovery wake are ordinary enqueues here.
- CeoState: delivery of approvals, prompts, the reasoner and protocol validation; the tables that actions write may change in any way between the steps of a run.
