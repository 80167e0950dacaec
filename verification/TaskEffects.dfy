/**
 What the calls of the operating protocol mean for their callers: what a claim, a heartbeat, a
 checkpoint, a failure, a recovery and a decision leave behind, and how long it lasts.
 */
module TaskEffects {
  import opened Common
  import opened TaskTables
  import opened TaskProtocol
  import opened TaskSafety

  // The step changes no row but the two of this task, and no pilot table.
  predicate OnlyRowsOf(s: State, n: State, id: int) {
    && id in n.tasks && n.tasks == s.tasks[id := n.tasks[id]]
    && (if id in n.executions then n.executions == s.executions[id := n.executions[id]]
        else n.executions == s.executions)
    && n.bindings == s.bindings && n.claims == s.claims && n.completions == s.completions
  }

  // --- Leases ---------------------------------------------------------------------------------------

  // Who may call: the holder of the running execution, with its token if one is given, before
  // the lease ends.
  lemma OnlyTheHolder(s: State, id: int, op: Op, now: int)
    requires op.Heartbeat? || op.Checkpoint? || op.Fail? || op.Complete?
    requires Accepts(s, id, op, now)
    ensures id in s.tasks && id in s.executions && op.intact && (!op.Fail? ==> op.fenceAllowed)
    ensures s.executions[id].status == Running && now < s.executions[id].leaseExpires
    ensures op.token.Some? ==> s.executions[id].token == op.token
    ensures if op.Complete? then s.tasks[id].owner == op.actor && s.tasks[id].status == InProgress
            else s.executions[id].executor == op.executor
  {
  }

  // A task claimed under the pilot is only served with its token, under the binding it was
  // claimed for, and completed with the assurance of that binding.
  lemma PilotCallsAreBound(s: State, id: int, op: Op, now: int)
    requires op.Heartbeat? || op.Checkpoint? || op.Complete?
    requires Accepts(s, id, op, now) && PilotBound(s, id)
    ensures op.token.Some? && id in s.executions && id in s.bindings && s.bindings[id].pilot
    ensures var key := (id, s.executions[id].generation);
            && key in s.claims && op.token == s.executions[id].token == Some(s.claims[key].token)
            && s.bindings[id].initiative == s.claims[key].initiative
            && s.bindings[id].artifactSet == Some(s.claims[key].artifactSet)
    ensures op.Complete? ==> op.assurance.Some? && s.bindings[id].initiative == "pilot-c2-approved-for-build"
                             && op.assurance.value.initiative == s.bindings[id].initiative
                             && Some(op.assurance.value.artifactSet) == s.bindings[id].artifactSet
  {
    hide Recordable;
  }

  // Under a binding to the pilot the same calls need a claim of the present generation.
  lemma PilotNeedsClaim(s: State, id: int, op: Op, now: int)
    requires op.Heartbeat? || op.Checkpoint? || op.Complete?
    requires Accepts(s, id, op, now) && id in s.bindings && s.bindings[id].pilot
    ensures id in s.executions && (id, s.executions[id].generation) in s.claims && op.token.Some?
  {
    hide Recordable;
    assert (id, s.executions[id].generation) in s.claims.Keys;
  }

  // A claim starts a new generation for its executor, and keeps what the last one had reached.
  lemma ClaimStarts(s: State, id: int, op: Op, now: int)
    requires op.ClaimTask? && Accepts(s, id, op, now)
    ensures op.lease > 0 && op.maxAttempts > 0 && op.intact && op.dispatchAllowed
    ensures id in s.tasks && s.tasks[id].status == Open && s.tasks[id].owner == op.actor
    ensures id in s.executions ==> s.executions[id].status == Requeued || s.executions[id].status == Exhausted
    ensures var n := Step(s, Call(id, op, now));
            && id in n.tasks && id in n.executions
            && n.tasks == s.tasks[id := s.tasks[id].(status := InProgress, updatedAt := now)]
            && n.executions == s.executions[id := n.executions[id]]
            && var e := n.executions[id];
               && e.executor == op.executor && e.status == Running && e.maxAttempts == op.maxAttempts
               && e.heartbeatAt == now && e.leaseExpires == now + op.lease && e.lastError == None && e.updatedAt == now
               && e.processId == op.process.id && e.processStart == op.process.start && e.session == op.process.session
               && e.token == Some(Token(e.generation, op.nonce))
               && (if id in s.executions then
                     e.generation == s.executions[id].generation + 1 && e.attempts == s.executions[id].attempts
                     && e.checkpoint == s.executions[id].checkpoint && e.nextAction == s.executions[id].nextAction
                   else e.generation == 1 && e.attempts == 0 && e.checkpoint == e.nextAction == None)
  {
    hide ClaimFence, Recordable, CompletionCleared, DenialRefused, Leased, Recovered, Closed;
  }

  // A heartbeat moves the end of the lease, and nothing else.
  lemma HeartbeatExtends(s: State, id: int, op: Op, now: int)
    requires op.Heartbeat? && Accepts(s, id, op, now)
    ensures var n := Step(s, Call(id, op, now));
            && id in s.tasks && id in s.executions && op.lease > 0
            && n == s.(executions := s.executions[id := s.executions[id].(
                         heartbeatAt := now, leaseExpires := now + op.lease, updatedAt := now)])
  {
    assert s.tasks == s.tasks[id := s.tasks[id]];
  }

  // A checkpoint stores the two texts and renews the lease by ten minutes.
  lemma CheckpointStores(s: State, id: int, op: Op, now: int)
    requires op.Checkpoint? && Accepts(s, id, op, now)
    ensures var n := Step(s, Call(id, op, now));
            && id in s.tasks && id in s.executions
            && n == s.(executions := s.executions[id := s.executions[id].(
                         checkpoint := Some(op.checkpoint), nextAction := Some(op.nextAction), heartbeatAt := now,
                         leaseExpires := now + 600, updatedAt := now)])
  {
    assert s.tasks == s.tasks[id := s.tasks[id]];
  }

  // Attaching records the process of the executor's own execution, and nothing else.
  lemma AttachmentStores(s: State, id: int, executor: string, process: Process, now: int)
    requires Accepts(s, id, Op.Attach(executor, process), now)
    ensures id in s.executions && s.executions[id].executor == executor
    ensures Step(s, Call(id, Op.Attach(executor, process), now)) ==
            s.(executions := s.executions[id := s.executions[id].(processId := process.id,
                                                                  processStart := process.start)])
  {
    assert id in s.tasks ==> s.tasks == s.tasks[id := s.tasks[id]];
  }

  // The calls that renew or end a running execution, or replace its rows.
  predicate Touches(op: Op) {
    op.Heartbeat? || op.Checkpoint? || op.Fail? || op.Complete? || op.Cancel? || op.Retire? || op.Compensate?
  }

  predicate Leasing(s: State, id: int, e: Execution) {
    && id in s.tasks && s.tasks[id].status == InProgress && id in s.executions
    && s.executions[id] == e.(processId := s.executions[id].processId, processStart := s.executions[id].processStart)
    && e.status == Running
  }

  lemma LeaseStep(s: State, c: Call, id: int, e: Execution)
    requires Leasing(s, id, e) && c.now < e.leaseExpires && (c.id == id ==> !Touches(c.op))
    ensures Leasing(Step(s, c), id, e)
    ensures c.id == id && (c.op.ClaimTask? || c.op.Recover?) ==> !Accepts(s, c.id, c.op, c.now)
  {
    StepRows(s, c, id);
    hide PilotAdmits, PilotUpdate, Contains, Step, Next;
    assert RowsOf(s, id) == Rows(Some(s.tasks[id]), Some(s.executions[id]));
    if Accepts(s, c.id, c.op, c.now) && c.id == id && !c.op.Decide? {
      LeaseRows(RowsOf(s, id), c, e);
    }
  }

  lemma LeaseRows(r: Rows, c: Call, e: Execution)
    requires Admits(c.id, r, c.op, c.now) && !c.op.Decide? && !Touches(c.op) && c.now < e.leaseExpires
    requires r.task.Some? && r.execution.Some? && r.task.value.status == InProgress && e.status == Running
    requires r.execution.value
             == e.(processId := r.execution.value.processId, processStart := r.execution.value.processStart)
    ensures !c.op.ClaimTask? && !c.op.Recover?
    ensures var n := NextRows(c.id, r, c.op, c.now);
            && n.task == r.task && n.execution.Some?
            && n.execution.value
               == e.(processId := n.execution.value.processId, processStart := n.execution.value.processStart)
  {
  }

  /**
   A lease protects its holder. Until it ends, whatever others try and in whatever order, the
   execution stays running under the same token, nobody else can claim the task and no cycle
   recovers it, unless the holder reports, the task is cancelled or retired, or a compensation lands.
   */
  lemma {:induction false} LeaseProtects(s: State, calls: seq<Call>, id: int, e: Execution, last: Call)
    requires Leasing(s, id, e)
    requires forall c <- calls :: c.now < e.leaseExpires && (c.id == id ==> !Touches(c.op))
    requires last.now < e.leaseExpires && last.id == id && (last.op.ClaimTask? || last.op.Recover?)
    ensures Leasing(Run(s, calls), id, e) && !Accepts(Run(s, calls), id, last.op, last.now)
    decreases |calls|
  {
    hide Leasing, Step, Accepts;
    if calls == [] {
      LeaseStep(s, last, id, e);
    } else {
      LeaseStep(s, calls[0], id, e);
      LeaseProtects(Step(s, calls[0]), calls[1..], id, e, last);
    }
  }

  // When it has ended, the next cycle can recover the execution.
  lemma ExpiredIsRecoverable(s: State, id: int, reason: string, alive: bool, now: int)
    requires id in s.tasks && id in s.executions && s.executions[id].status == Running
    ensures Accepts(s, id, Op.Recover(reason, alive), now) <==> s.executions[id].leaseExpires <= now
  {
  }

  // --- Checkpoints ----------------------------------------------------------------------------------

  predicate Resumes(s: State, id: int, checkpoint: Option<string>, nextAction: Option<string>) {
    id in s.executions && s.executions[id].checkpoint == checkpoint && s.executions[id].nextAction == nextAction
  }

  lemma ResumeStep(s: State, c: Call, id: int, checkpoint: Option<string>, nextAction: Option<string>)
    requires Resumes(s, id, checkpoint, nextAction)
    requires c.id == id ==> !c.op.Checkpoint? && !c.op.Requeue? && !c.op.Compensate?
    ensures Resumes(Step(s, c), id, checkpoint, nextAction)
  {
    StepRows(s, c, id);
    hide Admits, PilotAdmits, PilotUpdate, NextRows, Step, Next;
    assert RowsOf(s, id).execution == Some(s.executions[id]);
    if Accepts(s, c.id, c.op, c.now) && c.id == id && !c.op.Decide? {
      ResumeRows(id, RowsOf(s, id), c.op, c.now);
    }
  }

  lemma ResumeRows(id: int, r: Rows, op: Op, now: int)
    requires Admits(id, r, op, now) && r.execution.Some? && !op.Checkpoint? && !op.Requeue? && !op.Compensate?
    ensures var n := NextRows(id, r, op, now);
            && n.execution.Some? && n.execution.value.checkpoint == r.execution.value.checkpoint
            && n.execution.value.nextAction == r.execution.value.nextAction
  {
  }

  /**
   Work resumes where it was left: through failures, lost leases, recoveries and new claims by
   other executors, the execution keeps its last checkpoint and next action until another
   checkpoint, a governed requeue or a compensation replaces them.
   */
  lemma {:induction false} CheckpointSurvives(s: State, calls: seq<Call>, id: int, checkpoint: Option<string>,
                                              nextAction: Option<string>)
    requires Resumes(s, id, checkpoint, nextAction)
    requires forall c <- calls :: c.id == id ==> !c.op.Checkpoint? && !c.op.Requeue? && !c.op.Compensate?
    ensures Resumes(Run(s, calls), id, checkpoint, nextAction)
    decreases |calls|
  {
    hide Resumes, Step;
    if calls == [] {
    } else {
      ResumeStep(s, calls[0], id, checkpoint, nextAction);
      CheckpointSurvives(Step(s, calls[0]), calls[1..], id, checkpoint, nextAction);
    }
  }

  // --- Recovery --------------------------------------------------------------------------------------

  /**
   Quarantine. A failed execution whose process is still alive becomes unknown: its task row and
   its attempts stay, and no claim of the task is accepted, whatever its arguments.
   */
  lemma QuarantineKeeps(s: State, id: int, reason: string, now: int)
    requires Accepts(s, id, Op.Recover(reason, true), now) && s.executions[id].status == Failed
    ensures var n := Step(s, Call(id, Op.Recover(reason, true), now));
            && id in n.executions && n.tasks == s.tasks && OnlyRowsOf(s, n, id)
            && n.executions[id] == s.executions[id].(status := Unknown, lastError := n.executions[id].lastError,
                                                     updatedAt := now)
            && n.executions[id].lastError
               == Some("Execution outcome uncertain while process remains alive: " + reason)
            && forall op: Op, at: int :: op.ClaimTask? ==> !Accepts(n, id, op, at)
  {
    hide PilotAdmits, PilotUpdate;
    RecoverStep(s, id, Op.Recover(reason, true), now);
    var n := Step(s, Call(id, Op.Recover(reason, true), now));
    hide Step;
    assert s.tasks == s.tasks[id := s.tasks[id]];
    forall op: Op, at: int | op.ClaimTask? ensures !Accepts(n, id, op, at) {
      UnknownRefusesClaim(n, id, op, at);
    }
  }

  lemma UnknownRefusesClaim(s: State, id: int, op: Op, now: int)
    requires id in s.executions && op.ClaimTask?
    requires s.executions[id].status != Requeued && s.executions[id].status != Exhausted
    ensures !Accepts(s, id, op, now)
  {
  }

  // Any other recovery spends an attempt: the last one blocks the task, an earlier one opens it.
  lemma RecoverySpends(s: State, id: int, reason: string, alive: bool, now: int)
    requires Accepts(s, id, Op.Recover(reason, alive), now)
    requires s.executions[id].status == Running || !alive
    ensures var n, e := Step(s, Call(id, Op.Recover(reason, alive), now)), s.executions[id];
            && id in n.executions && OnlyRowsOf(s, n, id)
            && n.executions[id] == e.(status := n.executions[id].status, attempts := e.attempts + 1,
                                      lastError := Some(reason), updatedAt := now)
            && n.tasks[id] == s.tasks[id].(status := n.tasks[id].status, blockedReason := n.tasks[id].blockedReason,
                                           updatedAt := now)
            && (if e.attempts + 1 < e.maxAttempts then
                  n.executions[id].status == Requeued && n.tasks[id].status == Open && n.tasks[id].blockedReason == None
                else
                  n.executions[id].status == Exhausted && n.tasks[id].status == Blocked
                  && n.tasks[id].blockedReason == Some("Task execution retry attempts exhausted after "
                                                       + Decimal(e.attempts + 1) + "/" + DecimalText(e.maxAttempts)
                                                       + ": " + reason))
  {
    hide PilotAdmits, PilotUpdate, Decimal, DecimalText;
    RecoverStep(s, id, Op.Recover(reason, alive), now);
    hide Step;
  }

  // The calls that end a quarantine.
  predicate Releases(s: State, c: Call, id: int) {
    c.id == id && (c.op.Cancel? || c.op.Retire? || c.op.Compensate?) && Accepts(s, c.id, c.op, c.now)
  }

  // A quarantined execution is left exactly by these, and a compensation needs a requeue under way.
  lemma UnknownIsLeftBy(s: State, c: Call, id: int)
    requires id in s.executions && s.executions[id].status == Unknown
    ensures id in Step(s, c).executions
    ensures Step(s, c).executions[id].status == Unknown <==> !Releases(s, c, id)
    ensures Releases(s, c, id) && c.op.Compensate? ==> Saved(id, c.op.previousTask, c.op.previousExecution) in s.pending
  {
    StepRows(s, c, id);
    hide PilotUpdate, Decided, Contains, Recordable, ClaimFence, Step, Next;
    assert RowsOf(s, id).execution == Some(s.executions[id]);
  }

  predicate Released(s: State, calls: seq<Call>, id: int)
    decreases |calls|
  {
    calls != [] && (Releases(s, calls[0], id) || Released(Step(s, calls[0]), calls[1..], id))
  }

  // Until then no run, of whatever calls, lets anyone claim the task.
  lemma {:induction false} QuarantineLasts(s: State, calls: seq<Call>, id: int, op: Op, now: int)
    requires id in s.executions && s.executions[id].status == Unknown && !Released(s, calls, id) && op.ClaimTask?
    ensures var n := Run(s, calls);
            id in n.executions && n.executions[id].status == Unknown && !Accepts(n, id, op, now)
    decreases |calls|
  {
    hide Step, Releases, Accepts;
    if calls == [] {
      UnknownRefusesClaim(s, id, op, now);
    } else {
      UnknownIsLeftBy(s, calls[0], id);
      QuarantineLasts(Step(s, calls[0]), calls[1..], id, op, now);
    }
  }

  // --- Reports ---------------------------------------------------------------------------------------

  // A failure keeps attempts, lease and token; only a recoverable one leaves the task in progress.
  lemma FailureReports(s: State, id: int, op: Op, now: int)
    requires op.Fail? && Accepts(s, id, op, now)
    ensures var n := Step(s, Call(id, op, now));
            && id in s.tasks && id in s.executions && OnlyRowsOf(s, n, id) && id in n.executions
            && n.executions[id] == s.executions[id].(status := if op.recoverable then Failed else Exhausted,
                                                     lastError := Some(op.error), heartbeatAt := now, updatedAt := now)
            && n.tasks[id] == s.tasks[id].(
                 status := if op.recoverable then InProgress else Blocked, updatedAt := now,
                 blockedReason := if op.recoverable then None
                                  else Some("Task execution failed permanently: " + op.error))
  {
  }

  // A completion closes both rows at the same time with the reported summary.
  lemma CompletionCloses(s: State, id: int, op: Op, now: int)
    requires op.Complete? && Accepts(s, id, op, now)
    ensures var n := Step(s, Call(id, op, now));
            && id in s.tasks && id in s.executions
            && n.tasks == s.tasks[id := s.tasks[id].(status := Done, result := Some(op.summary), updatedAt := now)]
            && n.executions == s.executions[id := s.executions[id].(status := Completed, updatedAt := now)]
  {
    hide Recordable, ClaimFence;
  }

  // --- Control -----------------------------------------------------------------------------------------

  // The CEO or the owner closes an unfinished task; its execution ends with it.
  lemma CancellationCloses(s: State, id: int, op: Op, now: int)
    requires op.Cancel? && Accepts(s, id, op, now)
    ensures op.intact && id in s.tasks && (op.actor == "CEO" || op.actor == s.tasks[id].owner)
    ensures s.tasks[id].status != Done && s.tasks[id].status != Cancelled && s.tasks[id].status != Reconciled
    ensures var n := Step(s, Call(id, op, now));
            && OnlyRowsOf(s, n, id) && (id in n.executions <==> id in s.executions)
            && n.tasks[id] == s.tasks[id].(status := Cancelled, blockedReason := None, result := Some(op.reason),
                                           updatedAt := now)
            && (id in s.executions ==>
                  n.executions[id] == s.executions[id].(status := ExecutionCancelled, updatedAt := now))
  {
  }

  lemma RetirementCloses(s: State, id: int, now: int)
    requires Accepts(s, id, Op.Retire, now)
    ensures var n := Step(s, Call(id, Op.Retire, now));
            && id in s.tasks && OnlyRowsOf(s, n, id) && (id in n.executions <==> id in s.executions)
            && n.tasks[id] == s.tasks[id].(status := Cancelled, blockedReason := None, updatedAt := now, result :=
                 Some("closed during lean organization migration; historical owner retained"))
            && (id in s.executions ==>
                  n.executions[id] == s.executions[id].(status := ExecutionCancelled, updatedAt := now))
  {
  }

  // A reconciliation ends an exhausted task without a result, and gives it none.
  lemma ReconciliationCloses(s: State, id: int, admitted: bool, now: int)
    requires Accepts(s, id, Op.Reconcile(admitted), now)
    ensures admitted
    ensures id in s.tasks && id in s.executions && s.tasks[id].result == None && s.tasks[id].status == Blocked
    ensures s.executions[id].status == Exhausted && s.executions[id].attempts >= s.executions[id].maxAttempts
    ensures var n := Step(s, Call(id, Op.Reconcile(admitted), now));
            && n.tasks == s.tasks[id := s.tasks[id].(status := Reconciled, blockedReason := None, updatedAt := now)]
            && n.executions == s.executions[id := s.executions[id].(status := ExecutionReconciled, updatedAt := now)]
  {
    hide PilotAdmits, PilotUpdate;
    StepRows(s, Call(id, Op.Reconcile(admitted), now), id);
  }

  // A governed requeue opens a blocked task with all attempts and no trace of the old process.
  lemma RequeueResets(s: State, id: int, admitted: bool, now: int)
    requires Accepts(s, id, Op.Requeue(admitted), now)
    ensures admitted && (id == 145 || id == 146)
    ensures id in s.tasks && id in s.executions && s.tasks[id].result == None && s.tasks[id].status == Blocked
    ensures s.executions[id].status == Exhausted && s.executions[id].attempts >= s.executions[id].maxAttempts
    ensures s.executions[id].processId.Some?
    ensures var n, e := Step(s, Call(id, Op.Requeue(admitted), now)), s.executions[id];
            && n.tasks == s.tasks[id := s.tasks[id].(status := Open, blockedReason := None, updatedAt := now)]
            && id in n.executions && n.executions == s.executions[id := n.executions[id]]
            && n.executions[id] == Execution(e.executor, Requeued, None, e.generation, 0, e.maxAttempts, e.heartbeatAt,
                                             e.leaseExpires, None, None, None, None, None, None, now)
            && n.pending == s.pending + {Saved(id, s.tasks[id], e)}
  {
    hide PilotAdmits, PilotUpdate, PolicyFor;
    GovernedTasks(id);
  }

  lemma GovernedTasks(id: int)
    ensures PolicyFor(id).Some? <==> id == 145 || id == 146
  {
  }

  // A requeue is over when its ledger line is written: then nothing can compensate it.
  lemma PublicationEnds(s: State, id: int, t: Task, e: Execution, now: int)
    ensures Accepts(s, id, Op.Publish(t, e), now) <==> Saved(id, t, e) in s.pending
    ensures Saved(id, t, e) in s.pending ==>
              var n := Step(s, Call(id, Op.Publish(t, e), now));
              n == s.(pending := s.pending - {Saved(id, t, e)}) && !Accepts(n, id, Op.Compensate(t, e), now)
  {
    assert id in s.tasks ==> s.tasks == s.tasks[id := s.tasks[id]];
    assert id in s.executions ==> s.executions == s.executions[id := s.executions[id]];
  }

  // A compensation writes back what the requeue overwrote, over whatever the rows hold by now;
  // executor, generation, lease and limit stay those of the present claim.
  lemma CompensationWrites(s: State, id: int, t: Task, e: Execution, now: int)
    requires Accepts(s, id, Op.Compensate(t, e), now)
    ensures Saved(id, t, e) in s.pending && id in s.tasks && id in s.executions
    ensures var n := Step(s, Call(id, Op.Compensate(t, e), now));
            && n.pending == s.pending - {Saved(id, t, e)}
            && n.tasks == s.tasks[id := s.tasks[id].(status := t.status, blockedReason := t.blockedReason,
                                                     result := t.result, updatedAt := t.updatedAt)]
            && n.executions == s.executions[id := s.executions[id].(
                 status := e.status, attempts := e.attempts, token := e.token, checkpoint := e.checkpoint,
                 nextAction := e.nextAction, lastError := e.lastError, processId := e.processId,
                 processStart := e.processStart, session := e.session, updatedAt := e.updatedAt)]
  {
    hide PilotUpdate;
  }

  // A task without an executor waits for the Chairman or the CEO under a reason of its own.
  lemma EscalationWaits(s: State, id: int, approval: nat, now: int)
    requires Accepts(s, id, Op.Escalate(approval), now)
    ensures id in s.tasks && s.tasks[id].status == Open
    ensures Step(s, Call(id, Op.Escalate(approval), now)) ==
            s.(tasks := s.tasks[id := s.tasks[id].(
                 status := Blocked, updatedAt := now,
                 blockedReason := Some("Pending Chairman approval " + "#" + Decimal(approval)))])
  {
    hide Decimal;
    assert id in s.executions ==> s.executions == s.executions[id := s.executions[id]];
  }

  lemma UnclaimedWaits(s: State, id: int, now: int)
    requires Accepts(s, id, Op.BlockUnclaimed, now)
    ensures id in s.tasks && s.tasks[id].status == Open
    ensures Step(s, Call(id, Op.BlockUnclaimed, now)) ==
            s.(tasks := s.tasks[id := s.tasks[id].(
                 status := Blocked, updatedAt := now,
                 blockedReason := Some("No healthy executor claimed task after 3 dispatch attempts"))])
  {
    assert id in s.executions ==> s.executions == s.executions[id := s.executions[id]];
  }

  // A task starts open and without rows of its own elsewhere; a binding is set until it is claimed.
  lemma CreationAndBinding(s: State, id: int, op: Op, now: int)
    requires (op.Create? || op.Bind?) && Accepts(s, id, op, now)
    ensures op.Create? ==> id !in s.tasks && id !in s.executions && id !in s.bindings && !PilotBound(s, id)
                           && op.task.status == Open
                           && Step(s, Call(id, op, now)) == s.(tasks := s.tasks[id := op.task])
    ensures op.Bind? ==>
              && id in s.tasks && s.tasks[id].status == Open && !PilotBound(s, id)
              && (op.pilot ==> op.initiative == "pilot-c2-approved-for-build")
              && var n := Step(s, Call(id, op, now));
                 && id in n.bindings && n == s.(bindings := s.bindings[id := n.bindings[id]])
                 && n.bindings[id].initiative == op.initiative && n.bindings[id].pilot == op.pilot
                 && n.bindings[id].artifactSet == op.artifactSet
                 && (if id in s.bindings then
                       n.bindings[id].result == s.bindings[id].result && n.bindings[id].review == s.bindings[id].review
                       && n.bindings[id].completedAt == s.bindings[id].completedAt
                     else n.bindings[id].result == n.bindings[id].review == None && n.bindings[id].completedAt == None)
  {
    if op.Bind? {
      assert s.tasks == s.tasks[id := s.tasks[id]];
      assert id in s.executions ==> s.executions == s.executions[id := s.executions[id]];
    }
  }

  // A claim under the pilot binds its token to the initiative and artifact set of the binding;
  // a completion under it stores what the verifier returned, in the row and in the binding.
  lemma PilotRows(s: State, id: int, op: Op, now: int)
    requires (op.ClaimTask? || op.Complete?) && Accepts(s, id, op, now)
    ensures var n := Step(s, Call(id, op, now));
            && (!Piloted(s, id) ==> n.claims == s.claims && n.bindings == s.bindings && n.completions == s.completions)
            && (Piloted(s, id) && op.ClaimTask? ==>
                  && op.artifactSetCurrent
                  && id in n.executions && s.bindings[id].artifactSet.Some? && n.bindings == s.bindings
                  && n.completions == s.completions && n.executions[id].token.Some?
                  && (id, n.executions[id].generation) !in s.claims
                  && n.claims == s.claims[(id, n.executions[id].generation) :=
                                            Claim(s.bindings[id].initiative, s.bindings[id].artifactSet.value,
                                                  n.executions[id].token.value)])
            && (Piloted(s, id) && op.Complete? ==>
                  && op.assurance.Some? && id in s.executions && id !in s.completions && n.claims == s.claims
                  && n.bindings == s.bindings[id := s.bindings[id].(result := Some(op.assurance.value.result),
                                                                    review := Some(op.assurance.value.review),
                                                                    completedAt := Some(now))]
                  && n.completions == s.completions[id := Completion(
                       s.executions[id].generation, op.assurance.value.initiative, op.assurance.value.artifactSet,
                       op.assurance.value.result, op.assurance.value.review, op.summary, now)])
  {
    hide DenialRefused, Recovered, Closed;
  }

  // --- Decisions -------------------------------------------------------------------------------------

  // The task waits for this approval: it is blocked, and its reason contains the number.
  predicate Awaits(t: Task, approval: nat) {
    t.status == Blocked && t.blockedReason.Some?
    && exists i :: 0 <= i <= |t.blockedReason.value| && OccursAt(t.blockedReason.value, "#" + Decimal(approval), i)
  }

  /**
   A decision moves exactly the tasks that wait for it: an approval opens them, a denial closes
   them as done with a result that says so. It is refused only where a denial would close a task
   claimed under the pilot.
   */
  lemma DecisionMoves(s: State, approval: nat, approve: bool, now: int)
    ensures Accepts(s, 0, Op.Decide(approval, approve, true), now)
            <==> approve || forall id <- s.tasks.Keys :: Awaits(s.tasks[id], approval) ==> !PilotBound(s, id)
    ensures var n := Step(s, Call(0, Op.Decide(approval, approve, true), now));
            Accepts(s, 0, Op.Decide(approval, approve, true), now) ==>
              && n.tasks.Keys == s.tasks.Keys && n == s.(tasks := n.tasks)
              && forall id <- s.tasks.Keys ::
                   n.tasks[id] == if !Awaits(s.tasks[id], approval) then s.tasks[id]
                                  else if approve then
                                    s.tasks[id].(status := Open, blockedReason := None, result := None,
                                                 updatedAt := now)
                                  else
                                    s.tasks[id].(status := Done, blockedReason := None, updatedAt := now,
                                                 result := n.tasks[id].result)
    ensures var n := Step(s, Call(0, Op.Decide(approval, approve, true), now));
            Accepts(s, 0, Op.Decide(approval, approve, true), now) && !approve ==>
              forall id <- s.tasks.Keys :: Awaits(s.tasks[id], approval) ==>
                id in n.tasks && n.tasks[id].result == Some(
                "{\"summary\": \"Chairman denied reserved action; task closed without external action.\"}")
  {
    forall id | id in s.tasks.Keys ensures Matches(s.tasks[id], approval) <==> Awaits(s.tasks[id], approval) {
      AwaitsIsMatches(s.tasks[id], approval);
    }
    hide Matches, Awaits;
  }

  lemma AwaitsIsMatches(t: Task, approval: nat)
    ensures Matches(t, approval) <==> Awaits(t, approval)
  {
    hide Decimal;
  }

  // What was escalated for an approval is opened by it, or closed by its denial.
  lemma EscalationIsAnswered(s: State, id: int, approval: nat, approve: bool, now: int, later: int)
    requires Accepts(s, id, Op.Escalate(approval), now) && !PilotBound(s, id)
    requires var n := Step(s, Call(id, Op.Escalate(approval), now));
             Accepts(n, 0, Op.Decide(approval, approve, true), later)
    ensures var n := Step(Step(s, Call(id, Op.Escalate(approval), now)),
                          Call(0, Op.Decide(approval, approve, true), later));
            id in n.tasks && n.tasks[id].status == if approve then Open else Done
  {
    hide Step, Accepts, Decimal, Awaits;
    EscalationWaits(s, id, approval, now);
    var n := Step(s, Call(id, Op.Escalate(approval), now));
    DecisionMoves(n, approval, approve, later);
    MatchesByPrefix(approval, approval);
    AwaitsIsMatches(n.tasks[id], approval);
  }
}
