/**
 The lease, fencing and recovery protocol of `CompanyOS` as a state machine: which
 transactions are accepted, and what an accepted one does to the tables. A rejected
 transaction leaves the tables as they were.
 */
module TaskProtocol {
  import opened Common
  import opened TaskTables

  const APPROVED_PILOT := "pilot-c2-approved-for-build"

  // A row of `assurance_task_bindings`.
  datatype Binding = Binding(initiative: string, pilot: bool, artifactSet: Option<string>,
                             result: Option<string>, review: Option<string>, completedAt: Option<int>)

  // The claim binding and its history row, which are written together and never change.
  datatype Claim = Claim(initiative: string, artifactSet: string, token: Token)

  datatype Completion = Completion(generation: nat, initiative: string, artifactSet: string,
                                   result: string, review: string, taskResult: string, completedAt: int)

  // What the completion verifier returns for a bound pilot task.
  datatype Assurance = Assurance(initiative: string, artifactSet: string, result: string, review: string)

  // The rows a governed requeue found, kept by the call until its ledger append has succeeded or failed.
  datatype Saved = Saved(id: int, task: Task, execution: Execution)

  datatype State = State(tasks: map<int, Task>, executions: map<int, Execution>, bindings: map<int, Binding>,
                         claims: map<(int, nat), Claim>, completions: map<int, Completion>, pending: set<Saved>)

  datatype Process = Process(id: Option<int>, start: Option<string>, session: Option<string>)

  // One call. Booleans stand for checks whose inputs lie outside these tables: recovery
  // integrity, gate and fence decisions, role authentication, process liveness.
  datatype Op =
    | Create(task: Task)
    | Bind(initiative: string, pilot: bool, artifactSet: Option<string>)
    | ClaimTask(actor: string, executor: string, nonce: string, lease: int, maxAttempts: int, process: Process,
                intact: bool, dispatchAllowed: bool, artifactSetCurrent: bool)
    | Heartbeat(executor: string, token: Option<Token>, lease: int, intact: bool, fenceAllowed: bool)
    | Checkpoint(executor: string, token: Option<Token>, checkpoint: string, nextAction: string,
                 intact: bool, fenceAllowed: bool)
    | Fail(executor: string, token: Option<Token>, error: string, recoverable: bool, intact: bool)
    | Complete(actor: string, token: Option<Token>, summary: string, intact: bool, fenceAllowed: bool,
               assurance: Option<Assurance>)
    | Attach(executor: string, process: Process)
    | Recover(reason: string, alive: bool)
    | Requeue(admitted: bool)
    | Publish(previousTask: Task, previousExecution: Execution)
    | Compensate(previousTask: Task, previousExecution: Execution)
    | Reconcile(admitted: bool)
    | Cancel(actor: string, reason: string, intact: bool)
    | Decide(approval: nat, approve: bool, admitted: bool)
    | Escalate(approval: nat)
    | BlockUnclaimed
    | Retire

  const LEASE_SECONDS := 600
  const UNCERTAIN := "Execution outcome uncertain while process remains alive: "
  const RETIRED := "closed during lean organization migration; historical owner retained"
  const UNCLAIMED := "No healthy executor claimed task after 3 dispatch attempts"
  const DENIED := "{\"summary\": \"Chairman denied reserved action; task closed without external action.\"}"

  // --- One task: its row and its execution row -------------------------------------------------

  datatype Rows = Rows(task: Option<Task>, execution: Option<Execution>)

  // `_active_execution`, and the same checks in `complete_task`.
  predicate Leased(r: Rows, token: Option<Token>, now: int) {
    && r.task.Some? && r.execution.Some?
    && (token.Some? ==> r.execution.value.token == token)
    && r.execution.value.status == Running
    && !LeaseExpired(r.execution.value, now)
  }

  predicate HeldBy(r: Rows, executor: string) {
    r.execution.Some? && r.execution.value.executor == executor
  }

  predicate Exhaustion(r: Rows) {
    && r.task.Some? && r.execution.Some? && r.task.value.result.None?
    && r.task.value.status == Blocked && r.execution.value.status == Exhausted
    && r.execution.value.attempts >= r.execution.value.maxAttempts
  }

  predicate Unfinished(t: Task) {
    t.status == Open || t.status == InProgress || t.status == Blocked
  }

  // The conditions a call puts on the rows of its own task.
  predicate Admits(id: int, r: Rows, op: Op, now: int) {
    match op
    case Create(t) => r == Rows(None, None) && t.status == Open
    case Bind(initiative, pilot, _) =>
      r.task.Some? && r.task.value.status == Open && (pilot ==> initiative == APPROVED_PILOT)
    case ClaimTask(actor, _, _, lease, maxAttempts, _, intact, dispatchAllowed, _) =>
      && lease > 0 && maxAttempts > 0 && intact && dispatchAllowed
      && r.task.Some? && r.task.value.owner == actor && r.task.value.status == Open
      && (r.execution.Some? ==> r.execution.value.status == Requeued || r.execution.value.status == Exhausted)
    case Heartbeat(executor, token, lease, intact, allowed) =>
      lease > 0 && intact && Leased(r, token, now) && HeldBy(r, executor) && allowed
    case Checkpoint(executor, token, _, _, intact, allowed) =>
      intact && Leased(r, token, now) && HeldBy(r, executor) && allowed
    case Fail(executor, token, _, _, intact) => intact && Leased(r, token, now) && HeldBy(r, executor)
    case Complete(actor, token, _, intact, allowed, _) =>
      intact && Leased(r, token, now) && r.task.value.owner == actor && r.task.value.status == InProgress && allowed
    case Attach(executor, _) => HeldBy(r, executor)
    case Recover(_, _) =>
      && r.task.Some? && r.execution.Some?
      && (r.execution.value.status == Failed
          || (r.execution.value.status == Running && LeaseExpired(r.execution.value, now)))
    case Requeue(admitted) =>
      admitted && Exhaustion(r) && MatchesPolicy(id, r.task.value) && r.execution.value.processId.Some?
    case Publish(_, _) => true
    case Compensate(t, e) => r.task.Some? && r.execution.Some? && t.status == Blocked && e.status == Exhausted
    case Reconcile(admitted) => admitted && Exhaustion(r)
    case Cancel(actor, _, intact) =>
      r.task.Some? && intact && (actor == "CEO" || actor == r.task.value.owner) && Unfinished(r.task.value)
    case Decide(_, _, admitted) => admitted
    case Escalate(_) => r.task.Some? && r.task.value.status == Open
    case BlockUnclaimed => r.task.Some? && r.task.value.status == Open
    case Retire => r.task.Some? && Unfinished(r.task.value)
  }

  function StatusOf(r: Rows): Option<RecoveryStatus> {
    if r.execution.Some? then Some(r.execution.value.status) else None
  }

  function Generation(r: Rows): nat {
    if r.execution.Some? then r.execution.value.generation else 0
  }

  // The upsert of a claim: attempts, checkpoint and next action survive from the previous execution.
  function Claimed(r: Rows, op: Op, now: int): Execution
    requires op.ClaimTask?
  {
    var first := Execution(op.executor, Running, Some(Token(Generation(r) + 1, op.nonce)), Generation(r) + 1, 0,
                           op.maxAttempts, now, now + op.lease, op.process.id, op.process.start, op.process.session,
                           None, None, None, now);
    if r.execution.None? then first
    else first.(attempts := r.execution.value.attempts, checkpoint := r.execution.value.checkpoint,
                nextAction := r.execution.value.nextAction)
  }

  function AttemptsExhausted(reason: string, attempts: nat, limit: int): string {
    "Task execution retry attempts exhausted after " + Decimal(attempts) + "/" + DecimalText(limit) + ": " + reason
  }

  // Recovery spends an attempt: the last one exhausts the execution, any other requeues it.
  function Retried(t: Task, e: Execution, reason: string, now: int): Rows {
    var next := e.(attempts := e.attempts + 1, lastError := Some(reason), updatedAt := now);
    if e.attempts + 1 >= e.maxAttempts then
      Rows(Some(t.(status := Blocked, updatedAt := now,
                   blockedReason := Some(AttemptsExhausted(reason, e.attempts + 1, e.maxAttempts)))),
           Some(next.(status := Exhausted)))
    else
      Rows(Some(t.(status := Open, updatedAt := now, blockedReason := None)), Some(next.(status := Requeued)))
  }

  // `_recover_execution`: quarantine while the process of a failed execution lives, or a retry.
  function Recovered(t: Task, e: Execution, op: Op, now: int): Rows
    requires op.Recover?
  {
    if e.status == Failed && op.alive then
      Rows(Some(t), Some(e.(status := Unknown, updatedAt := now, lastError := Some(UNCERTAIN + op.reason))))
    else Retried(t, e, op.reason, now)
  }

  function Closed(r: Rows, result: string, now: int): Rows
    requires r.task.Some?
  {
    Rows(Some(r.task.value.(status := Cancelled, blockedReason := None, result := Some(result), updatedAt := now)),
         if r.execution.None? then None
         else Some(r.execution.value.(status := ExecutionCancelled, updatedAt := now)))
  }

  function BlockedBy(r: Rows, reason: string, now: int): Rows
    requires r.task.Some?
  {
    r.(task := Some(r.task.value.(status := Blocked, blockedReason := Some(reason), updatedAt := now)))
  }

  // What an accepted call leaves in the rows of its own task.
  function NextRows(id: int, r: Rows, op: Op, now: int): Rows
    requires Admits(id, r, op, now)
  {
    match op
    case Create(t) => r.(task := Some(t))
    case Bind(_, _, _) => r
    case ClaimTask(_, _, _, _, _, _, _, _, _) =>
      Rows(Some(r.task.value.(status := InProgress, updatedAt := now)), Some(Claimed(r, op, now)))
    case Heartbeat(_, _, lease, _, _) =>
      r.(execution := Some(r.execution.value.(heartbeatAt := now, leaseExpires := now + lease, status := Running,
                                              updatedAt := now)))
    case Checkpoint(_, _, checkpoint, nextAction, _, _) =>
      r.(execution := Some(r.execution.value.(checkpoint := Some(checkpoint), nextAction := Some(nextAction),
                                              heartbeatAt := now, leaseExpires := now + LEASE_SECONDS,
                                              status := Running, updatedAt := now)))
    case Fail(_, _, error, recoverable, _) =>
      Rows(Some(r.task.value.(status := if recoverable then InProgress else Blocked, updatedAt := now,
                              blockedReason := if recoverable then None
                                               else Some("Task execution failed permanently: " + error))),
           Some(r.execution.value.(lastError := Some(error), heartbeatAt := now, updatedAt := now,
                                   status := if recoverable then Failed else Exhausted)))
    case Complete(_, _, summary, _, _, _) =>
      Rows(Some(r.task.value.(status := Done, result := Some(summary), updatedAt := now)),
           Some(r.execution.value.(status := Completed, updatedAt := now)))
    case Attach(_, process) =>
      r.(execution := Some(r.execution.value.(processId := process.id, processStart := process.start)))
    case Recover(_, _) => Recovered(r.task.value, r.execution.value, op, now)
    case Requeue(_) =>
      Rows(Some(RequeuedTask(r.task.value, now)), Some(RequeuedExecution(r.execution.value, now)))
    case Publish(_, _) => r
    case Compensate(t, e) =>
      Rows(Some(RestoredTask(r.task.value, t)), Some(RestoredExecution(r.execution.value, e)))
    case Reconcile(_) =>
      Rows(Some(r.task.value.(status := Reconciled, blockedReason := None, updatedAt := now)),
           Some(r.execution.value.(status := ExecutionReconciled, updatedAt := now)))
    case Cancel(_, reason, _) => Closed(r, reason, now)
    case Decide(_, _, _) => r
    case Escalate(approval) => BlockedBy(r, PendingApproval(approval), now)
    case BlockUnclaimed => BlockedBy(r, UNCLAIMED, now)
    case Retire => Closed(r, RETIRED, now)
  }

  // --- The pilot tables ------------------------------------------------------------------------

  function RowsOf(s: State, id: int): Rows {
    Rows(if id in s.tasks then Some(s.tasks[id]) else None, if id in s.executions then Some(s.executions[id]) else None)
  }

  function SetRows(s: State, id: int, r: Rows): State {
    s.(tasks := if r.task.Some? then s.tasks[id := r.task.value] else s.tasks,
       executions := if r.execution.Some? then s.executions[id := r.execution.value] else s.executions)
  }

  // Has the task ever been claimed under the pilot? Such a task needs its exact token.
  predicate PilotBound(s: State, id: int) {
    exists key <- s.claims.Keys :: key.0 == id
  }

  predicate Piloted(s: State, id: int) {
    id in s.bindings && s.bindings[id].pilot
  }

  // `_claim_fence_decision`
  predicate ClaimFence(s: State, id: int) {
    if id !in s.executions then true
    else
      var e := s.executions[id];
      if (id, e.generation) !in s.claims then !PilotBound(s, id) && !Piloted(s, id)
      else
        var c := s.claims[(id, e.generation)];
        e.token == Some(c.token) && Piloted(s, id) && s.bindings[id].initiative == c.initiative
        && s.bindings[id].artifactSet == Some(c.artifactSet)
  }

  // The completion decision: a piloted task completes only with the assurance of its own binding.
  predicate CompletionDecision(s: State, id: int, assurance: Option<Assurance>) {
    Piloted(s, id) ==>
      var b := s.bindings[id];
      && b.initiative == APPROVED_PILOT && assurance.Some?
      && b.initiative == assurance.value.initiative && b.artifactSet == Some(assurance.value.artifactSet)
  }

  // --- The completion triggers ---------------------------------------------------------------------

  // What both stages of `completion_binding_valid` check across the tables.
  predicate Anchored(s: State, id: int, c: Completion) {
    && id in s.tasks && id in s.executions && id in s.bindings && (id, c.generation) in s.claims
    && s.claims[(id, c.generation)].initiative == c.initiative
    && s.claims[(id, c.generation)].artifactSet == c.artifactSet
    && s.executions[id].token == Some(s.claims[(id, c.generation)].token)
    && s.executions[id].generation == c.generation
    && s.bindings[id].pilot && s.bindings[id].initiative == c.initiative
    && s.bindings[id].artifactSet == Some(c.artifactSet)
  }

  predicate Unset(b: Binding) {
    b.result.None? && b.review.None? && b.completedAt.None?
  }

  // `assurance_completion_bindings_insert_guard`
  predicate InsertAllowed(s: State, id: int, c: Completion) {
    && Anchored(s, id, c) && s.tasks[id].status == InProgress && s.executions[id].status == Running
    && Unset(s.bindings[id])
  }

  // `assurance_persisted_completion_valid`: the result and time a task is to be closed with.
  predicate Persisted(s: State, id: int, result: string, at: int) {
    && id in s.completions && Anchored(s, id, s.completions[id])
    && s.executions[id].status == Completed
    && s.bindings[id].result == Some(s.completions[id].result)
    && s.bindings[id].review == Some(s.completions[id].review)
    && s.bindings[id].completedAt == Some(s.completions[id].completedAt)
    && at == s.completions[id].completedAt == s.executions[id].updatedAt
    && result == s.completions[id].taskResult
  }

  // `tasks_bound_pilot_completion_guard` on an update that sets the status to done.
  predicate DoneAllowed(s: State, id: int, result: string, at: int)
    requires id in s.tasks
  {
    PilotBound(s, id) ==> s.tasks[id].status == InProgress && Persisted(s, id, result, at)
  }

  function CompletionRow(s: State, id: int, a: Assurance, summary: string, now: int): Completion
    requires id in s.executions
  {
    Completion(s.executions[id].generation, a.initiative, a.artifactSet, a.result, a.review, summary, now)
  }

  // `record_completion`: the row it inserts and the fields it sets.
  function Recorded(s: State, id: int, a: Assurance, summary: string, now: int): State
    requires id in s.bindings && id in s.executions
  {
    s.(bindings := s.bindings[id := s.bindings[id].(result := Some(a.result), review := Some(a.review),
                                                    completedAt := Some(now))],
       completions := s.completions[id := CompletionRow(s, id, a, summary, now)])
  }

  function Finished(s: State, id: int, now: int): State
    requires id in s.executions
  {
    s.(executions := s.executions[id := s.executions[id].(status := Completed, updatedAt := now)])
  }

  // A completion whose transaction neither the primary key nor a trigger aborts.
  predicate Recordable(s: State, id: int, assurance: Option<Assurance>, summary: string, now: int)
    requires id in s.tasks && id in s.executions && CompletionDecision(s, id, assurance)
  {
    if Piloted(s, id) then
      && id !in s.completions && InsertAllowed(s, id, CompletionRow(s, id, assurance.value, summary, now))
      && DoneAllowed(Finished(Recorded(s, id, assurance.value, summary, now), id, now), id, summary, now)
    else DoneAllowed(Finished(s, id, now), id, summary, now)
  }

  // The checks of `complete_task` on the pilot tables, before it writes.
  predicate CompletionCleared(s: State, id: int, token: Option<Token>, assurance: Option<Assurance>) {
    (PilotBound(s, id) ==> token.Some?) && ClaimFence(s, id) && CompletionDecision(s, id, assurance)
  }

  // The conditions a call puts on the pilot tables.
  predicate PilotAdmits(s: State, id: int, op: Op, now: int)
    requires Admits(id, RowsOf(s, id), op, now)
  {
    match op
    case Create(_) => id !in s.bindings && !PilotBound(s, id)
    case Bind(_, _, _) => !PilotBound(s, id)
    case ClaimTask(_, _, _, _, _, _, _, _, current) =>
      Piloted(s, id) ==> s.bindings[id].artifactSet.Some? && current
                         && (id, Generation(RowsOf(s, id)) + 1) !in s.claims
    case Heartbeat(_, token, _, _, _) => (PilotBound(s, id) ==> token.Some?) && ClaimFence(s, id)
    case Checkpoint(_, token, _, _, _, _) => (PilotBound(s, id) ==> token.Some?) && ClaimFence(s, id)
    case Complete(_, token, summary, _, _, assurance) =>
      CompletionCleared(s, id, token, assurance) && Recordable(s, id, assurance, summary, now)
    case Publish(t, e) => Saved(id, t, e) in s.pending
    case Compensate(t, e) => Saved(id, t, e) in s.pending
    case Decide(approval, approve, _) => approve || !DenialRefused(s, approval)
    case _ => true
  }

  // What an accepted call writes to the pilot tables.
  function PilotUpdate(s: State, id: int, op: Op, now: int): (n: State)
    requires Admits(id, RowsOf(s, id), op, now) && PilotAdmits(s, id, op, now)
    ensures n.tasks == s.tasks && n.executions == s.executions && n.pending == s.pending
  {
    match op
    case Bind(initiative, pilot, artifactSet) =>
      var row := if id in s.bindings then s.bindings[id] else Binding(initiative, pilot, artifactSet, None, None, None);
      s.(bindings := s.bindings[id := row.(initiative := initiative, pilot := pilot, artifactSet := artifactSet)])
    case ClaimTask(_, _, _, _, _, _, _, _, _) =>
      if !Piloted(s, id) then s
      else
        var e := Claimed(RowsOf(s, id), op, now);
        s.(claims := s.claims[(id, e.generation) :=
                                Claim(s.bindings[id].initiative, s.bindings[id].artifactSet.value, e.token.value)])
    case Complete(_, _, summary, _, _, assurance) =>
      if !Piloted(s, id) then s else Recorded(s, id, assurance.value, summary, now)
    case _ => s
  }

  // The requeues under way after an accepted call.
  function Underway(s: State, id: int, op: Op, now: int): set<Saved>
    requires Admits(id, RowsOf(s, id), op, now)
  {
    match op
    case Requeue(_) => s.pending + {Saved(id, s.tasks[id], s.executions[id])}
    case Publish(t, e) => s.pending - {Saved(id, t, e)}
    case Compensate(t, e) => s.pending - {Saved(id, t, e)}
    case _ => s.pending
  }

  // --- Chairman decisions ---------------------------------------------------------------------

  predicate Matches(t: Task, approval: nat) {
    t.status == Blocked && t.blockedReason.Some? && Contains(t.blockedReason.value, "#" + Decimal(approval))
  }

  function Decided(t: Task, approval: nat, approve: bool, now: int): Task {
    if !Matches(t, approval) then t
    else if approve then t.(status := Open, blockedReason := None, result := None, updatedAt := now)
    else t.(status := Done, blockedReason := None, result := Some(DENIED), updatedAt := now)
  }

  function DecidedTasks(tasks: map<int, Task>, approval: nat, approve: bool, now: int): map<int, Task> {
    map k | k in tasks :: Decided(tasks[k], approval, approve, now)
  }

  // The completion trigger refuses to close a pilot-bound task by denial; the decision then rolls back.
  predicate DenialRefused(s: State, approval: nat) {
    exists id <- s.tasks.Keys :: Matches(s.tasks[id], approval) && PilotBound(s, id)
  }

  // --- One call, and runs ------------------------------------------------------------------------

  predicate Accepts(s: State, id: int, op: Op, now: int) {
    Admits(id, RowsOf(s, id), op, now) && PilotAdmits(s, id, op, now)
  }

  function Next(s: State, id: int, op: Op, now: int): State
    requires Accepts(s, id, op, now)
  {
    if op.Decide? then s.(tasks := DecidedTasks(s.tasks, op.approval, op.approve, now))
    else SetRows(PilotUpdate(s, id, op, now).(pending := Underway(s, id, op, now)), id,
                 NextRows(id, RowsOf(s, id), op, now))
  }

  datatype Call = Call(id: int, op: Op, now: int)

  function Step(s: State, c: Call): State {
    if Accepts(s, c.id, c.op, c.now) then Next(s, c.id, c.op, c.now) else s
  }

  function Run(s: State, calls: seq<Call>): State
    decreases |calls|
  {
    if calls == [] then s else Run(Step(s, calls[0]), calls[1..])
  }

  const EMPTY := State(map[], map[], map[], map[], map[], {})

  lemma {:induction false} RunAppend(s: State, calls: seq<Call>, c: Call)
    ensures Run(s, calls + [c]) == Step(Run(s, calls), c)
    decreases |calls|
  {
    if calls == [] {
      assert [] + [c] == [c];
    } else {
      assert (calls + [c])[1..] == calls[1..] + [c];
      RunAppend(Step(s, calls[0]), calls[1..], c);
    }
  }

  // A call touches the rows of its own task only, except that a decision touches every task it matches.
  lemma StepRows(s: State, c: Call, id: int)
    ensures RowsOf(Step(s, c), id) ==
            if !Accepts(s, c.id, c.op, c.now) then RowsOf(s, id)
            else if c.op.Decide? then
              if id in s.tasks then
                RowsOf(s, id).(task := Some(Decided(s.tasks[id], c.op.approval, c.op.approve, c.now)))
              else RowsOf(s, id)
            else if c.id == id then NextRows(id, RowsOf(s, id), c.op, c.now)
            else RowsOf(s, id)
  {
    hide Admits, PilotAdmits, NextRows, PilotUpdate, Decided;
    if Accepts(s, c.id, c.op, c.now) && c.id == id && !c.op.Decide? {
      RowsPersist(id, RowsOf(s, id), c.op, c.now);
    }
  }

  // No call deletes a row.
  lemma RowsPersist(id: int, r: Rows, op: Op, now: int)
    requires Admits(id, r, op, now)
    ensures r.task.Some? ==> NextRows(id, r, op, now).task.Some?
    ensures r.execution.Some? ==> NextRows(id, r, op, now).execution.Some?
  {
  }

  // Calls that leave the pilot tables alone.
  predicate RowsOnly(op: Op) {
    !op.Bind? && !op.ClaimTask? && !op.Complete? && !op.Decide?
  }

  // Which executions recovery takes up.
  predicate Recoverable(s: State, id: int, now: int) {
    && id in s.tasks && id in s.executions
    && (s.executions[id].status == Failed
        || (s.executions[id].status == Running && LeaseExpired(s.executions[id], now)))
  }

  lemma RecoverStep(s: State, id: int, op: Op, now: int)
    requires op.Recover?
    ensures Accepts(s, id, op, now) <==> Recoverable(s, id, now)
    ensures Step(s, Call(id, op, now)) ==
            if Recoverable(s, id, now) then SetRows(s, id, Recovered(s.tasks[id], s.executions[id], op, now)) else s
  {
  }
}
