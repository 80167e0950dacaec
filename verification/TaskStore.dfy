/**
 `CompanyOS`: the operating tables and the transactions that change them, in the order in
 which the source reads and writes. Every transaction is one step of the protocol, keeps
 the invariant of the tables, and leaves them as they were when it is rejected.
 */
module TaskStore {
  import opened Common
  import opened TaskTables
  import opened TaskProtocol
  import opened TaskSafety
  import opened PilotCompletion
  import opened TaskInvariant

  // `ok` is the protocol's verdict on the call, and the tables are the protocol's next state.
  predicate Stepped(before: State, id: int, op: Op, now: int, ok: bool, after: State) {
    ok == Accepts(before, id, op, now) && after == Step(before, Call(id, op, now))
  }

  class CompanyOS {
    var tasks: map<int, Task>
    var executions: map<int, Execution>
    var bindings: map<int, Binding>
    var claims: map<(int, nat), Claim>
    var completions: map<int, Completion>
    var pending: set<Saved>

    function Tables(): State
      reads this
    {
      State(tasks, executions, bindings, claims, completions, pending)
    }

    ghost predicate Valid()
      reads this
    {
      Sound(Tables())
    }

    constructor ()
      ensures Valid() && Tables() == EMPTY
    {
      tasks, executions, bindings, claims, completions, pending := map[], map[], map[], map[], map[], {};
      new;
      EmptyIsSound();
    }

    method Rollback(before: State)
      modifies this
      ensures Tables() == before
    {
      tasks, executions, bindings := before.tasks, before.executions, before.bindings;
      claims, completions, pending := before.claims, before.completions, before.pending;
    }

    // --- Claiming --------------------------------------------------------------------------------

    // `_claim_task_execution`: move the task, then insert or take over the execution row.
    method ClaimExecution(id: int, op: Op, now: int) returns (ok: bool)
      requires op.ClaimTask? && id in tasks
      modifies `tasks, `executions
      ensures ok <==> old(tasks)[id].status == Open
                      && (id in old(executions) ==>
                            old(executions)[id].status == Requeued || old(executions)[id].status == Exhausted
                            || (old(executions)[id].status == Running && old(executions)[id].executor == op.executor))
      ensures ok && (id in old(executions) ==> old(executions)[id].status != Running) ==>
                tasks == old(tasks)[id := old(tasks)[id].(status := InProgress, updatedAt := now)]
                && executions == old(executions)[id := Claimed(old(RowsOf(Tables(), id)), op, now)]
    {
      var generation := if id in executions then executions[id].generation + 1 else 1;
      var token := Token(generation, op.nonce);
      if tasks[id].status != Open {
        return false;
      }
      tasks := tasks[id := tasks[id].(status := InProgress, updatedAt := now)];
      if id !in executions {
        executions := executions[id :=
          Execution(op.executor, Running, Some(token), generation, 0, op.maxAttempts, now, now + op.lease,
                    op.process.id, op.process.start, op.process.session, None, None, None, now)];
      } else if executions[id].status == Requeued || executions[id].status == Exhausted {
        executions := executions[id := executions[id].(
          executor := op.executor, processId := op.process.id, processStart := op.process.start,
          session := op.process.session, heartbeatAt := now, leaseExpires := now + op.lease,
          maxAttempts := op.maxAttempts, token := Some(token), generation := generation,
          lastError := None, status := Running, updatedAt := now)];
      }
      ok := executions[id].executor == op.executor && executions[id].status == Running;
    }

    // `record_claim_binding`
    method RecordClaimBinding(id: int, artifactSetCurrent: bool) returns (ok: bool)
      requires id in executions && executions[id].token.Some?
      modifies `claims
      ensures var e := executions[id];
              ok <==> (Piloted(old(Tables()), id) ==>
                         bindings[id].artifactSet.Some? && artifactSetCurrent && (id, e.generation) !in old(claims))
      ensures var e := executions[id];
              ok ==> claims == if !Piloted(old(Tables()), id) then old(claims)
                               else old(claims)[(id, e.generation) :=
                                      Claim(bindings[id].initiative, bindings[id].artifactSet.value, e.token.value)]
    {
      if id !in bindings || !bindings[id].pilot {
        return true;
      }
      var key := (id, executions[id].generation);
      if bindings[id].artifactSet.None? || !artifactSetCurrent || key in claims {
        return false;
      }
      claims := claims[key := Claim(bindings[id].initiative, bindings[id].artifactSet.value,
                                    executions[id].token.value)];
      ok := true;
    }

    method ClaimTask(id: int, op: Op, now: int) returns (ok: bool)
      requires Valid() && op.ClaimTask?
      modifies this
      ensures Valid()
      ensures Stepped(old(Tables()), id, op, now, ok, Tables())
    {
      hide Sound, Recordable, CompletionCleared, ClaimFence, DenialRefused, Exhaustion, Leased, Recovered, Closed,
           BlockedBy;
      SoundStep(Tables(), Call(id, op, now));
      if op.lease <= 0 || op.maxAttempts <= 0 || id !in tasks || !op.intact || tasks[id].owner != op.actor {
        return false;
      }
      if id in executions && (executions[id].status == Running || executions[id].status == Failed) {
        return false;
      }
      if tasks[id].status != Open || !op.dispatchAllowed {
        return false;
      }
      var before := Tables();
      ok := ClaimExecution(id, op, now);
      if ok {
        ok := RecordClaimBinding(id, op.artifactSetCurrent);
      }
      if !ok {
        Rollback(before);
      }
    }

    // --- Executors ---------------------------------------------------------------------------------

    // `_active_execution`
    method ActiveExecution(id: int, executor: string, token: Option<Token>, intact: bool, now: int)
      returns (active: bool)
      ensures active <==> intact && Leased(RowsOf(Tables(), id), token, now) && HeldBy(RowsOf(Tables(), id), executor)
    {
      if id !in tasks || !intact || id !in executions {
        return false;
      }
      var e := executions[id];
      if e.executor != executor || (token.Some? && e.token != token) || e.status != Running {
        return false;
      }
      active := !LeaseExpired(e, now);
    }

    method Heartbeat(id: int, op: Op, now: int) returns (ok: bool)
      requires Valid() && op.Heartbeat?
      modifies this
      ensures Valid()
      ensures Stepped(old(Tables()), id, op, now, ok, Tables())
    {
      hide Sound;
      SoundStep(Tables(), Call(id, op, now));
      if op.lease <= 0 || (PilotBound(Tables(), id) && op.token.None?) {
        return false;
      }
      ok := ActiveExecution(id, op.executor, op.token, op.intact, now);
      if ok {
        ok := op.fenceAllowed && ClaimFence(Tables(), id);
      }
      if ok {
        executions := executions[id := executions[id].(heartbeatAt := now, leaseExpires := now + op.lease,
                                                       status := Running, updatedAt := now)];
        assert tasks == tasks[id := tasks[id]];
      }
    }

    method Checkpoint(id: int, op: Op, now: int) returns (ok: bool)
      requires Valid() && op.Checkpoint?
      modifies this
      ensures Valid()
      ensures Stepped(old(Tables()), id, op, now, ok, Tables())
    {
      hide Sound;
      SoundStep(Tables(), Call(id, op, now));
      if PilotBound(Tables(), id) && op.token.None? {
        return false;
      }
      ok := ActiveExecution(id, op.executor, op.token, op.intact, now);
      if ok {
        ok := op.fenceAllowed && ClaimFence(Tables(), id);
      }
      if ok {
        executions := executions[id := executions[id].(
          checkpoint := Some(op.checkpoint), nextAction := Some(op.nextAction), heartbeatAt := now,
          leaseExpires := now + LEASE_SECONDS, status := Running, updatedAt := now)];
        assert tasks == tasks[id := tasks[id]];
      }
    }

    method Fail(id: int, op: Op, now: int) returns (ok: bool)
      requires Valid() && op.Fail?
      modifies this
      ensures Valid()
      ensures Stepped(old(Tables()), id, op, now, ok, Tables())
    {
      hide Sound;
      SoundStep(Tables(), Call(id, op, now));
      ok := ActiveExecution(id, op.executor, op.token, op.intact, now);
      if ok {
        var status := if op.recoverable then Failed else Exhausted;
        var taskStatus := if op.recoverable then InProgress else Blocked;
        var reason := if op.recoverable then None else Some("Task execution failed permanently: " + op.error);
        executions := executions[id := executions[id].(lastError := Some(op.error), status := status,
                                                       heartbeatAt := now, updatedAt := now)];
        tasks := tasks[id := tasks[id].(status := taskStatus, updatedAt := now, blockedReason := reason)];
      }
    }

    // `record_completion`: the completion row behind its insert trigger, then the binding's fields.
    method RecordCompletion(id: int, a: Assurance, summary: string, now: int) returns (ok: bool)
      requires id in executions && Piloted(Tables(), id)
      modifies `bindings, `completions
      ensures ok <==> id !in old(completions)
                      && InsertAllowed(old(Tables()), id, CompletionRow(old(Tables()), id, a, summary, now))
      ensures ok ==> Tables() == Recorded(old(Tables()), id, a, summary, now)
    {
      var row := Completion(executions[id].generation, a.initiative, a.artifactSet, a.result, a.review, summary, now);
      if id in completions || !InsertAllowed(Tables(), id, row) {
        return false;
      }
      completions := completions[id := row];
      bindings := bindings[id := bindings[id].(result := Some(a.result), review := Some(a.review),
                                               completedAt := Some(now))];
      ok := true;
    }

    // Close the execution, then the task behind its update trigger.
    method Close(id: int, summary: string, now: int) returns (ok: bool)
      requires id in tasks && id in executions
      modifies `tasks, `executions
      ensures ok <==> old(executions)[id].status == Running && old(tasks)[id].status == InProgress
                      && DoneAllowed(Finished(old(Tables()), id, now), id, summary, now)
      ensures ok ==> Tables() == SetRows(old(Tables()), id,
                Rows(Some(old(tasks)[id].(status := Done, result := Some(summary), updatedAt := now)),
                     Some(old(executions)[id].(status := Completed, updatedAt := now))))
    {
      if executions[id].status != Running || tasks[id].status != InProgress {
        return false;
      }
      executions := executions[id := executions[id].(status := Completed, updatedAt := now)];
      if !DoneAllowed(Tables(), id, summary, now) {
        return false;
      }
      tasks := tasks[id := tasks[id].(status := Done, result := Some(summary), updatedAt := now)];
      ok := true;
    }

    method Complete(id: int, op: Op, now: int) returns (ok: bool)
      requires Valid() && op.Complete?
      modifies this
      ensures Valid()
      ensures Stepped(old(Tables()), id, op, now, ok, Tables())
    {
      hide Sound;
      SoundStep(Tables(), Call(id, op, now));
      if id !in tasks || !op.intact || tasks[id].owner != op.actor || tasks[id].status != InProgress {
        return false;
      }
      if id !in executions || executions[id].status != Running || (PilotBound(Tables(), id) && op.token.None?) {
        return false;
      }
      if (op.token.Some? && executions[id].token != op.token) || LeaseExpired(executions[id], now) {
        return false;
      }
      if !op.fenceAllowed || !ClaimFence(Tables(), id) || !CompletionDecision(Tables(), id, op.assurance) {
        return false;
      }
      var before := Tables();
      ok := true;
      if Piloted(Tables(), id) {
        ok := RecordCompletion(id, op.assurance.value, op.summary, now);
      }
      if ok {
        ok := Close(id, op.summary, now);
      }
      if !ok {
        Rollback(before);
      }
    }

    // --- The control plane ---------------------------------------------------------------------------

    // `PilotGate.bind`: a claimed binding is immutable, any other is inserted or replaced.
    method BindPilot(id: int, initiative: string, pilot: bool, artifactSet: Option<string>, now: int) returns (ok: bool)
      requires Valid()
      modifies `bindings
      ensures Valid()
      ensures Stepped(old(Tables()), id, Op.Bind(initiative, pilot, artifactSet), now, ok, Tables())
    {
      hide Sound;
      SoundStep(Tables(), Call(id, Op.Bind(initiative, pilot, artifactSet), now));
      if (pilot && initiative != APPROVED_PILOT) || id !in tasks || tasks[id].status != Open
          || PilotBound(Tables(), id) {
        return false;
      }
      if id in bindings {
        bindings := bindings[id := bindings[id].(initiative := initiative, pilot := pilot, artifactSet := artifactSet)];
      } else {
        bindings := bindings[id := Binding(initiative, pilot, artifactSet, None, None, None)];
      }
      assert tasks == tasks[id := tasks[id]];
      assert id in executions ==> executions == executions[id := executions[id]];
      ok := true;
    }

    // `_attach_process`
    method AttachProcess(id: int, executor: string, process: Process, now: int) returns (ok: bool)
      requires Valid()
      modifies `executions
      ensures Valid()
      ensures Stepped(old(Tables()), id, Op.Attach(executor, process), now, ok, Tables())
    {
      hide Sound;
      SoundStep(Tables(), Call(id, Op.Attach(executor, process), now));
      if id !in executions || executions[id].executor != executor {
        return false;
      }
      executions := executions[id := executions[id].(processId := process.id, processStart := process.start)];
      assert id in tasks ==> tasks == tasks[id := tasks[id]];
      ok := true;
    }

    // `_enforce_task_dispatch_outcome`: a task no executor claimed is blocked after three
    // dispatch attempts; before that its event is deferred.
    method EnforceDispatch(id: int, attempts: nat, now: int) returns (defer: bool)
      requires Valid()
      modifies `tasks
      ensures Valid()
      ensures defer <==> attempts < 3 && id in old(tasks) && id !in executions
                         && old(tasks)[id].status !in {Blocked, Cancelled, Done}
      ensures if attempts >= 3 && id !in executions then Tables() == Step(old(Tables()), Call(id, BlockUnclaimed, now))
              else Tables() == old(Tables())
    {
      hide Sound;
      SoundStep(Tables(), Call(id, BlockUnclaimed, now));
      if id !in tasks || tasks[id].status == Blocked || tasks[id].status == Cancelled || tasks[id].status == Done
         || id in executions {
        return false;
      }
      if attempts >= 3 {
        if tasks[id].status == Open {
          tasks := tasks[id := tasks[id].(status := Blocked, updatedAt := now, blockedReason := Some(UNCLAIMED))];
        }
        return false;
      }
      defer := true;
    }

    // The retry arm of `_recover_execution`.
    method SpendAttempt(id: int, reason: string, now: int)
      requires id in tasks && id in executions
      modifies `tasks, `executions
      ensures Tables() == SetRows(old(Tables()), id, Retried(old(tasks)[id], old(executions)[id], reason, now))
    {
      var e := executions[id];
      var next := e.attempts + 1;
      if next >= e.maxAttempts {
        tasks := tasks[id := tasks[id].(status := Blocked, updatedAt := now,
                                        blockedReason := Some(AttemptsExhausted(reason, next, e.maxAttempts)))];
        executions := executions[id := e.(attempts := next, status := Exhausted, lastError := Some(reason),
                                          updatedAt := now)];
      } else {
        tasks := tasks[id := tasks[id].(status := Open, updatedAt := now, blockedReason := None)];
        executions := executions[id := e.(attempts := next, status := Requeued, lastError := Some(reason),
                                          updatedAt := now)];
      }
    }

    // `_recover_execution`
    method RecoverExecution(id: int, reason: string, alive: bool, now: int) returns (handled: bool)
      requires Valid()
      modifies `tasks, `executions
      ensures Valid()
      ensures Stepped(old(Tables()), id, Recover(reason, alive), now, handled, Tables())
      ensures handled ==> id in old(tasks) && id in old(executions) && id in executions && id in tasks
      ensures handled && alive && old(executions)[id].status == Failed ==>
                tasks == old(tasks) && executions[id].status == Unknown
                && executions[id].attempts == old(executions)[id].attempts
      ensures handled && !(alive && old(executions)[id].status == Failed) ==>
                var spent := old(executions)[id].attempts + 1;
                && executions[id].attempts == spent
                && (if spent < old(executions)[id].maxAttempts then
                      tasks[id].status == Open && executions[id].status == Requeued
                    else tasks[id].status == Blocked && executions[id].status == Exhausted)
    {
      hide Accepts, Step, AttemptsExhausted, Sound;
      RecoverStep(Tables(), id, Recover(reason, alive), now);
      SoundStep(Tables(), Call(id, Recover(reason, alive), now));
      if id !in tasks || id !in executions || (executions[id].status != Running && executions[id].status != Failed) {
        return false;
      }
      var e := executions[id];
      if e.status != Failed && !LeaseExpired(e, now) {
        return false;
      }
      if e.status == Failed && alive {
        executions := executions[id := e.(
          status := Unknown, updatedAt := now, lastError := Some(UNCERTAIN + reason))];
        assert tasks == tasks[id := tasks[id]];
      } else {
        SpendAttempt(id, reason, now);
      }
      handled := true;
    }

    // The rows of `requeue_exhausted_task`; its records and its ledger are the recovery stores'.
    method Requeue(id: int, admitted: bool, now: int) returns (ok: bool)
      requires Valid()
      modifies this
      ensures Valid()
      ensures Stepped(old(Tables()), id, Op.Requeue(admitted), now, ok, Tables())
    {
      hide Sound, PolicyFor;
      SoundStep(Tables(), Call(id, Op.Requeue(admitted), now));
      if id !in tasks || id !in executions || !admitted || tasks[id].result.Some? || !MatchesPolicy(id, tasks[id]) {
        return false;
      }
      var e := executions[id];
      if tasks[id].status != Blocked || e.status != Exhausted || e.attempts < e.maxAttempts || e.processId.None? {
        return false;
      }
      pending := pending + {Saved(id, tasks[id], e)};
      tasks := tasks[id := tasks[id].(status := Open, updatedAt := now, blockedReason := None)];
      executions := executions[id := e.(status := Requeued, attempts := 0, checkpoint := None, nextAction := None,
                                        lastError := None, processId := None, processStart := None, session := None,
                                        token := None, updatedAt := now)];
      ok := true;
    }

    // Its ledger line is appended: the rows it saved are forgotten.
    method Publish(saved: Saved, now: int)
      requires Valid() && saved in pending
      modifies `pending
      ensures Valid()
      ensures Stepped(old(Tables()), saved.id, Op.Publish(saved.task, saved.execution), now, true, Tables())
    {
      hide Sound, Accepts, Step;
      PublishStep(Tables(), saved, now);
      SoundStep(Tables(), Call(saved.id, Op.Publish(saved.task, saved.execution), now));
      pending := pending - {saved};
    }

    // Its append failed: the saved columns are written back, whatever the rows hold by then.
    method Compensate(saved: Saved, now: int)
      requires Valid() && saved in pending
      modifies this
      ensures Valid()
      ensures Stepped(old(Tables()), saved.id, Op.Compensate(saved.task, saved.execution), now, true, Tables())
    {
      hide Sound, Accepts, Step;
      CompensateStep(Tables(), saved, now);
      SoundStep(Tables(), Call(saved.id, Op.Compensate(saved.task, saved.execution), now));
      var id, t, e := saved.id, saved.task, saved.execution;
      tasks := tasks[id := tasks[id].(status := t.status, updatedAt := t.updatedAt, blockedReason := t.blockedReason,
                                      result := t.result)];
      executions := executions[id := executions[id].(
        status := e.status, attempts := e.attempts, checkpoint := e.checkpoint, nextAction := e.nextAction,
        lastError := e.lastError, processId := e.processId, processStart := e.processStart, session := e.session,
        token := e.token, updatedAt := e.updatedAt)];
      pending := pending - {saved};
    }

    method Reconcile(id: int, admitted: bool, now: int) returns (ok: bool)
      requires Valid()
      modifies this
      ensures Valid()
      ensures Stepped(old(Tables()), id, Op.Reconcile(admitted), now, ok, Tables())
    {
      hide Sound;
      SoundStep(Tables(), Call(id, Op.Reconcile(admitted), now));
      if !admitted || id !in tasks || id !in executions {
        return false;
      }
      if tasks[id].status != Blocked || executions[id].status != Exhausted
         || executions[id].attempts < executions[id].maxAttempts {
        return false;
      }
      var before := Tables();
      executions := executions[id := executions[id].(status := ExecutionReconciled, updatedAt := now)];
      if tasks[id].result.Some? {
        Rollback(before);
        return false;
      }
      tasks := tasks[id := tasks[id].(status := Reconciled, updatedAt := now, blockedReason := None)];
      ok := true;
    }

    method Cancel(id: int, op: Op, now: int) returns (ok: bool)
      requires Valid() && op.Cancel?
      modifies this
      ensures Valid()
      ensures Stepped(old(Tables()), id, op, now, ok, Tables())
    {
      hide Sound;
      SoundStep(Tables(), Call(id, op, now));
      if id !in tasks || !op.intact || (op.actor != "CEO" && op.actor != tasks[id].owner) {
        return false;
      }
      if tasks[id].status != Open && tasks[id].status != InProgress && tasks[id].status != Blocked {
        return false;
      }
      tasks := tasks[id := tasks[id].(status := Cancelled, updatedAt := now, blockedReason := None,
                                      result := Some(op.reason))];
      if id in executions {
        executions := executions[id := executions[id].(status := ExecutionCancelled, updatedAt := now)];
      }
      ok := true;
    }

    // The loop of `decide`: every blocked task whose reason mentions the approval is opened or
    // closed, until the completion trigger protects one.
    method DecideTasks(approval: nat, approve: bool, now: int) returns (ok: bool)
      modifies `tasks
      ensures ok <==> approve || !DenialRefused(old(Tables()), approval)
      ensures ok ==> tasks == DecidedTasks(old(tasks), approval, approve, now)
    {
      hide Accepts, Step, DecidedSoFar, Matches;
      ghost var before := Tables();
      var rest := set id | id in tasks && tasks[id].status == Blocked;
      DecisionStarts(before, rest, approval, approve, now);
      while rest != {}
        invariant DecidedSoFar(before, tasks, rest, approval, approve, now)
        decreases rest
      {
        Inhabited(rest);
        var id :| id in rest;
        DecisionStep(before, tasks, rest, id, approval, approve, now);
        rest := rest - {id};
        if Matches(tasks[id], approval) {
          if approve {
            tasks := tasks[id := tasks[id].(status := Open, updatedAt := now, blockedReason := None, result := None)];
          } else {
            if exists key <- claims.Keys :: key.0 == id {
              return false;
            }
            tasks := tasks[id := tasks[id].(status := Done, updatedAt := now, blockedReason := None,
                                            result := Some(DENIED))];
          }
        }
      }
      DecisionEnds(before, tasks, approval, approve, now);
      ok := true;
    }

    method Decide(approval: nat, approve: bool, admitted: bool, now: int) returns (ok: bool)
      requires Valid()
      modifies this
      ensures Valid()
      ensures Stepped(old(Tables()), 0, Op.Decide(approval, approve, admitted), now, ok, Tables())
    {
      hide Sound;
      SoundStep(Tables(), Call(0, Op.Decide(approval, approve, admitted), now));
      if !admitted {
        return false;
      }
      var before := Tables();
      ok := DecideTasks(approval, approve, now);
      if !ok {
        Rollback(before);
      }
    }
  }

  // The tasks outside `rest` are decided, and none of them was protected from a denial.
  predicate DecidedSoFar(before: State, tasks: map<int, Task>, rest: set<int>, approval: nat, approve: bool, now: int) {
    && rest <= before.tasks.Keys == tasks.Keys
    && forall id <- before.tasks.Keys ::
         if id in rest then tasks[id] == before.tasks[id]
         else tasks[id] == Decided(before.tasks[id], approval, approve, now)
              && (approve || !Matches(before.tasks[id], approval) || !PilotBound(before, id))
  }

  lemma DecisionStarts(before: State, rest: set<int>, approval: nat, approve: bool, now: int)
    requires rest == set id | id in before.tasks && before.tasks[id].status == Blocked
    ensures DecidedSoFar(before, before.tasks, rest, approval, approve, now)
  {
    hide Contains;
  }

  lemma DecisionStep(before: State, tasks: map<int, Task>, rest: set<int>, id: int, approval: nat, approve: bool,
                     now: int)
    requires DecidedSoFar(before, tasks, rest, approval, approve, now) && id in rest
    ensures id in tasks && id in before.tasks && tasks[id] == before.tasks[id]
    ensures PilotBound(before, id) && Matches(tasks[id], approval) && !approve ==> DenialRefused(before, approval)
    ensures approve || !Matches(tasks[id], approval) || !PilotBound(before, id) ==>
              DecidedSoFar(before, tasks[id := Decided(tasks[id], approval, approve, now)], rest - {id}, approval,
                           approve, now)
    ensures !Matches(tasks[id], approval) ==> DecidedSoFar(before, tasks, rest - {id}, approval, approve, now)
  {
    hide Matches;
  }

  lemma DecisionEnds(before: State, tasks: map<int, Task>, approval: nat, approve: bool, now: int)
    requires DecidedSoFar(before, tasks, {}, approval, approve, now)
    ensures tasks == DecidedTasks(before.tasks, approval, approve, now)
    ensures approve || !DenialRefused(before, approval)
  {
    hide Matches;
    var decided := DecidedTasks(before.tasks, approval, approve, now);
    forall id | id in tasks ensures id in decided && tasks[id] == decided[id] {
      assert id in before.tasks.Keys;
    }
    assert forall id :: id in decided ==> id in tasks;
    assert tasks == decided;
  }
}
