/**
 Safety of the operating protocol over whole runs: the joint state of a task and its
 execution, the fencing of past generations, and the retry budget.
 */
module TaskSafety {
  import opened Common
  import opened TaskTables
  import opened TaskProtocol

  // --- Joint states ------------------------------------------------------------------------------

  predicate Live(r: RecoveryStatus) {
    r == Running || r == Failed || r == Unknown
  }

  predicate Compatible(r: Rows) {
    var x := StatusOf(r);
    if r.task.None? then x.None?
    else match r.task.value.status
      case Open => x.None? || x == Some(Requeued) || x == Some(Exhausted)
      case Blocked => x.None? || x == Some(Requeued) || x == Some(Exhausted)
      case InProgress => x.Some? && Live(x.value)
      case Done => x.None? || x == Some(Requeued) || x == Some(Exhausted) || x == Some(Completed)
      case Cancelled => x.None? || x == Some(ExecutionCancelled)
      case Reconciled => x == Some(ExecutionReconciled)
  }

  ghost predicate Joint(s: State) {
    forall id :: Compatible(RowsOf(s, id))
  }

  lemma CompatibleNext(id: int, r: Rows, op: Op, now: int)
    requires Admits(id, r, op, now) && Compatible(r)
    ensures Compatible(NextRows(id, r, op, now))
  {
  }

  lemma JointStep(s: State, c: Call)
    requires Joint(s)
    ensures Joint(Step(s, c))
  {
    hide Admits, PilotAdmits, NextRows, Next, RowsOf;
    forall id ensures Compatible(RowsOf(Step(s, c), id)) {
      assert Compatible(RowsOf(s, id));
      StepRows(s, c, id);
      if Accepts(s, c.id, c.op, c.now) && c.id == id {
        CompatibleNext(id, RowsOf(s, id), c.op, c.now);
      }
      if c.op.Decide? && id in s.tasks {
        DecidedRows(s, id, c);
      }
    }
  }

  lemma DecidedRows(s: State, id: int, c: Call)
    requires Compatible(RowsOf(s, id)) && c.op.Decide? && id in s.tasks
    ensures Compatible(RowsOf(s, id).(task := Some(Decided(s.tasks[id], c.op.approval, c.op.approve, c.now))))
  {
  }

  lemma {:induction false} JointRun(s: State, calls: seq<Call>)
    requires Joint(s)
    ensures Joint(Run(s, calls))
    decreases |calls|
  {
    if calls == [] {
    } else {
      JointStep(s, calls[0]);
      JointRun(Step(s, calls[0]), calls[1..]);
    }
  }

  // What the joint states say, in both directions, in every reachable state.
  lemma JointMeaning(calls: seq<Call>, id: int)
    requires id in Run(EMPTY, calls).tasks
    ensures var s := Run(EMPTY, calls);
            var t, r := s.tasks[id].status, StatusOf(RowsOf(s, id));
            && (t == InProgress <==> r.Some? && Live(r.value))
            && (t == Reconciled <==> r == Some(ExecutionReconciled))
            && (r == Some(Completed) ==> t == Done)
            && (t == Done ==> !(r.Some? && Live(r.value)))
            && (t == Cancelled ==> r.None? || r == Some(ExecutionCancelled))
            && (r == Some(ExecutionCancelled) ==> t == Cancelled)
            && (t == Open || t == Blocked ==> r.None? || r == Some(Requeued) || r == Some(Exhausted))
  {
    hide Step, Run, Accepts;
    JointRun(EMPTY, calls);
    assert Compatible(RowsOf(Run(EMPTY, calls), id));
  }

  predicate Terminal(t: TaskStatus) {
    t == Done || t == Cancelled || t == Reconciled
  }

  lemma TerminalNext(id: int, r: Rows, op: Op, now: int)
    requires Admits(id, r, op, now) && Compatible(r) && r.task.Some? && Terminal(r.task.value.status)
    ensures var n := NextRows(id, r, op, now);
            n.task.Some? && (n.task.value.status == r.task.value.status <==> !op.Compensate?)
  {
  }

  // A terminal task leaves its status in one case only: a compensation that runs after
  // other work has moved the task it saved.
  lemma TerminalIsAbsorbing(s: State, c: Call, id: int)
    requires Joint(s) && id in s.tasks && Terminal(s.tasks[id].status)
    ensures id in Step(s, c).tasks
    ensures Step(s, c).tasks[id].status == s.tasks[id].status
            <==> !(c.op.Compensate? && c.id == id && Accepts(s, c.id, c.op, c.now))
  {
    hide Admits, PilotAdmits, NextRows, Next, Compatible, Matches;
    var r := RowsOf(s, id);
    assert Compatible(r);
    StepRows(s, c, id);
    if Accepts(s, c.id, c.op, c.now) && c.id == id && !c.op.Decide? {
      TerminalNext(id, r, c.op, c.now);
    }
    TerminalUnmatched(s.tasks[id], c);
  }

  lemma TerminalUnmatched(t: Task, c: Call)
    requires Terminal(t.status)
    ensures c.op.Decide? ==> Decided(t, c.op.approval, c.op.approve, c.now) == t
  {
  }

  // --- Fencing -------------------------------------------------------------------------------------

  // While an execution runs, its token carries its generation.
  predicate Stamped(r: Rows) {
    r.execution.Some? && r.execution.value.status == Running ==>
      r.execution.value.token.Some? && r.execution.value.token.value.generation == r.execution.value.generation
  }

  // Generation g of the task is over: a later one exists, or it has left `running`.
  predicate Over(r: Rows, g: nat) {
    r.execution.Some?
    && (r.execution.value.generation > g || (r.execution.value.generation == g && r.execution.value.status != Running))
  }

  // The executor calls that renew or end an execution, when they present a token of generation g.
  predicate Presents(op: Op, g: nat) {
    match op
    case Heartbeat(_, token, _, _, _) => token.Some? && token.value.generation == g
    case Checkpoint(_, token, _, _, _, _) => token.Some? && token.value.generation == g
    case Fail(_, token, _, _, _) => token.Some? && token.value.generation == g
    case Complete(_, token, _, _, _, _) => token.Some? && token.value.generation == g
    case _ => false
  }

  // Per call: tokens stay stamped, generations never go down, and none returns to `running`.
  lemma FencingNext(id: int, r: Rows, op: Op, now: int, g: nat)
    requires Admits(id, r, op, now) && Stamped(r)
    ensures var n := NextRows(id, r, op, now);
            && Stamped(n) && (Over(r, g) ==> Over(n, g))
            && (r.execution.Some? ==> n.execution.Some? && n.execution.value.generation >= r.execution.value.generation)
  {
  }

  lemma FencingStep(s: State, c: Call, id: int, g: nat)
    requires Stamped(RowsOf(s, id))
    ensures var r, n := RowsOf(s, id), RowsOf(Step(s, c), id);
            && Stamped(n) && (Over(r, g) ==> Over(n, g))
            && (r.execution.Some? ==> n.execution.Some? && n.execution.value.generation >= r.execution.value.generation)
  {
    StepRows(s, c, id);
    hide Admits, PilotAdmits, NextRows, Next, RowsOf;
    if Accepts(s, c.id, c.op, c.now) && c.id == id {
      FencingNext(id, RowsOf(s, id), c.op, c.now, g);
    }
  }

  lemma {:induction false} FencingRun(s: State, calls: seq<Call>, id: int, g: nat)
    requires Stamped(RowsOf(s, id))
    ensures var r, n := RowsOf(s, id), RowsOf(Run(s, calls), id);
            && Stamped(n) && (Over(r, g) ==> Over(n, g))
            && (r.execution.Some? ==> n.execution.Some? && n.execution.value.generation >= r.execution.value.generation)
    decreases |calls|
  {
    if calls == [] {
    } else {
      FencingStep(s, calls[0], id, g);
      FencingRun(Step(s, calls[0]), calls[1..], id, g);
    }
  }

  /**
   Fencing over whole runs. Take any run to a state where generation g has been claimed,
   any continuation after which it is no longer the running one, and any continuation of
   that: no heartbeat, checkpoint, failure or completion with a token of generation g is accepted.
   */
  lemma Fencing(before: seq<Call>, during: seq<Call>, after: seq<Call>, id: int, g: nat, op: Op, now: int)
    requires RowsOf(Run(EMPTY, before), id).execution.Some? && Generation(RowsOf(Run(EMPTY, before), id)) == g
    requires var r := RowsOf(Run(Run(EMPTY, before), during), id);
             r.execution.Some? ==> Generation(r) != g || r.execution.value.status != Running
    requires Presents(op, g)
    ensures !Accepts(Run(Run(Run(EMPTY, before), during), after), id, op, now)
  {
    hide Step, RowsOf, Admits;
    assert RowsOf(EMPTY, id) == Rows(None, None) by { EmptyRows(id); }
    var claimed := Run(EMPTY, before);
    var left := Run(claimed, during);
    FencingRun(EMPTY, before, id, g);
    FencingRun(claimed, during, id, g);
    FencingRun(left, after, id, g);
    PastTokenRejected(Run(left, after), id, g, op, now);
  }

  lemma EmptyRows(id: int)
    ensures RowsOf(EMPTY, id) == Rows(None, None)
  {
  }

  lemma PastTokenRejected(s: State, id: int, g: nat, op: Op, now: int)
    requires Stamped(RowsOf(s, id)) && Over(RowsOf(s, id), g) && Presents(op, g)
    ensures !Accepts(s, id, op, now)
  {
  }

  // A cancelled task stays closed to every token handed out for it, whatever happens afterwards.
  lemma CancelFences(s: State, cancel: Call, after: seq<Call>, g: nat, op: Op, now: int)
    requires Stamped(RowsOf(s, cancel.id)) && cancel.op.Cancel? && Accepts(s, cancel.id, cancel.op, cancel.now)
    requires cancel.id in s.executions && g <= s.executions[cancel.id].generation && Presents(op, g)
    ensures !Accepts(Run(Step(s, cancel), after), cancel.id, op, now)
  {
    hide RowsOf, Admits, PilotAdmits, Run;
    var id, n := cancel.id, Step(s, cancel);
    StepRows(s, cancel, id);
    CancelEnds(s, cancel, g);
    FencingStep(s, cancel, id, g);
    FencingRun(n, after, id, g);
    PastTokenRejected(Run(n, after), id, g, op, now);
  }

  lemma CancelEnds(s: State, cancel: Call, g: nat)
    requires cancel.op.Cancel? && Accepts(s, cancel.id, cancel.op, cancel.now)
    requires cancel.id in s.executions && g <= s.executions[cancel.id].generation
    ensures Over(RowsOf(Step(s, cancel), cancel.id), g)
  {
  }

  // The process an executor attaches decides nothing but whether the task may be requeued.
  lemma AttachedProcessIsInert(s: State, attach: Call, c: Call)
    requires attach.op.Attach? && !c.op.Requeue?
    ensures Accepts(s, c.id, c.op, c.now) <==> Accepts(Step(s, attach), c.id, c.op, c.now)
  {
    hide NextRows, PilotUpdate, PilotAdmits, Admits;
    var n := Step(s, attach);
    StepRows(s, attach, c.id);
    if Accepts(s, attach.id, attach.op, attach.now) {
      AttachedRows(s, attach, c.id);
      SameAdmission(c.id, RowsOf(s, c.id), RowsOf(n, c.id), c.op, c.now);
      if Admits(c.id, RowsOf(s, c.id), c.op, c.now) {
        SamePilotAdmission(s, n, c);
      }
    }
  }

  // Rows that differ in the recorded process at most.
  predicate SameButProcess(r: Rows, n: Rows) {
    n.task == r.task && (n.execution.Some? <==> r.execution.Some?)
    && (r.execution.Some? ==>
          var e := r.execution.value;
          n.execution.value == e.(processId := n.execution.value.processId,
                                  processStart := n.execution.value.processStart))
  }

  lemma AttachedRows(s: State, attach: Call, id: int)
    requires attach.op.Attach? && Accepts(s, attach.id, attach.op, attach.now)
    ensures var n := Step(s, attach);
            && SameButProcess(RowsOf(s, id), RowsOf(n, id)) && n.tasks == s.tasks && n.bindings == s.bindings
            && n.claims == s.claims && n.completions == s.completions && n.pending == s.pending
  {
    assert attach.id in s.tasks ==> s.tasks == s.tasks[attach.id := s.tasks[attach.id]];
  }

  lemma SameAdmission(id: int, r: Rows, n: Rows, op: Op, now: int)
    requires SameButProcess(r, n) && !op.Requeue?
    ensures Admits(id, r, op, now) <==> Admits(id, n, op, now)
  {
  }

  lemma SamePilotAdmission(s: State, n: State, c: Call)
    requires SameButProcess(RowsOf(s, c.id), RowsOf(n, c.id)) && n.tasks == s.tasks && n.bindings == s.bindings
    requires n.claims == s.claims && n.completions == s.completions && n.pending == s.pending
    requires Admits(c.id, RowsOf(s, c.id), c.op, c.now) && Admits(c.id, RowsOf(n, c.id), c.op, c.now)
    ensures PilotAdmits(s, c.id, c.op, c.now) <==> PilotAdmits(n, c.id, c.op, c.now)
  {
    assert PilotBound(s, c.id) == PilotBound(n, c.id);
    assert c.op.Decide? ==> DenialRefused(s, c.op.approval) == DenialRefused(n, c.op.approval) by {
      assert forall id :: PilotBound(s, id) == PilotBound(n, id);
    }
  }

  // The token currently stored for the task.
  function WithToken(op: Op, token: Option<Token>): Op
    requires op.Heartbeat? || op.Checkpoint? || op.Fail? || op.Complete?
  {
    match op
    case Heartbeat(_, _, _, _, _) => op.(token := token)
    case Checkpoint(_, _, _, _, _, _) => op.(token := token)
    case Fail(_, _, _, _, _) => op.(token := token)
    case Complete(_, _, _, _, _, _) => op.(token := token)
  }

  // Fencing is by token only. A call that omits the token is accepted exactly when the same
  // call with the current token is, except that heartbeats, checkpoints and completions of
  // pilot-bound tasks insist on one; failure reports never do.
  lemma OmittedTokenIsUnfenced(s: State, id: int, op: Op, now: int)
    requires op.Heartbeat? || op.Checkpoint? || op.Fail? || op.Complete?
    requires Stamped(RowsOf(s, id))
    ensures Accepts(s, id, WithToken(op, None), now)
            <==> (id in s.executions && Accepts(s, id, WithToken(op, s.executions[id].token), now)
                  && (op.Fail? || !PilotBound(s, id)))
  {
  }

  // --- Retry budget ---------------------------------------------------------------------------------

  predicate Claims(s: State, c: Call, id: int) {
    c.id == id && c.op.ClaimTask? && Accepts(s, c.id, c.op, c.now)
  }

  // A Chairman approval that opens a task whose attempts were exhausted.
  predicate Reopens(s: State, c: Call, id: int) {
    c.op.Decide? && c.op.approve && Accepts(s, c.id, c.op, c.now)
    && id in s.tasks && Matches(s.tasks[id], c.op.approval) && StatusOf(RowsOf(s, id)) == Some(Exhausted)
  }

  function ClaimCount(s: State, calls: seq<Call>, id: int): nat
    decreases |calls|
  {
    if calls == [] then 0
    else One(Claims(s, calls[0], id)) + ClaimCount(Step(s, calls[0]), calls[1..], id)
  }

  function ReopenCount(s: State, calls: seq<Call>, id: int): nat
    decreases |calls|
  {
    if calls == [] then 0
    else One(Reopens(s, calls[0], id)) + ReopenCount(Step(s, calls[0]), calls[1..], id)
  }

  // Claims so far against attempts, reopenings and the limit, by joint state.
  predicate WithinBudget(r: Rows, limit: nat, claims: nat, reopened: nat) {
    if r.execution.None? then claims == 0
    else
      var e := r.execution.value;
      && claims <= limit + reopened
      && (e.status == Requeued ==> claims <= e.attempts + reopened && claims < limit + reopened)
      && (Live(e.status) ==> claims <= e.attempts + 1 + reopened && e.maxAttempts <= limit)
      && (e.status == Exhausted ==> claims <= e.attempts + 1 + reopened)
      && (e.status == Exhausted && r.task.Some? && r.task.value.status == Open ==>
            claims <= e.attempts + reopened && claims < limit + reopened)
  }

  // Every claim of the task asks for at most `limit` attempts, and no governed requeue intervenes.
  predicate Ordinary(calls: seq<Call>, id: int, limit: nat) {
    forall i :: 0 <= i < |calls| && calls[i].id == id ==>
                  !calls[i].op.Requeue? && !calls[i].op.Compensate?
                  && (calls[i].op.ClaimTask? ==> calls[i].op.maxAttempts <= limit)
  }

  function One(b: bool): nat {
    if b then 1 else 0
  }

  lemma BudgetNext(id: int, r: Rows, op: Op, now: int, limit: nat, claims: nat, reopened: nat)
    requires Admits(id, r, op, now) && Compatible(r) && WithinBudget(r, limit, claims, reopened) && limit >= 1
    requires !op.Requeue? && !op.Compensate? && (op.ClaimTask? ==> op.maxAttempts <= limit)
    ensures WithinBudget(NextRows(id, r, op, now), limit, claims + One(op.ClaimTask?), reopened)
  {
  }

  lemma BudgetDecided(r: Rows, approval: nat, approve: bool, now: int, limit: nat, claims: nat, reopened: nat)
    requires r.task.Some? && Compatible(r) && WithinBudget(r, limit, claims, reopened)
    ensures WithinBudget(r.(task := Some(Decided(r.task.value, approval, approve, now))), limit, claims,
                         reopened + One(approve && Matches(r.task.value, approval) && StatusOf(r) == Some(Exhausted)))
  {
  }

  lemma BudgetStep(s: State, c: Call, id: int, limit: nat, claims: nat, reopened: nat)
    requires Joint(s) && limit >= 1 && Ordinary([c], id, limit)
    requires WithinBudget(RowsOf(s, id), limit, claims, reopened)
    ensures WithinBudget(RowsOf(Step(s, c), id), limit, claims + One(Claims(s, c, id)),
                         reopened + One(Reopens(s, c, id)))
  {
    assert [c][0] == c;
    assert Compatible(RowsOf(s, id));
    StepRows(s, c, id);
    hide Admits, PilotAdmits, NextRows, Next, Compatible, Matches, WithinBudget, Joint;
    if Accepts(s, c.id, c.op, c.now) {
      if c.op.Decide? {
        if id in s.tasks {
          BudgetDecided(RowsOf(s, id), c.op.approval, c.op.approve, c.now, limit, claims, reopened);
        }
      } else if c.id == id {
        BudgetNext(id, RowsOf(s, id), c.op, c.now, limit, claims, reopened);
      }
    }
  }

  lemma {:induction false} BudgetRun(s: State, calls: seq<Call>, id: int, limit: nat, claims: nat, reopened: nat)
    requires Joint(s) && limit >= 1 && Ordinary(calls, id, limit)
    requires WithinBudget(RowsOf(s, id), limit, claims, reopened)
    ensures claims + ClaimCount(s, calls, id) <= limit + reopened + ReopenCount(s, calls, id)
    decreases |calls|
  {
    if calls == [] {
    } else {
      var c := calls[0];
      assert Ordinary([c], id, limit) && Ordinary(calls[1..], id, limit);
      BudgetStep(s, c, id, limit, claims, reopened);
      JointStep(s, c);
      BudgetRun(Step(s, c), calls[1..], id, limit, claims + One(Claims(s, c, id)), reopened + One(Reopens(s, c, id)));
    }
  }

  /**
   The retry budget. From a task never executed, or just requeued with its attempts
   cleared, any run without further governed requeues claims it at most `limit` times,
   plus once for every Chairman decision that reopens it after exhaustion.
   */
  lemma RetryBudget(before: seq<Call>, calls: seq<Call>, id: int, limit: nat)
    requires var r := RowsOf(Run(EMPTY, before), id);
             r.execution.None? || (r.execution.value.status == Requeued && r.execution.value.attempts == 0)
    requires limit >= 1 && Ordinary(calls, id, limit)
    ensures ClaimCount(Run(EMPTY, before), calls, id) <= limit + ReopenCount(Run(EMPTY, before), calls, id)
  {
    JointRun(EMPTY, before);
    BudgetRun(Run(EMPTY, before), calls, id, limit, 0, 0);
  }

  // Every requeue by recovery uses up part of the budget, and leaves some of it.
  lemma RecoveryDescends(id: int, r: Rows, op: Op, now: int)
    requires op.Recover? && Admits(id, r, op, now) && StatusOf(NextRows(id, r, op, now)) == Some(Requeued)
    ensures var before, after := r.execution.value, NextRows(id, r, op, now).execution.value;
            0 < after.maxAttempts - after.attempts < before.maxAttempts - before.attempts
  {
    hide AttemptsExhausted;
  }
}
