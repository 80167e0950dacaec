/**
 Completion of pilot-bound tasks: the invariant that ties a done task, its completed
 execution, its completion row and the completion fields of its binding together, the one
 way out of it, and what the completion triggers do on either side.
 */
module PilotCompletion {
  import opened Common
  import opened TaskTables
  import opened TaskProtocol

  // --- The invariant --------------------------------------------------------------------------------

  // All claims of the task carry the initiative and artifact set of its binding.
  ghost predicate SameAnchor(s: State, id: int)
    requires id in s.bindings && id in s.executions
  {
    forall g :: (id, g) in s.claims ==>
                  g <= s.executions[id].generation
                  && s.claims[(id, g)].initiative == s.bindings[id].initiative
                  && Some(s.claims[(id, g)].artifactSet) == s.bindings[id].artifactSet
  }

  predicate Settled(s: State, id: int)
    requires id in s.tasks
  {
    var t := s.tasks[id];
    t.status == Done && t.result.Some? && Persisted(s, id, t.result.value, t.updatedAt)
  }

  predicate StillOpen(s: State, id: int)
    requires id in s.tasks && id in s.executions && id in s.bindings
  {
    s.tasks[id].status != Done && s.executions[id].status != Completed && Unset(s.bindings[id])
  }

  ghost predicate Whole(s: State, id: int) {
    if !PilotBound(s, id) then id !in s.completions && (id in s.bindings ==> Unset(s.bindings[id]))
    else
      && id in s.tasks && id in s.executions && Piloted(s, id) && SameAnchor(s, id)
      && (if id in s.completions then Settled(s, id) else StillOpen(s, id))
  }

  // A completed task that a compensation has taken back: the row and the fields of its completion stay.
  ghost predicate Reopened(s: State, id: int) {
    && PilotBound(s, id) && id in s.tasks && id in s.executions && Piloted(s, id) && SameAnchor(s, id)
    && id in s.completions && Fields(s, id) == [true, true, true]
    && s.tasks[id].status != Done && s.executions[id].status != Completed
  }

  ghost predicate Traced(s: State, id: int) {
    Whole(s, id) || Reopened(s, id)
  }

  function Fields(s: State, id: int): seq<bool>
    requires id in s.bindings
  {
    [s.bindings[id].result.Some?, s.bindings[id].review.Some?, s.bindings[id].completedAt.Some?]
  }

  // A compensation that lands on a completed pilot task.
  predicate Reopening(s: State, c: Call, id: int) {
    && c.op.Compensate? && c.id == id && Accepts(s, c.id, c.op, c.now)
    && PilotBound(s, id) && s.tasks[id].status == Done
  }

  // A call writes the pilot rows of its own task only.
  lemma Elsewhere(s: State, c: Call, id: int)
    requires Accepts(s, c.id, c.op, c.now) && c.id != id
    ensures var n := PilotUpdate(s, c.id, c.op, c.now);
            && (id in n.bindings <==> id in s.bindings) && (id in s.bindings ==> n.bindings[id] == s.bindings[id])
            && (id in n.completions <==> id in s.completions)
            && (id in s.completions ==> n.completions[id] == s.completions[id])
            && (forall g :: ((id, g) in n.claims <==> (id, g) in s.claims)
                            && ((id, g) in s.claims ==> n.claims[(id, g)] == s.claims[(id, g)]))
  {
    hide Admits, PilotAdmits, NextRows, Claimed, RowsOf, Piloted, CompletionRow;
  }

  // What is read of another task does not change.
  lemma Untouched(s: State, c: Call, id: int)
    requires Accepts(s, c.id, c.op, c.now) && c.id != id && !c.op.Decide?
    ensures Whole(s, id) ==> Whole(Step(s, c), id)
    ensures Reopened(s, id) ==> Reopened(Step(s, c), id)
  {
    hide Admits, PilotAdmits, NextRows, PilotUpdate, Whole, Reopened;
    StepRows(s, c, id);
    Elsewhere(s, c, id);
    SameView(s, Step(s, c), id);
  }

  lemma SameView(s: State, n: State, id: int)
    requires RowsOf(n, id) == RowsOf(s, id)
    requires (id in n.bindings <==> id in s.bindings) && (id in s.bindings ==> n.bindings[id] == s.bindings[id])
    requires (id in n.completions <==> id in s.completions)
             && (id in s.completions ==> n.completions[id] == s.completions[id])
    requires forall g :: ((id, g) in n.claims <==> (id, g) in s.claims)
                         && ((id, g) in s.claims ==> n.claims[(id, g)] == s.claims[(id, g)])
    ensures Whole(s, id) ==> Whole(n, id)
    ensures Reopened(s, id) ==> Reopened(n, id)
  {
    assert PilotBound(n, id) <==> PilotBound(s, id) by {
      assert forall key :: key in s.claims && key.0 == id ==> key == (id, key.1);
      assert forall key :: key in n.claims && key.0 == id ==> key == (id, key.1);
    }
    assert id in s.tasks <==> id in n.tasks;
    assert id in s.executions <==> id in n.executions;
  }

  lemma DecisionKeeps(s: State, c: Call, id: int)
    requires Accepts(s, c.id, c.op, c.now) && c.op.Decide?
    ensures Whole(s, id) ==> Whole(Step(s, c), id)
    ensures Reopened(s, id) ==> Reopened(Step(s, c), id)
  {
    var n := Step(s, c);
    assert n.bindings == s.bindings && n.claims == s.claims && n.completions == s.completions;
    assert PilotBound(n, id) <==> PilotBound(s, id);
    hide Contains;
    if PilotBound(s, id) && id in s.tasks {
      assert n.tasks[id] == Decided(s.tasks[id], c.op.approval, c.op.approve, c.now);
      assert !c.op.approve ==> !Matches(s.tasks[id], c.op.approval);
    }
  }

  // Of such calls, only a compensation ends the closed state, and none enters it.
  lemma RowsOnlyNext(id: int, r: Rows, op: Op, now: int)
    requires Admits(id, r, op, now) && RowsOnly(op) && r.task.Some? && r.execution.Some?
    ensures var n := NextRows(id, r, op, now);
            && n.task.Some? && n.execution.Some?
            && n.execution.value.generation == r.execution.value.generation
            && (r.task.value.status != Done ==> n.task.value.status != Done)
            && (r.execution.value.status != Completed ==> n.execution.value.status != Completed)
            && (r.task.value.status == Done && r.execution.value.status == Completed && !op.Compensate? ==>
                  n.task == r.task && n.execution.value.status == Completed
                  && n.execution.value.token == r.execution.value.token
                  && n.execution.value.updatedAt == r.execution.value.updatedAt)
  {
  }

  lemma RowsOnlyFrame(s: State, c: Call)
    requires Accepts(s, c.id, c.op, c.now) && RowsOnly(c.op)
    ensures var n := Step(s, c);
            && n.bindings == s.bindings && n.claims == s.claims && n.completions == s.completions
            && (PilotBound(n, c.id) <==> PilotBound(s, c.id))
  {
    hide Admits, PilotAdmits, NextRows, RowsOf, Claimed, Recorded, Piloted, Underway;
    assert PilotUpdate(s, c.id, c.op, c.now) == s;
  }

  lemma RowsOnlyKeeps(s: State, c: Call)
    requires Accepts(s, c.id, c.op, c.now) && RowsOnly(c.op)
    ensures Whole(s, c.id) && !Reopening(s, c, c.id) ==> Whole(Step(s, c), c.id)
    ensures Whole(s, c.id) && Reopening(s, c, c.id) ==> Reopened(Step(s, c), c.id)
    ensures Reopened(s, c.id) ==> Reopened(Step(s, c), c.id)
  {
    var id, n := c.id, Step(s, c);
    RowsOnlyFrame(s, c);
    hide Admits, PilotAdmits, NextRows, PilotUpdate, Matches, Next, Step;
    if PilotBound(s, id) && id in s.tasks && id in s.executions {
      RowsOnlyNext(id, RowsOf(s, id), c.op, c.now);
      StepRows(s, c, id);
      assert RowsOf(n, id).task == Some(n.tasks[id]) && RowsOf(n, id).execution == Some(n.executions[id]);
    }
  }

  lemma BindKeeps(s: State, c: Call)
    requires Accepts(s, c.id, c.op, c.now) && c.op.Bind? && Whole(s, c.id)
    ensures Whole(Step(s, c), c.id)
  {
    var n := Step(s, c);
    assert n.claims == s.claims && n.completions == s.completions;
    assert !PilotBound(n, c.id);
  }

  lemma ClaimKeeps(s: State, c: Call)
    requires Accepts(s, c.id, c.op, c.now) && c.op.ClaimTask? && Traced(s, c.id)
    ensures Whole(s, c.id) ==> Whole(Step(s, c), c.id)
    ensures Reopened(s, c.id) ==> Reopened(Step(s, c), c.id)
  {
    var id, n := c.id, Step(s, c);
    var e := Claimed(RowsOf(s, id), c.op, c.now);
    assert n.executions[id] == e && n.tasks[id].status == InProgress;
    assert n.bindings == s.bindings && n.completions == s.completions;
    if Piloted(s, id) {
      assert (id, e.generation) in n.claims;
      assert PilotBound(n, id);
    } else {
      assert PilotBound(n, id) == PilotBound(s, id);
    }
  }

  /**
   In a whole state the triggers never abort a completion the checks let through: it is
   accepted if and only if the row conditions, the token rule, the claim fence and the
   completion decision hold.
   */
  lemma TriggersAgree(s: State, id: int, op: Op, now: int)
    requires op.Complete? && Whole(s, id)
    ensures Accepts(s, id, op, now)
            <==> Admits(id, RowsOf(s, id), op, now) && CompletionCleared(s, id, op.token, op.assurance)
  {
  }

  // In a reopened state they abort every completion, also one the checks let through.
  lemma TriggersRefuse(s: State, id: int, op: Op, now: int)
    requires op.Complete? && Reopened(s, id)
    ensures !Accepts(s, id, op, now)
  {
  }

  lemma CompleteKeeps(s: State, c: Call)
    requires Accepts(s, c.id, c.op, c.now) && c.op.Complete? && Whole(s, c.id)
    ensures Whole(Step(s, c), c.id)
  {
    var id, n := c.id, Step(s, c);
    assert n.claims == s.claims;
    assert PilotBound(n, id) == PilotBound(s, id);
    if Piloted(s, id) {
      assert (id, s.executions[id].generation) in s.claims;
      assert n.tasks[id].status == Done && n.tasks[id].updatedAt == c.now;
      assert Persisted(n, id, c.op.summary, c.now);
    } else {
      assert n.bindings == s.bindings && n.completions == s.completions;
      assert !PilotBound(s, id);
    }
  }

  lemma WholeStep(s: State, c: Call, id: int)
    requires Whole(s, id) && !Reopening(s, c, id)
    ensures Whole(Step(s, c), id)
  {
    hide Admits, PilotAdmits, NextRows, PilotUpdate, Matches, Whole, Reopened, Next;
    if Accepts(s, c.id, c.op, c.now) {
      if c.op.Decide? {
        DecisionKeeps(s, c, id);
      } else if c.id != id {
        Untouched(s, c, id);
      } else if c.op.Bind? {
        BindKeeps(s, c);
      } else if c.op.ClaimTask? {
        ClaimKeeps(s, c);
      } else if c.op.Complete? {
        CompleteKeeps(s, c);
      } else {
        RowsOnlyKeeps(s, c);
      }
    }
  }

  // No call ends the reopened state.
  lemma ReopenedStep(s: State, c: Call, id: int)
    requires Reopened(s, id)
    ensures Reopened(Step(s, c), id)
  {
    assert PilotBound(s, id);
    TriggersRefuseCall(s, c, id);
    hide Admits, NextRows, PilotUpdate, Matches, Whole, Reopened, Next, PilotBound, ClaimFence;
    if Accepts(s, c.id, c.op, c.now) {
      if c.op.Decide? {
        DecisionKeeps(s, c, id);
      } else if c.id != id {
        Untouched(s, c, id);
      } else if c.op.ClaimTask? {
        ClaimKeeps(s, c);
      } else {
        assert !c.op.Bind?;
        RowsOnlyKeeps(s, c);
      }
    }
  }

  lemma TriggersRefuseCall(s: State, c: Call, id: int)
    requires Reopened(s, id)
    ensures c.id == id && c.op.Complete? ==> !Accepts(s, c.id, c.op, c.now)
  {
    if c.op.Complete? && c.id == id {
      TriggersRefuse(s, id, c.op, c.now);
    }
  }

  lemma TracedStep(s: State, c: Call, id: int)
    requires Traced(s, id)
    ensures Traced(Step(s, c), id)
  {
    hide Whole, Reopened, Step, Reopening;
    if Reopened(s, id) {
      ReopenedStep(s, c, id);
    } else {
      WholeExactly(s, c, id);
    }
  }

  // The one call that breaks the invariant, and it always does: it reopens the task.
  lemma WholeExactly(s: State, c: Call, id: int)
    requires Whole(s, id)
    ensures Whole(Step(s, c), id) <==> !Reopening(s, c, id)
    ensures Reopening(s, c, id) <==> Reopened(Step(s, c), id)
  {
    Apart(s, id);
    Apart(Step(s, c), id);
    hide Whole, Reopened, Step;
    if Reopening(s, c, id) {
      RowsOnlyKeeps(s, c);
    } else {
      WholeStep(s, c, id);
    }
  }

  lemma Apart(s: State, id: int)
    ensures !(Whole(s, id) && Reopened(s, id))
  {
  }

  // No compensation along the run lands on the task after its completion.
  predicate Undisturbed(s: State, calls: seq<Call>, id: int)
    decreases |calls|
  {
    calls == [] || (!Reopening(s, calls[0], id) && Undisturbed(Step(s, calls[0]), calls[1..], id))
  }

  lemma {:induction false} ReopenedRun(s: State, calls: seq<Call>, id: int)
    requires Reopened(s, id)
    ensures Reopened(Run(s, calls), id)
    decreases |calls|
  {
    if calls == [] {
    } else {
      ReopenedStep(s, calls[0], id);
      ReopenedRun(Step(s, calls[0]), calls[1..], id);
    }
  }

  lemma {:induction false} WholeRun(s: State, calls: seq<Call>, id: int)
    requires Whole(s, id)
    ensures if Undisturbed(s, calls, id) then Whole(Run(s, calls), id) else Reopened(Run(s, calls), id)
    decreases |calls|
  {
    hide Whole, Reopened, Reopening, Step;
    if calls == [] {
    } else {
      WholeExactly(s, calls[0], id);
      if Reopening(s, calls[0], id) {
        ReopenedRun(Step(s, calls[0]), calls[1..], id);
      } else {
        WholeRun(Step(s, calls[0]), calls[1..], id);
      }
    }
  }

  // What the two triggers let pass: a completion of work in progress under the claim it names, into
  // a binding that records no completion yet, and then a task in progress with what was recorded.
  lemma TriggersMean(s: State, id: int, c: Completion, result: string, at: int)
    ensures InsertAllowed(s, id, c) ==>
              && id in s.tasks && s.tasks[id].status == InProgress && id in s.executions
              && s.executions[id].status == Running && s.executions[id].generation == c.generation
              && id in s.bindings && s.bindings[id].pilot && s.bindings[id].result == None
              && s.bindings[id].review == None && s.bindings[id].completedAt == None
              && (id, c.generation) in s.claims && s.executions[id].token == Some(s.claims[(id, c.generation)].token)
              && s.claims[(id, c.generation)].initiative == c.initiative == s.bindings[id].initiative
              && s.claims[(id, c.generation)].artifactSet == c.artifactSet
              && s.bindings[id].artifactSet == Some(c.artifactSet)
    ensures id in s.tasks && PilotBound(s, id) && DoneAllowed(s, id, result, at) ==>
              && s.tasks[id].status == InProgress && id in s.completions && id in s.executions
              && s.completions[id].taskResult == result && s.completions[id].completedAt == at
              && s.executions[id].status == Completed && s.executions[id].updatedAt == at
  {
  }

  // An accepted completion has passed both triggers where they apply: the first in the tables as
  // they were, the second with the new row, the fields and the completed execution in place.
  lemma CompletionPassesTriggers(s: State, id: int, op: Op, now: int)
    requires op.Complete? && Accepts(s, id, op, now)
    ensures id in s.tasks && id in s.executions
    ensures Piloted(s, id) ==>
              && op.assurance.Some? && id !in s.completions
              && InsertAllowed(s, id, CompletionRow(s, id, op.assurance.value, op.summary, now))
              && DoneAllowed(Finished(Recorded(s, id, op.assurance.value, op.summary, now), id, now), id, op.summary,
                             now)
    ensures !Piloted(s, id) ==> DoneAllowed(Finished(s, id, now), id, op.summary, now)
  {
    hide InsertAllowed, DoneAllowed, ClaimFence;
  }

  // A reopened task is never completed again, whatever happens afterwards.
  lemma ReopenedForever(s: State, c: Call, after: seq<Call>, id: int, op: Op, now: int)
    requires Whole(s, id) && Reopening(s, c, id) && op.Complete?
    ensures var n := Run(Step(s, c), after);
            id in n.tasks && n.tasks[id].status != Done && !Accepts(n, id, op, now)
  {
    hide Whole, Reopening, Step, Run, Accepts;
    WholeExactly(s, c, id);
    ReopenedRun(Step(s, c), after, id);
    TriggersRefuse(Run(Step(s, c), after), id, op, now);
  }

  /**
   When a completion is accepted, in every reachable state: the row conditions, the token
   rule, the claim fence and the completion decision hold, and no compensation has landed on
   the task after an earlier completion. The triggers abort nothing else.
   */
  lemma CompletionVerdict(calls: seq<Call>, id: int, op: Op, now: int)
    requires op.Complete?
    ensures var s := Run(EMPTY, calls);
            Accepts(s, id, op, now)
            <==> Admits(id, RowsOf(s, id), op, now) && CompletionCleared(s, id, op.token, op.assurance)
                 && Undisturbed(EMPTY, calls, id)
  {
    assert Whole(EMPTY, id);
    hide Run, Undisturbed, Admits, CompletionCleared, Recordable;
    WholeRun(EMPTY, calls, id);
    var s := Run(EMPTY, calls);
    hide Whole, Reopened, Accepts;
    if Undisturbed(EMPTY, calls, id) {
      TriggersAgree(s, id, op, now);
    } else {
      TriggersRefuse(s, id, op, now);
    }
  }

  // A done task, its completed execution, its completion row and the three fields go together.
  predicate Agree(s: State, id: int)
    requires id in s.tasks && id in s.executions && id in s.bindings
  {
    && (s.tasks[id].status == Done <==> s.executions[id].status == Completed)
    && (s.tasks[id].status == Done <==> id in s.completions)
    && (s.tasks[id].status == Done ==>
          s.tasks[id].result.Some? && Persisted(s, id, s.tasks[id].result.value, s.tasks[id].updatedAt))
  }

  /**
   Completion of a pilot-bound task is all or nothing, in every reachable state. Its status,
   its execution and its completion row agree if and only if no compensation has landed on
   the completed task. In any case the completion row exists if and only if each of the three
   fields of the binding is set, and otherwise none is; and every claim the task ever had
   carries the initiative and the artifact set of that binding.
   */
  lemma AllOrNothing(calls: seq<Call>, id: int)
    requires PilotBound(Run(EMPTY, calls), id)
    ensures var s := Run(EMPTY, calls);
            && id in s.tasks && id in s.executions && id in s.bindings && SameAnchor(s, id)
            && (Agree(s, id) <==> Undisturbed(EMPTY, calls, id))
            && Fields(s, id) == (if id in s.completions then [true, true, true] else [false, false, false])
  {
    hide Run, Undisturbed;
    assert Whole(EMPTY, id);
    WholeRun(EMPTY, calls, id);
  }

  /**
   What a completed pilot task shows in every reachable state, column by column, unless a
   compensation has landed on it: the completion row, the binding, the claim, the execution and
   the task tell the same story.
   */
  lemma DoneMeans(calls: seq<Call>, id: int)
    requires PilotBound(Run(EMPTY, calls), id) && Undisturbed(EMPTY, calls, id)
    requires id in Run(EMPTY, calls).tasks && Run(EMPTY, calls).tasks[id].status == Done
    ensures var s := Run(EMPTY, calls);
            && id in s.executions && id in s.bindings && id in s.completions
            && var t, e, b, c := s.tasks[id], s.executions[id], s.bindings[id], s.completions[id];
               && e.status == Completed && e.generation == c.generation && (id, c.generation) in s.claims
               && t.result == Some(c.taskResult) && t.updatedAt == e.updatedAt == c.completedAt
               && b.pilot && b.initiative == c.initiative && b.artifactSet == Some(c.artifactSet)
               && b.result == Some(c.result) && b.review == Some(c.review) && b.completedAt == Some(c.completedAt)
               && e.token == Some(s.claims[(id, c.generation)].token)
               && s.claims[(id, c.generation)].initiative == c.initiative
               && s.claims[(id, c.generation)].artifactSet == c.artifactSet
  {
    hide Run, Undisturbed;
    AllOrNothing(calls, id);
  }
}
