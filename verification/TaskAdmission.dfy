/**
 When the calls of the operating protocol are accepted, and no others: the exact conditions on
 the tables and on what the caller presents.
 */
module TaskAdmission {
  import opened Common
  import opened TaskTables
  import opened TaskProtocol
  import opened TaskSafety
  import opened PilotCompletion

  // The caller holds the running execution: before its lease ends, with its token if one is given.
  predicate Holding(s: State, id: int, token: Option<Token>, now: int) {
    && id in s.tasks && id in s.executions
    && s.executions[id].status == Running && now < s.executions[id].leaseExpires
    && (token == None || token == s.executions[id].token)
  }

  // Under the pilot the token must be given, and the claim of the present generation carries it
  // together with the initiative and the artifact set of the binding.
  predicate Anchoring(s: State, id: int, token: Option<Token>)
    requires id in s.executions
  {
    var key := (id, s.executions[id].generation);
    if key !in s.claims then !PilotBound(s, id) && (id in s.bindings ==> !s.bindings[id].pilot)
    else token.Some? && s.executions[id].token == Some(s.claims[key].token)
         && id in s.bindings && s.bindings[id].pilot && s.bindings[id].initiative == s.claims[key].initiative
         && s.bindings[id].artifactSet == Some(s.claims[key].artifactSet)
  }

  lemma AnchoringIsFenced(s: State, id: int, token: Option<Token>)
    requires id in s.executions
    ensures Anchoring(s, id, token) <==> (PilotBound(s, id) ==> token.Some?) && ClaimFence(s, id)
  {
    var key := (id, s.executions[id].generation);
    assert key in s.claims ==> key in s.claims.Keys && PilotBound(s, id);
  }

  lemma HeartbeatAccepted(s: State, id: int, op: Op, now: int)
    requires op.Heartbeat?
    ensures Accepts(s, id, op, now)
            <==> && op.lease > 0 && op.intact && op.fenceAllowed && Holding(s, id, op.token, now)
                 && s.executions[id].executor == op.executor && Anchoring(s, id, op.token)
  {
    hide Anchoring, ClaimFence, PilotBound;
    if id in s.executions {
      AnchoringIsFenced(s, id, op.token);
    }
  }

  lemma CheckpointAccepted(s: State, id: int, op: Op, now: int)
    requires op.Checkpoint?
    ensures Accepts(s, id, op, now)
            <==> && op.intact && op.fenceAllowed && Holding(s, id, op.token, now)
                 && s.executions[id].executor == op.executor && Anchoring(s, id, op.token)
  {
    hide Anchoring, ClaimFence, PilotBound;
    if id in s.executions {
      AnchoringIsFenced(s, id, op.token);
    }
  }

  // A failure report is the only call of a holder that nothing but the lease and the token guard.
  lemma FailureAccepted(s: State, id: int, op: Op, now: int)
    requires op.Fail?
    ensures Accepts(s, id, op, now)
            <==> op.intact && Holding(s, id, op.token, now) && s.executions[id].executor == op.executor
  {
  }

  // In whole tables a completion is accepted from the owner who holds the execution, and under the
  // pilot with the assurance of the binding the task was claimed for.
  lemma CompletionAccepted(s: State, id: int, op: Op, now: int)
    requires op.Complete? && Whole(s, id)
    ensures Accepts(s, id, op, now)
            <==> && op.intact && op.fenceAllowed && Holding(s, id, op.token, now)
                 && s.tasks[id].owner == op.actor && s.tasks[id].status == InProgress && Anchoring(s, id, op.token)
                 && (id in s.bindings && s.bindings[id].pilot ==>
                       && s.bindings[id].initiative == "pilot-c2-approved-for-build" && op.assurance.Some?
                       && op.assurance.value.initiative == s.bindings[id].initiative
                       && Some(op.assurance.value.artifactSet) == s.bindings[id].artifactSet)
  {
    hide Anchoring, ClaimFence, PilotBound, Whole, Recordable;
    TriggersAgree(s, id, op, now);
    hide Accepts;
    if id in s.executions {
      AnchoringIsFenced(s, id, op.token);
    }
  }

  // A claim is accepted from the owner of an open task that nobody executes, and under the pilot if
  // the binding names the present artifact set.
  lemma ClaimAccepted(s: State, id: int, op: Op, now: int)
    requires op.ClaimTask?
    ensures Accepts(s, id, op, now)
            <==> && op.lease > 0 && op.maxAttempts > 0 && op.intact && op.dispatchAllowed
                 && id in s.tasks && s.tasks[id].status == Open && s.tasks[id].owner == op.actor
                 && (id in s.executions ==>
                       s.executions[id].status == Requeued || s.executions[id].status == Exhausted)
                 && (id in s.bindings && s.bindings[id].pilot ==>
                       && s.bindings[id].artifactSet.Some? && op.artifactSetCurrent
                       && (id, if id in s.executions then s.executions[id].generation + 1 else 1) !in s.claims)
  {
  }

  predicate Unsettled(t: Task) {
    t.status == Open || t.status == InProgress || t.status == Blocked
  }

  predicate UsedUp(s: State, id: int) {
    && id in s.tasks && id in s.executions && s.tasks[id].status == Blocked && s.tasks[id].result == None
    && s.executions[id].status == Exhausted && s.executions[id].attempts >= s.executions[id].maxAttempts
  }

  // The calls of the control plane.
  lemma ControlAccepted(s: State, id: int, op: Op, now: int)
    ensures op.Cancel? ==>
              (Accepts(s, id, op, now) <==> op.intact && id in s.tasks && Unsettled(s.tasks[id])
                                            && (op.actor == "CEO" || op.actor == s.tasks[id].owner))
    ensures op.Decide? && !op.admitted ==> !Accepts(s, id, op, now)
    ensures op.Retire? ==> (Accepts(s, id, op, now) <==> id in s.tasks && Unsettled(s.tasks[id]))
    ensures op.Escalate? || op.BlockUnclaimed? ==>
              (Accepts(s, id, op, now) <==> id in s.tasks && s.tasks[id].status == Open)
    ensures op.Reconcile? ==> (Accepts(s, id, op, now) <==> op.admitted && UsedUp(s, id))
    ensures op.Attach? ==>
              (Accepts(s, id, op, now) <==> id in s.executions && s.executions[id].executor == op.executor)
    ensures op.Recover? ==>
              (Accepts(s, id, op, now)
               <==> && id in s.tasks && id in s.executions
                    && (s.executions[id].status == Failed
                        || (s.executions[id].status == Running && s.executions[id].leaseExpires <= now)))
  {
    hide ClaimFence, Recordable, CompletionCleared, MatchesPolicy;
  }

  // A new task needs a free id; a binding an open task that was never claimed under the pilot.
  lemma SetupAccepted(s: State, id: int, op: Op, now: int)
    ensures op.Create? ==>
              (Accepts(s, id, op, now) <==> && id !in s.tasks && id !in s.executions && id !in s.bindings
                                            && !PilotBound(s, id) && op.task.status == Open)
    ensures op.Bind? ==>
              (Accepts(s, id, op, now)
               <==> && id in s.tasks && s.tasks[id].status == Open && !PilotBound(s, id)
                    && (op.pilot ==> op.initiative == "pilot-c2-approved-for-build"))
  {
    hide ClaimFence, Recordable, CompletionCleared;
  }

  // The three steps of a governed requeue, as far as the operating tables decide them.
  lemma RequeueAccepted(s: State, id: int, op: Op, now: int)
    ensures op.Requeue? ==>
              (Accepts(s, id, op, now) <==> op.admitted && UsedUp(s, id) && MatchesPolicy(id, s.tasks[id])
                                            && s.executions[id].processId.Some?)
    ensures op.Publish? ==>
              (Accepts(s, id, op, now) <==> Saved(id, op.previousTask, op.previousExecution) in s.pending)
    ensures op.Compensate? ==>
              (Accepts(s, id, op, now)
               <==> && Saved(id, op.previousTask, op.previousExecution) in s.pending
                    && id in s.tasks && id in s.executions
                    && op.previousTask.status == Blocked && op.previousExecution.status == Exhausted)
  {
    hide ClaimFence, Recordable, CompletionCleared;
  }
}
