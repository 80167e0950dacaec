/** The invariant of the operating tables, which every call keeps. */
module TaskInvariant {
  import opened Common
  import opened TaskTables
  import opened TaskProtocol
  import opened TaskSafety
  import opened PilotCompletion

  // A requeue under way saved the rows of an exhausted task.
  predicate Pending(s: State, p: Saved) {
    p.id in s.tasks && p.id in s.executions
    && Exhaustion(Rows(Some(p.task), Some(p.execution))) && PolicyFor(p.id).Some?
  }

  ghost predicate AllPending(s: State) {
    forall p <- s.pending :: Pending(s, p)
  }

  ghost predicate AllStamped(s: State) {
    forall id :: Stamped(RowsOf(s, id))
  }

  ghost predicate AllTraced(s: State) {
    forall id :: Traced(s, id)
  }

  /**
   Task and execution status are compatible, running executions are stamped with their
   generation, completions are whole or reopened, and a requeue under way has saved the rows
   of an exhausted task.
   */
  ghost predicate Sound(s: State) {
    Joint(s) && AllStamped(s) && AllTraced(s) && AllPending(s)
  }

  lemma PendingRows(s: State, p: Saved)
    requires Sound(s) && p in s.pending
    ensures Pending(s, p)
  {
    hide Joint, AllStamped, AllTraced, Pending;
  }

  lemma PublishStep(s: State, p: Saved, now: int)
    requires Sound(s) && p in s.pending
    ensures Accepts(s, p.id, Op.Publish(p.task, p.execution), now)
    ensures Step(s, Call(p.id, Op.Publish(p.task, p.execution), now)) == s.(pending := s.pending - {p})
  {
    hide Sound, PolicyFor;
    PendingRows(s, p);
    assert s.tasks == s.tasks[p.id := s.tasks[p.id]] && s.executions == s.executions[p.id := s.executions[p.id]];
    assert p == Saved(p.id, p.task, p.execution);
  }

  lemma CompensateStep(s: State, p: Saved, now: int)
    requires Sound(s) && p in s.pending
    ensures Pending(s, p) && Accepts(s, p.id, Op.Compensate(p.task, p.execution), now)
    ensures Step(s, Call(p.id, Op.Compensate(p.task, p.execution), now)) ==
            s.(tasks := s.tasks[p.id := RestoredTask(s.tasks[p.id], p.task)],
               executions := s.executions[p.id := RestoredExecution(s.executions[p.id], p.execution)],
               pending := s.pending - {p})
  {
    hide Sound, PolicyFor;
    PendingRows(s, p);
    assert p == Saved(p.id, p.task, p.execution);
  }

  lemma EmptyIsSound()
    ensures Sound(EMPTY)
  {
    forall id ensures Traced(EMPTY, id) && Stamped(RowsOf(EMPTY, id)) && Compatible(RowsOf(EMPTY, id)) {
      assert Whole(EMPTY, id);
    }
  }

  lemma PendingStep(s: State, c: Call, p: Saved)
    requires AllPending(s) && p in Step(s, c).pending
    ensures Pending(Step(s, c), p)
  {
    hide NextRows, PilotAdmits, PilotUpdate, MatchesPolicy;
    StepRows(s, c, p.id);
    if Accepts(s, c.id, c.op, c.now) {
      if !c.op.Decide? {
        RowsPersist(c.id, RowsOf(s, c.id), c.op, c.now);
      }
      PendingSource(s, c, p);
    }
  }

  // An entry is old, or the one the requeue adds.
  lemma PendingSource(s: State, c: Call, p: Saved)
    requires Accepts(s, c.id, c.op, c.now) && p in Step(s, c).pending
    ensures p in s.pending
            || (c.op.Requeue? && p.id == c.id && Rows(Some(p.task), Some(p.execution)) == RowsOf(s, c.id)
                && Exhaustion(RowsOf(s, c.id)) && PolicyFor(p.id).Some?)
  {
    hide NextRows, PilotAdmits, PilotUpdate;
  }

  lemma SoundStep(s: State, c: Call)
    requires Sound(s)
    ensures Sound(Step(s, c))
  {
    hide Step, Stamped, Traced, Joint, Pending, RowsOf;
    JointStep(s, c);
    forall id ensures Stamped(RowsOf(Step(s, c), id)) && Traced(Step(s, c), id) {
      FencingStep(s, c, id, 0);
      TracedStep(s, c, id);
    }
    forall p | p in Step(s, c).pending ensures Pending(Step(s, c), p) {
      PendingStep(s, c, p);
    }
  }

  lemma {:induction false} SoundRun(s: State, calls: seq<Call>)
    requires Sound(s)
    ensures Sound(Run(s, calls))
    decreases |calls|
  {
    hide Sound, Step;
    if calls == [] {
    } else {
      SoundStep(s, calls[0]);
      SoundRun(Step(s, calls[0]), calls[1..]);
    }
  }

  // A compensation checks nothing: in every reachable state it is accepted exactly when
  // its requeue is still under way, whatever has become of the task since.
  lemma CompensationChecksNothing(calls: seq<Call>, id: int, t: Task, e: Execution, now: int)
    ensures var s := Run(EMPTY, calls); Accepts(s, id, Compensate(t, e), now) <==> Saved(id, t, e) in s.pending
  {
    hide Run, Joint, AllStamped, AllTraced, PolicyFor;
    EmptyIsSound();
    SoundRun(EMPTY, calls);
    assert Saved(id, t, e) in Run(EMPTY, calls).pending ==> Pending(Run(EMPTY, calls), Saved(id, t, e));
  }
}
