/**
 What the transactions over the CEO state store: a directive as it was given and announced
 once, the content of an applied patch, the outcome of a run, and the result of each action.
 */
module CeoEffects {
  import opened Common
  import opened CeoState
  import opened CeoSafety

  // --- Directives ------------------------------------------------------------------------------------

  // A message not seen before becomes the next directive with the content it was given.
  lemma DirectiveStores(s: State, op: Op)
    requires op.Ingest? && Accepts(s, op) && forall k :: 0 <= k < |s.directives| ==> s.directives[k].origin != op.origin
    ensures var n, d := Step(s, op), |s.directives|;
            && n == s.(directives := n.directives, versions := n.versions, notices := s.notices + [d + 1])
            && |n.directives| == d + 1 && n.directives[..d] == s.directives
            && n.directives[d] == Directive(Current(s).directive + 1, op.origin, op.kind, op.objective, op.constraints,
                                            op.priority)
            && |n.versions| == |s.versions| + 1 && n.versions[..|s.versions|] == s.versions
            && n.versions[|s.versions|] == Version(Current(s).version + 1, Current(s).strategy, Current(s).assumptions,
                                                   Current(s).criticalPath, Current(s).directive + 1,
                                                   FromDirective(d + 1))
  {
  }

  predicate Announced(s: State) {
    |s.notices| == |s.directives| && forall k :: 0 <= k < |s.notices| ==> s.notices[k] == k + 1
  }

  lemma AnnouncedStep(s: State, op: Op)
    requires Announced(s)
    ensures Announced(Step(s, op))
  {
    hide PerformAll;
  }

  lemma {:induction false} AnnouncedRun(s: State, ops: seq<Op>)
    requires Announced(s)
    ensures Announced(Run(s, ops))
    decreases |ops|
  {
    hide Announced, Step;
    if ops == [] {
    } else {
      AnnouncedStep(s, ops[0]);
      AnnouncedRun(Step(s, ops[0]), ops[1..]);
    }
  }

  // In every reachable state each directive has been announced exactly once, in order.
  lemma EveryDirectiveAnnounced(ops: seq<Op>)
    ensures var s := Run(INITIAL, ops);
            |s.notices| == |s.directives| && forall k :: 0 <= k < |s.notices| ==> s.notices[k] == k + 1
  {
    AnnouncedRun(INITIAL, ops);
  }

  // --- Runs ------------------------------------------------------------------------------------------

  // What a patch asks for is what differs from the current row.
  predicate Asks(current: Version, patch: Patch) {
    || (patch.strategy.Some? && patch.strategy.value != current.strategy)
    || (patch.assumptions.Some? && patch.assumptions.value != current.assumptions)
    || (patch.criticalPath.Some? && patch.criticalPath.value != current.criticalPath)
  }

  /**
   An applied patch sets exactly the parts it names: the new version has the given values for
   them and the current ones for the rest, under the same directive, and names the run as its
   source. A patch that changes nothing appends no version.
   */
  lemma PatchApplies(s: State, op: Op)
    requires op.Conclude? && Accepts(s, op)
    requires var held := s.sessions[op.session];
             Current(s).version == held.seen.version && Current(s).directive == held.directive
    ensures var n, current, run := Step(s, op), Current(s), s.sessions[op.session].run;
            && (!Asks(current, op.patch) ==> n.versions == s.versions)
            && (Asks(current, op.patch) ==>
                  |n.versions| == |s.versions| + 1 && n.versions[..|s.versions|] == s.versions
                  && var v := n.versions[|s.versions|];
                     && v.version == current.version + 1 && v.directive == current.directive && v.source == FromRun(run)
                     && v.strategy == (if op.patch.strategy.Some? then op.patch.strategy.value else current.strategy)
                     && v.assumptions == (if op.patch.assumptions.Some? then op.patch.assumptions.value
                                          else current.assumptions)
                     && v.criticalPath == (if op.patch.criticalPath.Some? then op.patch.criticalPath.value
                                           else current.criticalPath))
            && n.runs == s.runs[run := s.runs[run].(status := Applied, error := None,
                                                    result := Some(PerformAll(s.work, op.actions).1))]
            && n.work == PerformAll(s.work, op.actions).0
            && n.directives == s.directives && n.notices == s.notices && n.sessions == s.sessions - {op.session}
  {
    hide PerformAll;
  }

  // A run that comes too late only says so in its own row.
  lemma LateRunIsSuperseded(s: State, op: Op)
    requires op.Conclude? && Accepts(s, op)
    requires var held := s.sessions[op.session];
             Current(s).version != held.seen.version || Current(s).directive != held.directive
    ensures var run := s.sessions[op.session].run;
            Step(s, op) == s.(runs := s.runs[run := s.runs[run].(status := OutOfDate, result := Some([]),
                                                                 error := None)],
                              sessions := s.sessions - {op.session})
  {
    hide PerformAll;
  }

  // A run row is opened with what the snapshot read, and a failure of the reasoner ends it.
  lemma RunRowStores(s: State, op: Op)
    requires (op.Open? || op.Reject?) && Accepts(s, op)
    ensures op.session in s.sessions && (op.Open? ==> s.sessions[op.session].Snapped?)
    ensures op.Reject? ==> s.sessions[op.session].Opened?
                           && (op.status == RetryScheduled || op.status == ProtocolRejected || op.status == RunFailed)
    ensures op.Open? ==>
              var held := s.sessions[op.session];
              Step(s, op) == s.(runs := s.runs + [RunRow(op.event, held.seen.version, held.directive, held.seen,
                                                         Reasoning, None, None)],
                                sessions := s.sessions[op.session := Opened(|s.runs|, held.seen, held.directive)])
    ensures op.Reject? ==>
              var run := s.sessions[op.session].run;
              Step(s, op) == s.(runs := s.runs[run := s.runs[run].(status := op.status, result := None,
                                                                   error := Some(op.error))],
                                sessions := s.sessions - {op.session})
  {
  }

  // A crash forgets the session and nothing else; others may write the tables of tasks and approvals.
  lemma OutsideSteps(s: State, op: Op)
    requires (op.Crash? || op.Operate?) && Accepts(s, op)
    ensures op.Crash? ==> op.session in s.sessions && Step(s, op) == s.(sessions := s.sessions - {op.session})
    ensures op.Operate? ==> Step(s, op) == s.(work := op.work)
  {
  }

  // When the steps of a session are possible.
  lemma SessionAccepted(s: State, op: Op)
    requires s.versions != []
    ensures op.Ingest? ==> (Accepts(s, op) <==> op.valid)
    ensures op.Snap? ==> (Accepts(s, op) <==> op.session !in s.sessions)
    ensures op.Open? ==> (Accepts(s, op) <==> op.session in s.sessions && s.sessions[op.session].Snapped?)
    ensures op.Reject? || op.Conclude? ==>
              (Accepts(s, op)
               <==> && op.session in s.sessions && s.sessions[op.session].Opened?
                    && 0 <= s.sessions[op.session].run < |s.runs|
                    && (op.Reject? ==> op.status in [RetryScheduled, ProtocolRejected, RunFailed]))
    ensures op.Crash? ==> (Accepts(s, op) <==> op.session in s.sessions)
    ensures op.Operate? ==> Accepts(s, op)
  {
  }

  // A snapshot reads the current row and its directive.
  lemma SnapshotReads(s: State, op: Op)
    requires op.Snap? && Accepts(s, op)
    ensures Step(s, op) == s.(sessions := s.sessions[op.session := Snapped(s.versions[|s.versions| - 1],
                                                                           s.versions[|s.versions| - 1].directive)])
  {
  }

  // --- Actions ---------------------------------------------------------------------------------------

  predicate ProductWork(domain: string) {
    domain == "product" || domain == "engineering"
  }

  /**
   One action. A task is refused if its title exists or if an active task works for the same
   side, product or commercial; otherwise it is appended as an active task. A request becomes
   an approval to wait for, and anything else is only noted.
   */
  lemma ActionMeans(w: Work, a: Action)
    ensures var (after, result) := Perform(w, a);
            match a
            case Noop(_) => after == w && result == Noted
            case UpdateState(_) => after == w && result == Noted
            case RequestApproval(_, summary) =>
              after == w.(approvals := w.approvals + [summary]) && result == ApprovalPending
            case CreateTask(_, title, domain, _, _) =>
              if exists k :: 0 <= k < |w.tasks| && w.tasks[k].title == title then after == w && result == AlreadyExists
              else if exists k :: 0 <= k < |w.tasks| && w.tasks[k].active
                                  && (ProductWork(w.tasks[k].domain) <==> ProductWork(domain))
              then after == w && result == LaneOccupied
              else after == w.(tasks := w.tasks + [TaskRow(title, domain, true)]) && result == TaskCreated
  {
  }

  // The actions of a response are performed in order, each on what the ones before left.
  lemma ActionsInOrder(w: Work, actions: seq<Action>, a: Action)
    ensures PerformAll(w, []) == (w, [])
    ensures var (before, results) := PerformAll(w, actions);
            var (after, result) := Perform(before, a);
            PerformAll(w, actions + [a]) == (after, results + [result])
  {
    assert (actions + [a])[..|actions|] == actions;
  }
}
