/**
 `CeoRuntime`: the transactions over the CEO's state, directives and runs. Each keeps the
 invariants of the state, and every version derived from the one before it.
 */
module CeoRuntime {
  import opened Common
  import opened CeoState
  import opened CeoSafety

  lemma Keeps(s: State, op: Op)
    requires Sound(s) && AllDerived(s)
    ensures Sound(Step(s, op)) && AllDerived(Step(s, op)) && s.versions != []
  {
    assert Numbered(s);
    hide Sound, AllDerived, Step;
    SoundStep(s, op);
    DerivedStep(s, op);
  }

  class Runtime {
    var versions: seq<Version>
    var directives: seq<Directive>
    var runs: seq<RunRow>
    var work: Work
    var notices: seq<int>
    var sessions: map<int, Session>

    function Tables(): State
      reads this
    {
      State(versions, directives, runs, work, notices, sessions)
    }

    ghost predicate Valid()
      reads this
    {
      Sound(Tables()) && AllDerived(Tables())
    }

    constructor ()
      ensures Valid() && Tables() == INITIAL
    {
      versions, directives, runs := [Version(1, "{}", [], [], 0, Genesis)], [], [];
      work, notices, sessions := Work([], []), [], map[];
    }

    // `_append_state`: refuses unless the expected version is still the latest.
    method AppendState(expected: int, strategy: string, assumptions: seq<string>, criticalPath: seq<string>,
                       directive: int, source: Source) returns (version: Option<int>)
      modifies `versions
      ensures version.Some? <==> old(versions) != [] && old(versions)[|old(versions)| - 1].version == expected
      ensures version.Some? ==>
                version.value == expected + 1
                && versions == old(versions) + [Version(expected + 1, strategy, assumptions, criticalPath, directive,
                                                        source)]
      ensures version.None? ==> versions == old(versions)
    {
      if versions == [] || versions[|versions| - 1].version != expected {
        return None;
      }
      versions := versions + [Version(expected + 1, strategy, assumptions, criticalPath, directive, source)];
      version := Some(expected + 1);
    }

    // The result names the directive and its version, and says whether it was known before.
    method IngestDirective(origin: Origin, kind: string, objective: string, constraints: seq<string>, priority: int,
                           valid: bool)
      returns (result: Option<(int, int, bool)>)
      requires Valid()
      modifies this
      ensures Valid()
      ensures Tables() == Step(old(Tables()), Ingest(origin, kind, objective, constraints, priority, valid))
      ensures result.Some? <==> valid
      ensures result.Some? ==>
                1 <= result.value.0 <= |directives| && directives[result.value.0 - 1].origin == origin
                && directives[result.value.0 - 1].version == result.value.1
                && (result.value.2 <==> Known(old(Tables()), origin))
    {
      hide Sound, AllDerived;
      Keeps(Tables(), Ingest(origin, kind, objective, constraints, priority, valid));
      if !valid {
        return None;
      }
      for k := 0 to |directives|
        invariant forall j :: 0 <= j < k ==> directives[j].origin != origin
      {
        if directives[k].origin == origin {
          return Some((k + 1, directives[k].version, true));
        }
      }
      var current := versions[|versions| - 1];
      var version, id := current.directive + 1, |directives| + 1;
      directives := directives + [Directive(version, origin, kind, objective, constraints, priority)];
      var appended := AppendState(current.version, current.strategy, current.assumptions, current.criticalPath, version,
                                  FromDirective(id));
      notices := notices + [id];
      result := Some((id, version, false));
    }

    // `_snapshot`
    method Snapshot(session: int) returns (seen: Version)
      requires Valid() && session !in sessions
      modifies `sessions
      ensures Valid()
      ensures Tables() == Step(old(Tables()), Snap(session)) && seen == Current(Tables())
    {
      hide Sound, AllDerived;
      Keeps(Tables(), Snap(session));
      seen := versions[|versions| - 1];
      sessions := sessions[session := Snapped(seen, seen.directive)];
    }

    // The run row, inserted in a transaction of its own after the snapshot.
    method OpenRun(session: int, event: int) returns (run: int)
      requires Valid() && session in sessions && sessions[session].Snapped?
      modifies `runs, `sessions
      ensures Valid()
      ensures Tables() == Step(old(Tables()), Open(session, event)) && run == |old(runs)|
    {
      hide Sound, AllDerived;
      Keeps(Tables(), Open(session, event));
      var seen, directive := sessions[session].seen, sessions[session].directive;
      run := |runs|;
      runs := runs + [RunRow(event, seen.version, directive, seen, Reasoning, None, None)];
      sessions := sessions[session := Opened(run, seen, directive)];
    }

    // A reasoning error, classified.
    method RejectRun(session: int, status: RunStatus, error: string)
      requires Valid() && Running(Tables(), session) && status in {RetryScheduled, ProtocolRejected, RunFailed}
      modifies `runs, `sessions
      ensures Valid()
      ensures Tables() == Step(old(Tables()), Reject(session, status, error))
    {
      hide Sound, AllDerived;
      Keeps(Tables(), Reject(session, status, error));
      var run := sessions[session].run;
      runs := runs[run := runs[run].(status := status, result := None, error := Some(error))];
      sessions := sessions - {session};
    }

    // The action loop of `_apply_actions`.
    method PerformActions(actions: seq<Action>) returns (results: seq<ActionResult>)
      modifies `work
      ensures (work, results) == PerformAll(old(work), actions)
    {
      results := [];
      assert actions[..0] == [];
      for k := 0 to |actions|
        invariant (work, results) == PerformAll(old(work), actions[..k])
      {
        assert actions[..k + 1][..k] == actions[..k] && actions[..k + 1][k] == actions[k];
        var action := actions[k];
        var result := Noted;
        if action.CreateTask? {
          if TitleTaken(work.tasks, action.title) {
            result := AlreadyExists;
          } else if LaneTaken(work.tasks, LaneOf(action.domain)) {
            result := LaneOccupied;
          } else {
            work := work.(tasks := work.tasks + [TaskRow(action.title, action.domain, true)]);
            result := TaskCreated;
          }
        } else if action.RequestApproval? {
          work := work.(approvals := work.approvals + [action.summary]);
          result := ApprovalPending;
        }
        results := results + [result];
      }
      assert actions[..|actions|] == actions;
    }

    // The end of `_reason_about`: compare with the current row, then supersede or apply.
    method ConcludeRun(session: int, patch: Patch, actions: seq<Action>) returns (status: RunStatus)
      requires Valid() && Running(Tables(), session)
      modifies this
      ensures Valid()
      ensures Tables() == Step(old(Tables()), Conclude(session, patch, actions))
      ensures status == runs[old(sessions)[session].run].status
      ensures status == Applied <==> UpToDate(old(Tables()), old(sessions)[session].seen,
                                              old(sessions)[session].directive)
    {
      hide Sound, AllDerived, PerformAll;
      Keeps(Tables(), Conclude(session, patch, actions));
      var current, held := versions[|versions| - 1], sessions[session];
      sessions := sessions - {session};
      if current.version != held.seen.version || current.directive != held.directive {
        status := OutOfDate;
        runs := runs[held.run := runs[held.run].(status := OutOfDate, result := Some([]), error := None)];
        return;
      }
      var strategy := if patch.strategy.Some? then patch.strategy.value else current.strategy;
      var assumptions := if patch.assumptions.Some? then patch.assumptions.value else current.assumptions;
      var criticalPath := if patch.criticalPath.Some? then patch.criticalPath.value else current.criticalPath;
      if strategy != current.strategy || assumptions != current.assumptions || criticalPath != current.criticalPath {
        var version := AppendState(current.version, strategy, assumptions, criticalPath, current.directive,
                                   FromRun(held.run));
      }
      var results := PerformActions(actions);
      runs := runs[held.run := runs[held.run].(status := Applied, result := Some(results), error := None)];
      status := Applied;
    }
  }
}
