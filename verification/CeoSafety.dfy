/** Optimistic concurrency of the CEO state, over every interleaving. */
module CeoSafety {
  import opened Common
  import opened CeoState

  // --- Invariant -------------------------------------------------------------------------------------

  lemma IngestSound(s: State, op: Op)
    requires Sound(s) && op.Ingest? && !Known(s, op.origin)
    ensures Sound(Ingested(s, op))
  {
  }

  lemma SnapSound(s: State, h: int)
    requires Sound(s) && h !in s.sessions
    ensures Sound(s.(sessions := s.sessions[h := Snapped(Current(s), Current(s).directive)]))
  {
  }

  lemma OpenSound(s: State, op: Op)
    requires Sound(s) && op.Open? && Accepts(s, op)
    ensures Sound(Next(s, op))
  {
    var n, h := Next(s, op), op.session;
    assert forall k :: 0 <= k < |s.runs| ==> n.runs[k] == s.runs[k];
    assert Read(s, s.sessions[h].seen, s.sessions[h].directive);
    forall g | g in n.sessions ensures Read(n, n.sessions[g].seen, n.sessions[g].directive) {
      assert Read(s, s.sessions[g].seen, s.sessions[g].directive);
    }
    hide Read;
  }

  // Ending a session without touching the versions.
  lemma EndSound(s: State, h: int, status: RunStatus, result: Option<seq<ActionResult>>, error: Option<string>)
    requires Sound(s) && Running(s, h)
    ensures Sound(Finished(s, s.sessions[h].run, status, result, error).(sessions := s.sessions - {h}))
  {
  }

  lemma CrashSound(s: State, h: int)
    requires Sound(s)
    ensures Sound(s.(sessions := s.sessions - {h}))
  {
  }

  lemma AppendSound(s: State, run: int, next: Version)
    requires Sound(s) && 0 <= run < |s.runs| && s.runs[run].status == Applied
    requires forall k :: 0 <= k < |s.versions| ==> s.versions[k].source != FromRun(run)
    requires next.version == |s.versions| + 1 && next.directive == |s.directives| && next.source == FromRun(run)
    ensures Sound(s.(versions := s.versions + [next]))
  {
  }

  // A run still reasoning has caused no version.
  lemma NotYetApplied(s: State, run: int)
    requires Caused(s) && 0 <= run < |s.runs| && s.runs[run].status != Applied
    ensures forall k :: 0 <= k < |s.versions| ==> s.versions[k].source != FromRun(run)
  {
  }

  lemma ConcludeSound(s: State, op: Op)
    requires Sound(s) && op.Conclude? && Accepts(s, op)
    ensures Sound(Next(s, op))
  {
    var h := op.session;
    var run := s.sessions[h].run;
    NotYetApplied(s, run);
    if !UpToDate(s, s.sessions[h].seen, s.sessions[h].directive) {
      EndSound(s, h, OutOfDate, Some([]), None);
    } else {
      var next := Patched(Current(s), op.patch, run);
      var (work, results) := PerformAll(s.work, op.actions);
      EndSound(s, h, Applied, Some(results), None);
      var ended := Finished(s, run, Applied, Some(results), None).(sessions := s.sessions - {h});
      WorkSound(ended, work);
      if Changes(Current(s), next) {
        AppendSound(ended.(work := work), run, next);
      }
    }
  }

  lemma WorkSound(s: State, work: Work)
    requires Sound(s)
    ensures Sound(s.(work := work))
  {
  }

  lemma SoundStep(s: State, op: Op)
    requires Sound(s)
    ensures Sound(Step(s, op))
  {
    hide Sound;
    if Accepts(s, op) {
      match op
      case Ingest(origin, _, _, _, _, _) =>
        if !Known(s, origin) {
          IngestSound(s, op);
        }
      case Snap(h) => SnapSound(s, h);
      case Open(_, _) => OpenSound(s, op);
      case Reject(h, status, error) => EndSound(s, h, status, None, Some(error));
      case Conclude(_, _, _) => ConcludeSound(s, op);
      case Crash(h) => CrashSound(s, h);
      case Operate(work) => WorkSound(s, work);
    }
  }

  lemma {:induction false} SoundRun(s: State, ops: seq<Op>)
    requires Sound(s)
    ensures Sound(Run(s, ops))
    decreases |ops|
  {
    hide Sound, Step;
    if ops == [] {
    } else {
      SoundStep(s, ops[0]);
      SoundRun(Step(s, ops[0]), ops[1..]);
    }
  }

  lemma ReachableSound(ops: seq<Op>)
    ensures Sound(Run(INITIAL, ops))
  {
    SoundRun(INITIAL, ops);
  }

  // --- No lost update ----------------------------------------------------------------------------------

  // The version at k was made from the version right before it, by the cause it names: a
  // directive keeps the content, and a run has read exactly that row.
  predicate Derives(s: State, k: nat)
    requires 0 < k < |s.versions|
  {
    var before, v := s.versions[k - 1], s.versions[k];
    match v.source
    case Genesis => false
    case FromDirective(id) =>
      1 <= id <= |s.directives| && s.directives[id - 1].version == v.directive == before.directive + 1
      && v == before.(version := v.version, directive := v.directive, source := v.source)
    case FromRun(run) =>
      0 <= run < |s.runs| && s.runs[run].snapshot == before && s.runs[run].stateRead == k
      && s.runs[run].directiveRead == before.directive == v.directive
  }

  predicate AllDerived(s: State) {
    forall k :: 0 < k < |s.versions| ==> Derives(s, k)
  }

  // Versions and directives are append-only.
  lemma AppendOnly(s: State, op: Op)
    ensures s.versions <= Step(s, op).versions && s.directives <= Step(s, op).directives
  {
  }

  predicate SameReading(before: RunRow, after: RunRow) {
    after.snapshot == before.snapshot && after.stateRead == before.stateRead
    && after.directiveRead == before.directiveRead
  }

  // What a step leaves of a run row: the snapshot it was opened with.
  lemma RunsKeepSnapshots(s: State, op: Op)
    ensures var n := Step(s, op);
            |s.runs| <= |n.runs|
            && forall r :: 0 <= r < |s.runs| ==> SameReading(s.runs[r], n.runs[r])
  {
    hide PerformAll;
  }

  // A step appends at most one version, and that one derives from the row before it.
  lemma LastDerives(s: State, op: Op)
    requires Sound(s)
    ensures var n := Step(s, op);
            |n.versions| <= |s.versions| + 1 && (|n.versions| > |s.versions| ==> Derives(n, |s.versions|))
  {
    hide PerformAll, Caused, DistinctOrigins;
  }

  lemma DerivedStep(s: State, op: Op)
    requires Sound(s) && AllDerived(s)
    ensures AllDerived(Step(s, op))
  {
    RunsKeepSnapshots(s, op);
    AppendOnly(s, op);
    LastDerives(s, op);
    hide Step, Sound;
    var n := Step(s, op);
    forall k | 0 < k < |n.versions| ensures Derives(n, k) {
      if k < |s.versions| {
        assert Derives(s, k);
      }
    }
  }

  lemma {:induction false} DerivedRun(s: State, ops: seq<Op>)
    requires Sound(s) && AllDerived(s)
    ensures AllDerived(Run(s, ops))
    decreases |ops|
  {
    hide Sound, AllDerived, Step;
    if ops == [] {
    } else {
      SoundStep(s, ops[0]);
      DerivedStep(s, ops[0]);
      DerivedRun(Step(s, ops[0]), ops[1..]);
    }
  }

  /**
   No update is ever lost. In every reachable state each version was made from the one right
   before it: by a directive, which keeps its content and counts one directive more, or by a
   run that had read exactly that row.
   */
  lemma NoLostUpdate(ops: seq<Op>, k: nat)
    requires 0 < k < |Run(INITIAL, ops).versions|
    ensures Derives(Run(INITIAL, ops), k)
  {
    hide Run;
    DerivedRun(INITIAL, ops);
  }

  // --- Main results -----------------------------------------------------------------------------------

  // In every reachable state the versions are 1..n without gaps, the active directive version
  // is the number of directives ingested, and each version has a cause of its own.
  lemma VersionsContiguous(ops: seq<Op>)
    ensures var s := Run(INITIAL, ops);
            && s.versions != [] && (forall k :: 0 <= k < |s.versions| ==> s.versions[k].version == k + 1)
            && Current(s).directive == |s.directives|
            && (forall k :: 0 <= k < |s.directives| ==> s.directives[k].version == k + 1)
            && (forall j, k :: 0 <= j < k < |s.versions| ==> s.versions[j].source != s.versions[k].source)
  {
    SoundRun(INITIAL, ops);
  }

  // How much of the state a conclusion may touch when the run is out of date: its own run row.
  predicate OnlyRunRow(s: State, n: State, run: int) {
    && n.versions == s.versions && n.directives == s.directives && n.work == s.work && n.notices == s.notices
    && |n.runs| == |s.runs| && forall k :: 0 <= k < |s.runs| && k != run ==> n.runs[k] == s.runs[k]
  }

  /**
   A run is applied exactly when nothing was appended since its snapshot: what it saw is then
   the current row itself, not only its number. Otherwise it is superseded, and nothing but
   its own run row changes.
   */
  lemma AppliedSawCurrent(ops: seq<Op>, op: Op)
    requires op.Conclude? && Accepts(Run(INITIAL, ops), op)
    ensures var s := Run(INITIAL, ops);
            var run := s.sessions[op.session].run;
            var n := Step(s, op);
            && (n.runs[run].status == Applied <==> s.runs[run].snapshot == Current(s))
            && (n.runs[run].status == Applied ==>
                  s.runs[run].stateRead == |s.versions| && s.runs[run].directiveRead == |s.directives|)
            && (n.runs[run].status != Applied ==> n.runs[run].status == OutOfDate && OnlyRunRow(s, n, run))
  {
    hide Run, PerformAll, DistinctOrigins, Caused;
    ReachableSound(ops);
    var s := Run(INITIAL, ops);
    assert Read(s, s.sessions[op.session].seen, s.sessions[op.session].directive);
  }

  // An applied run appends exactly the patched row, if the patch changes anything.
  lemma AppliedAppends(ops: seq<Op>, op: Op)
    requires op.Conclude? && Accepts(Run(INITIAL, ops), op)
    requires var s := Run(INITIAL, ops); s.runs[s.sessions[op.session].run].snapshot == Current(s)
    ensures var s := Run(INITIAL, ops);
            var n := Step(s, op);
            var next := Patched(Current(s), op.patch, s.sessions[op.session].run);
            && n.versions == (if Changes(Current(s), next) then s.versions + [next] else s.versions)
            && n.directives == s.directives
            && (n.work, n.runs[s.sessions[op.session].run].result.value) == PerformAll(s.work, op.actions)
  {
    AppliedSawCurrent(ops, op);
    SoundRun(INITIAL, ops);
    hide Run, PerformAll;
    var s := Run(INITIAL, ops);
    assert Running(s, op.session);
  }

  lemma {:induction false} AppendOnlyRun(s: State, ops: seq<Op>)
    ensures s.versions <= Run(s, ops).versions && s.directives <= Run(s, ops).directives
    decreases |ops|
  {
    if ops == [] {
    } else {
      AppendOnly(s, ops[0]);
      AppendOnlyRun(Step(s, ops[0]), ops[1..]);
    }
  }

  // Ingesting a directive again, at any later time, changes nothing: the directive is known
  // and keeps its version.
  lemma ReingestIdempotent(s: State, first: Op, between: seq<Op>, again: Op)
    requires first.Ingest? && Accepts(s, first) && again.Ingest? && again.origin == first.origin
    ensures var n := Run(Step(s, first), between);
            && Known(n, first.origin) && Step(n, again) == n
            && exists k :: 0 <= k < |Step(s, first).directives| && Step(s, first).directives[k].origin == first.origin
                           && k < |n.directives| && n.directives[k] == Step(s, first).directives[k]
  {
    var ingested := Step(s, first);
    AppendOnlyRun(ingested, between);
    var n := Run(ingested, between);
    assert Known(ingested, first.origin) by {
      if !Known(s, first.origin) {
        assert ingested.directives[|s.directives|].origin == first.origin;
      }
    }
    var k :| 0 <= k < |ingested.directives| && ingested.directives[k].origin == first.origin;
    assert n.directives[k] == ingested.directives[k];
  }

  // A message is ingested at most once.
  lemma OneDirectivePerMessage(ops: seq<Op>, j: nat, k: nat)
    requires var s := Run(INITIAL, ops);
             j < |s.directives| && k < |s.directives| && s.directives[j].origin == s.directives[k].origin
    ensures j == k
  {
    SoundRun(INITIAL, ops);
  }

  // --- Actions ------------------------------------------------------------------------------------------

  predicate Grows(before: seq<TaskRow>, after: seq<TaskRow>) {
    before <= after && forall k :: |before| <= k < |after| ==> after[k].active
  }

  predicate OnePerLane(before: seq<TaskRow>, after: seq<TaskRow>) {
    forall j, k :: 0 <= j < k < |after| && |before| <= k && after[j].active ==>
                     LaneOf(after[j].domain) != LaneOf(after[k].domain)
  }

  // However many tasks a response asks for, it adds at most one to a lane, only to a lane
  // without an active task, and never under a title that exists.
  lemma {:induction false} ActionsRespectLanes(w: Work, actions: seq<Action>)
    ensures var after := PerformAll(w, actions).0.tasks;
            && Grows(w.tasks, after) && OnePerLane(w.tasks, after)
            && forall j, k :: 0 <= j < k < |after| && |w.tasks| <= k ==> after[j].title != after[k].title
    decreases |actions|
  {
    if actions == [] {
    } else {
      var n := |actions| - 1;
      ActionsRespectLanes(w, actions[..n]);
      var before := PerformAll(w, actions[..n]).0;
      var after := Perform(before, actions[n]).0;
      assert PerformAll(w, actions).0 == after;
      if |after.tasks| > |before.tasks| {
        assert !LaneTaken(before.tasks, LaneOf(actions[n].domain)) && !TitleTaken(before.tasks, actions[n].title);
      }
    }
  }
}
