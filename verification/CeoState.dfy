/**
 The versioned state of the CEO: directives are ingested while any number of reasoning runs
 work, without a lock, on snapshots they took earlier; a run is applied only by comparison.
 */
module CeoState {
  import opened Common

  datatype Source = Genesis | FromDirective(id: int) | FromRun(run: int)

  datatype Version = Version(version: int, strategy: string, assumptions: seq<string>, criticalPath: seq<string>,
                             directive: int, source: Source)

  // Platform, session and message of a directive.
  datatype Origin = Origin(platform: string, session: string, message: string)

  datatype Directive = Directive(version: int, origin: Origin, kind: string, objective: string,
                                 constraints: seq<string>, priority: int)

  datatype RunStatus = Reasoning | Applied | OutOfDate | RetryScheduled | ProtocolRejected | RunFailed

  // A row of `ceo_runs` with the state its input snapshot contains.
  datatype RunRow = RunRow(event: int, stateRead: int, directiveRead: int, snapshot: Version, status: RunStatus,
                           result: Option<seq<ActionResult>>, error: Option<string>)

  datatype Patch = Patch(strategy: Option<string>, assumptions: Option<seq<string>>, criticalPath: Option<seq<string>>)

  datatype Action =
    | Noop(reason: string)
    | UpdateState(reason: string)
    | CreateTask(owner: string, title: string, domain: string, priority: int, acceptance: string)
    | RequestApproval(kind: string, summary: string)

  datatype ActionResult = Noted | AlreadyExists | LaneOccupied | TaskCreated | ApprovalPending

  datatype TaskRow = TaskRow(title: string, domain: string, active: bool)

  // What applied actions write besides the state.
  datatype Work = Work(tasks: seq<TaskRow>, approvals: seq<string>)

  // The memory of a reasoning process: the state it read, and its run row once inserted.
  datatype Session = Snapped(seen: Version, directive: int) | Opened(run: int, seen: Version, directive: int)

  datatype State = State(versions: seq<Version>, directives: seq<Directive>, runs: seq<RunRow>, work: Work,
                         notices: seq<int>, sessions: map<int, Session>)

  // SELECT ... ORDER BY version DESC LIMIT 1
  function Current(s: State): Version
    requires s.versions != []
  {
    s.versions[|s.versions| - 1]
  }

  datatype Op =
    | Ingest(origin: Origin, kind: string, objective: string, constraints: seq<string>, priority: int, valid: bool)
    | Snap(session: int)
    | Open(session: int, event: int)
    | Reject(session: int, status: RunStatus, error: string)
    | Conclude(session: int, patch: Patch, actions: seq<Action>)
    | Crash(session: int)
    | Operate(work: Work)

  // --- Directives ------------------------------------------------------------------------------------

  predicate Known(s: State, origin: Origin) {
    exists k :: 0 <= k < |s.directives| && s.directives[k].origin == origin
  }

  function Ingested(s: State, op: Op): State
    requires op.Ingest? && s.versions != []
  {
    var current := Current(s);
    var version, id := current.directive + 1, |s.directives| + 1;
    s.(directives := s.directives + [Directive(version, op.origin, op.kind, op.objective, op.constraints, op.priority)],
       versions := s.versions + [current.(version := current.version + 1, directive := version,
                                          source := FromDirective(id))],
       notices := s.notices + [id])
  }

  // --- Applying a run ------------------------------------------------------------------------------------

  function Patched(current: Version, patch: Patch, run: int): Version {
    Version(current.version + 1,
            if patch.strategy.Some? then patch.strategy.value else current.strategy,
            if patch.assumptions.Some? then patch.assumptions.value else current.assumptions,
            if patch.criticalPath.Some? then patch.criticalPath.value else current.criticalPath,
            current.directive, FromRun(run))
  }

  predicate Changes(current: Version, next: Version) {
    next.strategy != current.strategy || next.assumptions != current.assumptions
    || next.criticalPath != current.criticalPath
  }

  datatype Lane = ProductLane | CommercialLane

  // The lane of the CEO's tasks: whatever is not product or engineering counts as commercial.
  function LaneOf(domain: string): Lane {
    if domain == "product" || domain == "engineering" then ProductLane else CommercialLane
  }

  predicate TitleTaken(tasks: seq<TaskRow>, title: string) {
    exists k :: 0 <= k < |tasks| && tasks[k].title == title
  }

  predicate LaneTaken(tasks: seq<TaskRow>, lane: Lane) {
    exists k :: 0 <= k < |tasks| && tasks[k].active && LaneOf(tasks[k].domain) == lane
  }

  function Perform(w: Work, a: Action): (Work, ActionResult) {
    match a
    case Noop(_) => (w, Noted)
    case UpdateState(_) => (w, Noted)
    case CreateTask(_, title, domain, _, _) =>
      if TitleTaken(w.tasks, title) then (w, AlreadyExists)
      else if LaneTaken(w.tasks, LaneOf(domain)) then (w, LaneOccupied)
      else (w.(tasks := w.tasks + [TaskRow(title, domain, true)]), TaskCreated)
    case RequestApproval(_, summary) => (w.(approvals := w.approvals + [summary]), ApprovalPending)
  }

  function PerformAll(w: Work, actions: seq<Action>): (Work, seq<ActionResult>)
    decreases |actions|
  {
    if actions == [] then (w, [])
    else
      var n := |actions| - 1;
      var (before, results) := PerformAll(w, actions[..n]);
      var (after, result) := Perform(before, actions[n]);
      (after, results + [result])
  }

  // The run still sees the current version and directive.
  predicate UpToDate(s: State, seen: Version, directive: int)
    requires s.versions != []
  {
    Current(s).version == seen.version && Current(s).directive == directive
  }

  function Finished(s: State, run: int, status: RunStatus, result: Option<seq<ActionResult>>,
                    error: Option<string>): State
    requires 0 <= run < |s.runs|
  {
    s.(runs := s.runs[run := s.runs[run].(status := status, result := result, error := error)])
  }

  function Concluded(s: State, op: Op): State
    requires op.Conclude? && s.versions != [] && op.session in s.sessions && s.sessions[op.session].Opened?
    requires 0 <= s.sessions[op.session].run < |s.runs|
  {
    var session := s.sessions[op.session];
    if !UpToDate(s, session.seen, session.directive) then
      Finished(s, session.run, OutOfDate, Some([]), None).(sessions := s.sessions - {op.session})
    else
      var next := Patched(Current(s), op.patch, session.run);
      var (work, results) := PerformAll(s.work, op.actions);
      Finished(s, session.run, Applied, Some(results), None)
        .(versions := if Changes(Current(s), next) then s.versions + [next] else s.versions, work := work,
          sessions := s.sessions - {op.session})
  }

  // --- Steps ------------------------------------------------------------------------------------------

  predicate Running(s: State, h: int) {
    h in s.sessions && s.sessions[h].Opened? && 0 <= s.sessions[h].run < |s.runs|
  }

  predicate Accepts(s: State, op: Op) {
    s.versions != []
    && match op
       case Ingest(_, _, _, _, _, valid) => valid
       case Snap(h) => h !in s.sessions
       case Open(h, _) => h in s.sessions && s.sessions[h].Snapped?
       case Reject(h, status, _) => Running(s, h) && status in {RetryScheduled, ProtocolRejected, RunFailed}
       case Conclude(h, _, _) => Running(s, h)
       case Crash(h) => h in s.sessions
       case Operate(_) => true
  }

  function Next(s: State, op: Op): State
    requires Accepts(s, op)
  {
    match op
    case Ingest(origin, _, _, _, _, _) => if Known(s, origin) then s else Ingested(s, op)
    case Snap(h) => s.(sessions := s.sessions[h := Snapped(Current(s), Current(s).directive)])
    case Open(h, event) =>
      var seen, directive := s.sessions[h].seen, s.sessions[h].directive;
      s.(runs := s.runs + [RunRow(event, seen.version, directive, seen, Reasoning, None, None)],
         sessions := s.sessions[h := Opened(|s.runs|, seen, directive)])
    case Reject(h, status, error) =>
      Finished(s, s.sessions[h].run, status, None, Some(error)).(sessions := s.sessions - {h})
    case Conclude(_, _, _) => Concluded(s, op)
    case Crash(h) => s.(sessions := s.sessions - {h})
    case Operate(work) => s.(work := work)
  }

  function Step(s: State, op: Op): State {
    if Accepts(s, op) then Next(s, op) else s
  }

  function Run(s: State, ops: seq<Op>): State
    decreases |ops|
  {
    if ops == [] then s else Run(Step(s, ops[0]), ops[1..])
  }

  const INITIAL := State([Version(1, "{}", [], [], 0, Genesis)], [], [], Work([], []), [], map[])

  // --- Invariants ---------------------------------------------------------------------------------------

  // Version numbers have no gaps and each row counts the directives before it.
  predicate Numbered(s: State) {
    && s.versions != []
    && (forall k :: 0 <= k < |s.versions| ==> s.versions[k].version == k + 1)
    && (forall k :: 0 <= k < |s.directives| ==> s.directives[k].version == k + 1)
    && Current(s).directive == |s.directives|
  }

  // What was read is a row of the table.
  predicate Read(s: State, seen: Version, directive: int) {
    1 <= seen.version <= |s.versions| && s.versions[seen.version - 1] == seen && seen.directive == directive
  }

  // Each session remembers what its run row says, and no two sessions share a run.
  predicate Sessions(s: State) {
    && (forall h <- s.sessions.Keys :: Read(s, s.sessions[h].seen, s.sessions[h].directive))
    && (forall h <- s.sessions.Keys :: s.sessions[h].Opened? ==>
          Running(s, h) && s.runs[s.sessions[h].run].status == Reasoning
          && s.runs[s.sessions[h].run].stateRead == s.sessions[h].seen.version
          && s.runs[s.sessions[h].run].directiveRead == s.sessions[h].directive
          && s.runs[s.sessions[h].run].snapshot == s.sessions[h].seen)
    && (forall g, h :: g in s.sessions && h in s.sessions && g != h ==>
          !(s.sessions[g].Opened? && s.sessions[h].Opened? && s.sessions[g].run == s.sessions[h].run))
  }

  // Every version has one cause, and a directive or run causes at most one version.
  predicate Caused(s: State) {
    && (forall j, k :: 0 <= j < k < |s.versions| ==> s.versions[j].source != s.versions[k].source)
    && (forall k :: 0 <= k < |s.versions| && s.versions[k].source.FromDirective? ==>
          1 <= s.versions[k].source.id <= |s.directives|)
    && (forall k :: 0 <= k < |s.versions| && s.versions[k].source.FromRun? ==>
          0 <= s.versions[k].source.run < |s.runs| && s.runs[s.versions[k].source.run].status == Applied)
  }

  predicate DistinctOrigins(s: State) {
    forall j, k :: 0 <= j < k < |s.directives| ==> s.directives[j].origin != s.directives[k].origin
  }

  predicate Sound(s: State) {
    Numbered(s) && Sessions(s) && Caused(s) && DistinctOrigins(s)
  }
}
