/**
 One operating cycle: stale executions are recovered; when there is none, the first open
 task of each free lane is inspected, and escalated if it needs the Chairman.
 */
module OperatingCycle {
  import opened Common
  import opened Ordering
  import opened TaskTables
  import opened TaskProtocol
  import opened TaskInvariant
  import opened TaskStore

  const CYCLE_REASON := "cycle lease inspection"

  // --- Recovery ------------------------------------------------------------------------------------

  // The rows after recovery of every stale execution.
  function RecoveredRows(s: State, id: int, reason: string, alive: set<int>, now: int): Rows {
    if Recoverable(s, id, now) then Recovered(s.tasks[id], s.executions[id], Op.Recover(reason, id in alive), now)
    else RowsOf(s, id)
  }

  predicate Handled(s: State, id: int, reason: string, alive: set<int>, now: int, outcome: RecoveryStatus) {
    Recoverable(s, id, now)
    && RecoveredRows(s, id, reason, alive, now).execution.value.status == outcome
  }

  // What becomes of an execution, in the source's own terms: quarantine, retry or exhaustion.
  predicate Fate(s: State, id: int, alive: set<int>, now: int, outcome: RecoveryStatus) {
    && id in s.tasks && id in s.executions
    && (s.executions[id].status == Failed
        || (s.executions[id].status == Running && s.executions[id].leaseExpires <= now))
    && if s.executions[id].status == Failed && id in alive then outcome == Unknown
       else if s.executions[id].attempts + 1 < s.executions[id].maxAttempts then outcome == Requeued
       else outcome == Exhausted
  }

  lemma HandledIsFate(s: State, id: int, reason: string, alive: set<int>, now: int, outcome: RecoveryStatus)
    ensures Handled(s, id, reason, alive, now, outcome) <==> Fate(s, id, alive, now, outcome)
  {
    hide AttemptsExhausted;
  }

  // The executions in `done` are recovered, all other rows are as before.
  ghost predicate Swept(before: State, s: State, done: set<int>, reason: string, alive: set<int>, now: int) {
    forall id :: RowsOf(s, id) ==
                 if id in done then RecoveredRows(before, id, reason, alive, now) else RowsOf(before, id)
  }

  lemma SweepOne(before: State, s: State, done: set<int>, id: int, reason: string, alive: set<int>, now: int)
    requires Swept(before, s, done, reason, alive, now) && id !in done
    ensures Swept(before, Step(s, Call(id, Op.Recover(reason, id in alive), now)), done + {id}, reason, alive, now)
    ensures Recoverable(s, id, now) <==> Recoverable(before, id, now)
    ensures var n := Step(s, Call(id, Op.Recover(reason, id in alive), now));
            forall outcome :: Handled(before, id, reason, alive, now, outcome)
                              <==> Recoverable(s, id, now) && StatusOf(RowsOf(n, id)) == Some(outcome)
  {
    RecoverStep(s, id, Op.Recover(reason, id in alive), now);
    hide Step, Recovered;
    assert RowsOf(s, id) == RowsOf(before, id);
  }

  lemma SweptAll(before: State, s: State, done: set<int>, reason: string, alive: set<int>, now: int)
    requires Swept(before, s, done, reason, alive, now) && forall id :: Recoverable(before, id, now) ==> id in done
    ensures forall id :: RowsOf(s, id) == RecoveredRows(before, id, reason, alive, now)
    ensures forall id, outcome :: Handled(before, id, reason, alive, now, outcome) ==> id in done
  {
    hide Recovered, Recoverable;
  }

  predicate RecoveryCall(c: Call, now: int) {
    c.op.Recover? && c.now == now
  }

  // `_recover_stale_executions`: each stale execution is recovered once, and no other row changes.
  method RecoverStale(os: CompanyOS, reason: string, alive: set<int>, now: int)
    returns (results: seq<(int, RecoveryStatus)>, ghost calls: seq<Call>)
    requires os.Valid()
    modifies os`tasks, os`executions
    ensures os.Valid()
    ensures forall id :: RowsOf(os.Tables(), id) == RecoveredRows(old(os.Tables()), id, reason, alive, now)
    ensures forall id, outcome :: (id, outcome) in results
                                  <==> Handled(old(os.Tables()), id, reason, alive, now, outcome)
    ensures forall id, outcome :: (id, outcome) in results <==> Fate(old(os.Tables()), id, alive, now, outcome)
    ensures os.Tables() == Run(old(os.Tables()), calls) && forall c <- calls :: RecoveryCall(c, now)
  {
    hide Fate, Recovered, Step, Run, RecoveredRows, Handled, Accepts, Ordered, Sound;
    ghost var before := os.Tables();
    RunNothing(before);
    ghost var done := {};
    var stamps := map id | id in os.executions && os.executions[id].status in {Running, Failed}
                    :: (os.executions[id].updatedAt, 0);
    var ids := OrderBy(stamps);
    assert forall id :: Recoverable(before, id, now) ==> id in ids;
    results, calls := [], [];
    for i := 0 to |ids|
      invariant os.Valid()
      invariant forall id :: id in done <==> id in ids[..i]
      invariant Swept(before, os.Tables(), done, reason, alive, now)
      invariant forall id, outcome :: (id, outcome) in results
                                      <==> id in done && Handled(before, id, reason, alive, now, outcome)
      invariant os.Tables() == Run(before, calls) && forall c <- calls :: RecoveryCall(c, now)
    {
      hide Recoverable, Swept;
      var id := ids[i];
      ghost var s, c := os.Tables(), Call(id, Op.Recover(reason, id in alive), now);
      SweepOne(before, s, done, id, reason, alive, now);
      RecoverStep(s, id, c.op, now);
      RunAppend(before, calls, c);
      var handled := os.RecoverExecution(id, reason, id in alive, now);
      done, calls := done + {id}, calls + [c];
      if handled {
        results := results + [(id, os.executions[id].status)];
      }
    }
    assert ids[..|ids|] == ids;
    SweptAll(before, os.Tables(), done, reason, alive, now);
    forall id, outcome
      ensures Handled(before, id, reason, alive, now, outcome) <==> Fate(before, id, alive, now, outcome)
    {
      HandledIsFate(before, id, reason, alive, now, outcome);
    }
  }

  function Ids(results: seq<(int, RecoveryStatus)>, outcome: RecoveryStatus): (ids: seq<int>)
    ensures forall id :: id in ids <==> (id, outcome) in results
  {
    if results == [] then []
    else
      var rest := Ids(results[1..], outcome);
      assert results == [results[0]] + results[1..];
      if results[0].1 == outcome then [results[0].0] + rest else rest
  }

  lemma RunNothing(s: State)
    ensures Run(s, []) == s
  {
  }

  lemma NothingRecovered(before: State, s: State, alive: set<int>, now: int)
    requires forall id :: RowsOf(s, id) == RecoveredRows(before, id, CYCLE_REASON, alive, now)
    requires forall id, outcome :: !Handled(before, id, CYCLE_REASON, alive, now, outcome)
    requires s == before.(tasks := s.tasks, executions := s.executions)
    ensures s == before && !exists id :: Recoverable(before, id, now)
  {
    forall id ensures !Recoverable(before, id, now) && RowsOf(s, id) == RowsOf(before, id) {
      assert Recoverable(before, id, now) ==>
               Handled(before, id, CYCLE_REASON, alive, now,
                       RecoveredRows(before, id, CYCLE_REASON, alive, now).execution.value.status);
    }
    forall id ensures (id in s.tasks <==> id in before.tasks) && (id in s.tasks ==> s.tasks[id] == before.tasks[id]) {
      assert RowsOf(s, id) == RowsOf(before, id);
    }
    forall id ensures (id in s.executions <==> id in before.executions)
                      && (id in s.executions ==> s.executions[id] == before.executions[id]) {
      assert RowsOf(s, id) == RowsOf(before, id);
    }
    assert s.tasks == before.tasks && s.executions == before.executions;
  }

  // --- Inspection of open tasks ----------------------------------------------------------------------

  datatype Lane = Product | Commercial | Platform | NoLane

  // `_wip_lane`
  function LaneOf(domain: string): Lane {
    if domain in {"product", "engineering"} then Product
    else if domain in {"platform", "governance", "review"} then Platform
    else if domain in {"gtm", "revenue", "customer", "commercial"} then Commercial
    else NoLane
  }

  predicate Inspected(lane: Lane) {
    lane == Product || lane == Commercial
  }

  predicate IsOpen(s: State, id: int) {
    id in s.tasks && s.tasks[id].status == Open
  }

  predicate Busy(s: State, lane: Lane) {
    exists id <- s.tasks.Keys :: s.tasks[id].status in {InProgress, Blocked} && LaneOf(s.tasks[id].domain) == lane
  }

  // ORDER BY priority DESC, id ASC
  function Priorities(s: State): map<int, Key> {
    map id | id in s.tasks && s.tasks[id].status == Open :: (-s.tasks[id].priority, 0)
  }

  // The task a cycle takes up in its lane: first among the open tasks of a lane no other task occupies.
  predicate Heads(s: State, id: int) {
    && IsOpen(s, id) && Inspected(LaneOf(s.tasks[id].domain)) && !Busy(s, LaneOf(s.tasks[id].domain))
    && forall other <- s.tasks.Keys ::
         IsOpen(s, other) && LaneOf(s.tasks[other].domain) == LaneOf(s.tasks[id].domain) ==>
           other == id || s.tasks[other].priority < s.tasks[id].priority
           || (s.tasks[other].priority == s.tasks[id].priority && id < other)
  }

  // While a task of either side works or waits for somebody, no open task of that side is taken up.
  lemma HeadIsFree(s: State, id: int, other: int)
    requires Heads(s, id) && other in s.tasks
    requires s.tasks[other].status == InProgress || s.tasks[other].status == Blocked
    ensures s.tasks[id].status == Open
    ensures s.tasks[id].domain in {"product", "engineering"} ==> s.tasks[other].domain !in {"product", "engineering"}
    ensures (s.tasks[id].domain in {"gtm", "revenue", "customer", "commercial"}) ==>
              s.tasks[other].domain !in {"gtm", "revenue", "customer", "commercial"}
  {
    assert other in s.tasks.Keys;
  }

  // At most one product task and one commercial task head their lanes, and no other task does.
  lemma TwoHeads(s: State, a: int, b: int)
    requires Heads(s, a) && Heads(s, b)
    ensures s.tasks[a].domain in {"product", "engineering", "gtm", "revenue", "customer", "commercial"}
    ensures (s.tasks[a].domain in {"product", "engineering"} <==> s.tasks[b].domain in {"product", "engineering"}) ==>
              a == b
  {
  }

  // a is inspected before b.
  predicate Queued(s: State, a: int, b: int)
    requires a in s.tasks && b in s.tasks
  {
    s.tasks[a].priority > s.tasks[b].priority || (s.tasks[a].priority == s.tasks[b].priority && a < b)
  }

  // The inspection ends at the second head of a lane, if that one needs nobody's approval.
  predicate Ends(s: State, id: int, approvals: map<int, nat>) {
    Heads(s, id) && id !in approvals && exists other <- s.tasks.Keys :: Heads(s, other) && Queued(s, other, id)
  }

  // The open tasks a cycle comes to.
  predicate Visited(s: State, id: int, approvals: map<int, nat>) {
    IsOpen(s, id) && forall end <- s.tasks.Keys :: Ends(s, end, approvals) ==> id == end || Queued(s, id, end)
  }

  // The lane of the i-th open task in order is taken by an earlier one.
  predicate Taken(s: State, ids: seq<int>, i: nat, lane: Lane) {
    exists k :: 0 <= k < i && k < |ids| && ids[k] in s.tasks && LaneOf(s.tasks[ids[k]].domain) == lane
  }

  // In order, a task heads its lane exactly when the lane is neither busy nor taken before it.
  lemma HeadsInOrder(s: State, ids: seq<int>, i: nat)
    requires i < |ids| && Ordered(Priorities(s), ids) && forall id :: IsOpen(s, id) <==> id in ids
    ensures IsOpen(s, ids[i])
    ensures var lane := LaneOf(s.tasks[ids[i]].domain);
            Heads(s, ids[i]) <==> Inspected(lane) && !Busy(s, lane) && !Taken(s, ids, i, lane)
  {
    var rows, id := Priorities(s), ids[i];
    var lane := LaneOf(s.tasks[id].domain);
    if Taken(s, ids, i, lane) {
      var k :| 0 <= k < i && ids[k] in s.tasks && LaneOf(s.tasks[ids[k]].domain) == lane;
      assert Precedes(rows, ids[k], id);
      assert IsOpen(s, ids[k]);
    } else {
      forall other | IsOpen(s, other) && LaneOf(s.tasks[other].domain) == lane
        ensures other == id || Precedes(rows, id, other)
      {
        var k :| 0 <= k < |ids| && ids[k] == other;
        assert k < i ==> Taken(s, ids, i, lane);
      }
    }
  }

  function Escalated(t: Task, approval: nat, now: int): Task {
    t.(status := Blocked, blockedReason := Some(PendingApproval(approval)), updatedAt := now)
  }

  lemma EscalateStep(s: State, id: int, approval: nat, now: int)
    requires IsOpen(s, id)
    ensures Step(s, Call(id, Op.Escalate(approval), now)) ==
            s.(tasks := s.tasks[id := Escalated(s.tasks[id], approval, now)])
  {
  }

  predicate EscalationCall(c: Call, now: int) {
    c.op.Escalate? && c.now == now
  }

  // The tasks in `escalated` wait for the approval created for them; all others are as before.
  predicate Waiting(before: State, tasks: map<int, Task>, escalated: seq<int>, approvals: map<int, nat>, now: int) {
    tasks.Keys == before.tasks.Keys
    && forall id <- before.tasks.Keys ::
         if id in escalated then id in approvals && tasks[id] == Escalated(before.tasks[id], approvals[id], now)
         else tasks[id] == before.tasks[id]
  }

  // The heads among the first i open tasks, split by whether they need the Chairman.
  predicate Sorted(before: State, done: seq<int>, escalated: seq<int>, ready: seq<int>, approvals: map<int, nat>) {
    (forall id <- escalated :: id in done) && (forall id <- ready :: id in done)
    && forall id <- done ::
         (id in escalated <==> Heads(before, id) && id in approvals)
         && (id in ready <==> Heads(before, id) && id !in approvals)
  }

  // The lanes busy at the start or taken by one of the first i open tasks.
  ghost predicate Occupied(s: State, ids: seq<int>, i: nat, occupied: set<Lane>) {
    forall lane :: Inspected(lane) ==> (lane in occupied <==> Busy(s, lane) || Taken(s, ids, i, lane))
  }

  lemma OccupiedStep(s: State, ids: seq<int>, i: nat, occupied: set<Lane>)
    requires i < |ids| && ids[i] in s.tasks && Occupied(s, ids, i, occupied)
    ensures var lane := LaneOf(s.tasks[ids[i]].domain);
            && Occupied(s, ids, i + 1, if Inspected(lane) then occupied + {lane} else occupied)
            && (Inspected(lane) ==> (lane in occupied <==> Busy(s, lane) || Taken(s, ids, i, lane)))
  {
    var mine := LaneOf(s.tasks[ids[i]].domain);
    forall lane ensures Taken(s, ids, i + 1, lane) <==> Taken(s, ids, i, lane) || lane == mine {
      if lane == mine {
        assert ids[i] in s.tasks;
      }
    }
  }

  // Once both lanes are occupied, no later task heads a lane.
  lemma NoMoreHeads(s: State, ids: seq<int>, i: nat, occupied: set<Lane>)
    requires i <= |ids| && Ordered(Priorities(s), ids) && forall id :: IsOpen(s, id) <==> id in ids
    requires Occupied(s, ids, i, occupied) && (i < |ids| ==> Product in occupied && Commercial in occupied)
    ensures forall id :: Heads(s, id) ==> id in ids[..i]
  {
    forall id | Heads(s, id) ensures id in ids[..i] {
      var j :| 0 <= j < |ids| && ids[j] == id;
      HeadsInOrder(s, ids, j);
      var lane := LaneOf(s.tasks[id].domain);
      assert j >= i ==> (Taken(s, ids, i, lane) ==> Taken(s, ids, j, lane));
      assert j < i ==> ids[..i][j] == id;
    }
  }

  lemma SortedStep(s: State, done: seq<int>, id: int, escalated: seq<int>, ready: seq<int>, approvals: map<int, nat>)
    requires id !in done && Sorted(s, done, escalated, ready, approvals)
    ensures id !in escalated
    ensures Heads(s, id) && id in approvals ==> Sorted(s, done + [id], escalated + [id], ready, approvals)
    ensures Heads(s, id) && id !in approvals ==> Sorted(s, done + [id], escalated, ready + [id], approvals)
    ensures !Heads(s, id) ==> Sorted(s, done + [id], escalated, ready, approvals)
  {
    hide Heads;
  }

  // The tables after the escalations so far, as a run of the protocol.
  ghost predicate Progress(before: State, s: State, escalated: seq<int>, approvals: map<int, nat>, calls: seq<Call>,
                           now: int) {
    && Waiting(before, s.tasks, escalated, approvals, now)
    && s == Run(before, calls) && s == before.(tasks := s.tasks)
    && forall c <- calls :: EscalationCall(c, now)
  }

  lemma ProgressStep(before: State, s: State, escalated: seq<int>, approvals: map<int, nat>, calls: seq<Call>,
                     id: int, now: int)
    requires Progress(before, s, escalated, approvals, calls, now) && id !in escalated && IsOpen(before, id)
    ensures id in s.tasks && id in before.tasks && s.tasks[id].domain == before.tasks[id].domain
    ensures id in approvals ==>
              Progress(before, s.(tasks := s.tasks[id := Escalated(s.tasks[id], approvals[id], now)]), escalated + [id],
                       approvals, calls + [Call(id, Op.Escalate(approvals[id]), now)], now)
  {
    assert id in before.tasks.Keys;
    if id in approvals {
      EscalateStep(s, id, approvals[id], now);
      RunAppend(before, calls, Call(id, Op.Escalate(approvals[id]), now));
    }
  }

  lemma ProgressIsSound(before: State, s: State, escalated: seq<int>, approvals: map<int, nat>, calls: seq<Call>,
                        now: int)
    requires Sound(before) && Progress(before, s, escalated, approvals, calls, now)
    ensures Sound(s)
  {
    hide Sound, Run, Waiting;
    SoundRun(before, calls);
  }

  // The variables of the loop over open tasks.
  datatype Scan = Scan(occupied: set<Lane>, inspected: nat, stop: bool, escalated: seq<int>, ready: seq<int>)

  function Inspect(n: Scan, id: int, lane: Lane, reserved: bool): Scan {
    if !Inspected(lane) || lane in n.occupied then n
    else if reserved then
      n.(occupied := n.occupied + {lane}, inspected := n.inspected + 1, escalated := n.escalated + [id])
    else
      n.(occupied := n.occupied + {lane}, inspected := n.inspected + 1, ready := n.ready + [id],
         stop := n.inspected + 1 == 2)
  }

  ghost predicate Scanned(s: State, ids: seq<int>, i: nat, n: Scan, approvals: map<int, nat>)
    requires i <= |ids|
  {
    && Occupied(s, ids, i, n.occupied) && Sorted(s, ids[..i], n.escalated, n.ready, approvals)
    && n.inspected <= 2
    && (n.inspected >= 1 ==> Product in n.occupied || Commercial in n.occupied)
    && (n.inspected >= 2 ==> Product in n.occupied && Commercial in n.occupied)
    && (n.stop ==> n.inspected == 2)
  }

  lemma ScanStart(s: State, ids: seq<int>, occupied: set<Lane>, approvals: map<int, nat>, now: int)
    requires occupied ==
             set id | id in s.tasks && s.tasks[id].status in {InProgress, Blocked} :: LaneOf(s.tasks[id].domain)
    requires Ordered(Priorities(s), ids) && forall id :: id in Priorities(s) <==> id in ids
    ensures forall id :: IsOpen(s, id) <==> id in ids
    ensures Scanned(s, ids, 0, Scan(occupied, 0, false, [], []), approvals)
    ensures Stops(s, ids, 0, Scan(occupied, 0, false, [], []), approvals)
    ensures Progress(s, s, [], approvals, [], now)
  {
    hide LaneOf;
  }

  lemma ScanStep(s: State, ids: seq<int>, i: nat, id: int, n: Scan, approvals: map<int, nat>)
    requires i < |ids| && id == ids[i] && id !in ids[..i]
    requires Ordered(Priorities(s), ids) && forall id :: IsOpen(s, id) <==> id in ids
    requires Scanned(s, ids, i, n, approvals)
    ensures IsOpen(s, id) && id !in n.escalated
    ensures Scanned(s, ids, i + 1, Inspect(n, id, LaneOf(s.tasks[id].domain), id in approvals), approvals)
  {
    HeadsInOrder(s, ids, i);
    SortedStep(s, ids[..i], id, n.escalated, n.ready, approvals);
    OccupiedStep(s, ids, i, n.occupied);
    assert ids[..i + 1] == ids[..i] + [id];
    hide Heads, Occupied, LaneOf, Sorted, Ordered, Priorities, Busy, Taken;
  }

  lemma ScanEnd(s: State, ids: seq<int>, i: nat, n: Scan, approvals: map<int, nat>)
    requires Ordered(Priorities(s), ids) && forall id :: IsOpen(s, id) <==> id in ids
    requires i <= |ids| && Scanned(s, ids, i, n, approvals) && (i < |ids| ==> n.stop)
    ensures forall id :: id in n.escalated <==> Heads(s, id) && id in approvals
    ensures forall id :: id in n.ready <==> Heads(s, id) && id !in approvals
  {
    NoMoreHeads(s, ids, i, n.occupied);
    hide Heads, Occupied, Ordered, Priorities;
  }

  // How far the scan has come: the task that ends it is the last one seen, if any.
  ghost predicate Stops(s: State, ids: seq<int>, i: nat, n: Scan, approvals: map<int, nat>)
    requires i <= |ids|
  {
    && (n.inspected == 0 <==> forall k :: 0 <= k < i ==> !Heads(s, ids[k]))
    && (forall k :: 0 <= k < i && Ends(s, ids[k], approvals) ==> n.stop && k == i - 1)
    && (n.stop ==> i > 0 && Ends(s, ids[i - 1], approvals))
  }

  lemma QueuedInOrder(s: State, ids: seq<int>, j: nat, k: nat)
    requires j < |ids| && k < |ids| && Ordered(Priorities(s), ids) && forall id :: IsOpen(s, id) <==> id in ids
    ensures ids[j] in s.tasks && ids[k] in s.tasks
    ensures Queued(s, ids[j], ids[k]) <==> j < k
  {
    assert IsOpen(s, ids[j]) && IsOpen(s, ids[k]);
    assert j < k ==> Precedes(Priorities(s), ids[j], ids[k]);
    assert k < j ==> Precedes(Priorities(s), ids[k], ids[j]);
  }

  lemma HeadsAreListed(s: State, ids: seq<int>, id: int) returns (k: nat)
    requires Heads(s, id) && forall id :: IsOpen(s, id) <==> id in ids
    ensures k < |ids| && ids[k] == id
  {
    assert id in ids;
    k :| 0 <= k < |ids| && ids[k] == id;
  }

  lemma EndsInOrder(s: State, ids: seq<int>, i: nat, approvals: map<int, nat>)
    requires i < |ids| && Ordered(Priorities(s), ids) && forall id :: IsOpen(s, id) <==> id in ids
    ensures Ends(s, ids[i], approvals)
            <==> Heads(s, ids[i]) && ids[i] !in approvals && exists k :: 0 <= k < i && Heads(s, ids[k])
  {
    hide Heads, Queued, Ordered;
    QueuedInOrder(s, ids, i, i);
    if Ends(s, ids[i], approvals) {
      var other :| other in s.tasks.Keys && Heads(s, other) && Queued(s, other, ids[i]);
      var k := HeadsAreListed(s, ids, other);
      QueuedInOrder(s, ids, k, i);
    }
    forall k | 0 <= k < i && Heads(s, ids[k]) ensures ids[k] in s.tasks.Keys && Queued(s, ids[k], ids[i]) {
      QueuedInOrder(s, ids, k, i);
    }
  }

  lemma StopStep(s: State, ids: seq<int>, i: nat, n: Scan, approvals: map<int, nat>)
    requires i < |ids| && Ordered(Priorities(s), ids) && forall id :: IsOpen(s, id) <==> id in ids
    requires Scanned(s, ids, i, n, approvals) && Stops(s, ids, i, n, approvals) && !n.stop
    ensures ids[i] in s.tasks
    ensures Stops(s, ids, i + 1, Inspect(n, ids[i], LaneOf(s.tasks[ids[i]].domain), ids[i] in approvals), approvals)
  {
    HeadsInOrder(s, ids, i);
    EndsInOrder(s, ids, i, approvals);
    OccupiedStep(s, ids, i, n.occupied);
    hide Heads, Occupied, LaneOf, Sorted, Ordered, Priorities, Busy, Taken, Ends;
  }

  // What is seen is what is visited.
  lemma StopMeans(s: State, ids: seq<int>, i: nat, n: Scan, approvals: map<int, nat>)
    requires i <= |ids| && Ordered(Priorities(s), ids) && forall id :: IsOpen(s, id) <==> id in ids
    requires Stops(s, ids, i, n, approvals)
    ensures !n.stop && i < |ids| ==> Visited(s, ids[i], approvals)
    ensures n.stop || i == |ids| ==> forall id :: Visited(s, id, approvals) ==> id in ids[..i]
  {
    if !n.stop && i < |ids| {
      assert IsOpen(s, ids[i]);
      forall end | end in s.tasks.Keys && Ends(s, end, approvals) ensures end == ids[i] || Queued(s, ids[i], end) {
        var k := HeadsAreListed(s, ids, end);
        QueuedInOrder(s, ids, i, k);
      }
    }
    forall id | Visited(s, id, approvals) && (n.stop || i == |ids|) ensures id in ids[..i] {
      assert id in ids;
      var j :| 0 <= j < |ids| && ids[j] == id;
      if n.stop {
        QueuedInOrder(s, ids, j, i - 1);
        assert ids[i - 1] in s.tasks.Keys;
      }
      assert j < i && ids[..i][j] == id;
    }
  }

  // The loop over open tasks. `intact` are the tasks whose recovery records verify, and
  // `approvals` the approval requested for each task that needs one it does not have.
  method InspectOpen(os: CompanyOS, intact: set<int>, approvals: map<int, nat>, now: int)
    returns (ok: bool, escalated: seq<int>, ready: seq<int>, ghost calls: seq<Call>)
    requires os.Valid()
    modifies os`tasks
    ensures os.Valid()
    ensures ok ==> forall id :: id in escalated <==> Heads(old(os.Tables()), id) && id in approvals
    ensures ok ==> forall id :: id in ready <==> Heads(old(os.Tables()), id) && id !in approvals
    ensures ok <==> forall id :: Visited(old(os.Tables()), id, approvals) ==> id in intact
    ensures Progress(old(os.Tables()), os.Tables(), escalated, approvals, calls, now)
  {
    hide Sound, Heads, Scanned, LaneOf, Escalated, Progress, Ordered, Priorities, IsOpen, Run, Step, Accepts, Admits,
         Stops, Visited;
    ghost var before := os.Tables();
    var occupied :=
      set id | id in os.tasks && os.tasks[id].status in {InProgress, Blocked} :: LaneOf(os.tasks[id].domain);
    var ids := OrderBy(Priorities(os.Tables()));
    var i, inspected, stop := 0, 0, false;
    ok, escalated, ready, calls := true, [], [], [];
    ScanStart(before, ids, occupied, approvals, now);
    while i < |ids| && !stop
      invariant 0 <= i <= |ids|
      invariant Scanned(before, ids, i, Scan(occupied, inspected, stop, escalated, ready), approvals)
      invariant Progress(before, os.Tables(), escalated, approvals, calls, now)
      invariant Stops(before, ids, i, Scan(occupied, inspected, stop, escalated, ready), approvals)
      invariant forall id <- ids[..i] :: id in intact
      decreases |ids| - i, !stop
    {
      var id := ids[i];
      ScanStep(before, ids, i, id, Scan(occupied, inspected, stop, escalated, ready), approvals);
      ProgressStep(before, os.Tables(), escalated, approvals, calls, id, now);
      StopStep(before, ids, i, Scan(occupied, inspected, stop, escalated, ready), approvals);
      assert ids[..i + 1] == ids[..i] + [id];
      if id !in intact {
        ok := false;
        StopMeans(before, ids, i, Scan(occupied, inspected, stop, escalated, ready), approvals);
        ProgressIsSound(before, os.Tables(), escalated, approvals, calls, now);
        return;
      }
      var lane := LaneOf(os.tasks[id].domain);
      if (lane == Product || lane == Commercial) && lane !in occupied {
        inspected := inspected + 1;
        occupied := occupied + {lane};
        if id in approvals {
          calls := calls + [Call(id, Op.Escalate(approvals[id]), now)];
          os.tasks := os.tasks[id := Escalated(os.tasks[id], approvals[id], now)];
          escalated := escalated + [id];
        } else {
          ready := ready + [id];
          stop := inspected == 2;
        }
      }
      i := i + 1;
    }
    ProgressIsSound(before, os.Tables(), escalated, approvals, calls, now);
    ScanEnd(before, ids, i, Scan(occupied, inspected, stop, escalated, ready), approvals);
    StopMeans(before, ids, i, Scan(occupied, inspected, stop, escalated, ready), approvals);
  }

  // `run_cycle`. A failed integrity check rolls the whole cycle back; a cycle that recovers
  // anything inspects nothing; and whatever a cycle does is a run of the protocol.
  method RunCycle(os: CompanyOS, alive: set<int>, intact: set<int>, approvals: map<int, nat>, now: int)
    returns (ok: bool, recovered: seq<int>, exhausted: seq<int>, escalated: seq<int>, ready: seq<int>,
             ghost calls: seq<Call>)
    requires os.Valid()
    modifies os
    ensures os.Valid()
    ensures os.Tables() == Run(old(os.Tables()), calls)
    ensures forall c <- calls :: RecoveryCall(c, now) || EscalationCall(c, now)
    ensures !ok ==> calls == []
    ensures ok <==> (exists id :: Recoverable(old(os.Tables()), id, now))
                    || forall id :: Visited(old(os.Tables()), id, approvals) ==> id in intact
    ensures ok ==> forall id :: id in recovered <==> Handled(old(os.Tables()), id, CYCLE_REASON, alive, now, Requeued)
    ensures ok ==> forall id :: id in exhausted <==> Handled(old(os.Tables()), id, CYCLE_REASON, alive, now, Exhausted)
    ensures ok ==> forall id :: id in recovered <==> Fate(old(os.Tables()), id, alive, now, Requeued)
    ensures ok ==> forall id :: id in exhausted <==> Fate(old(os.Tables()), id, alive, now, Exhausted)
    ensures ok && (exists id :: Recoverable(old(os.Tables()), id, now)) ==>
              escalated == ready == []
              && forall id ::
                   RowsOf(os.Tables(), id)
                   == RecoveredRows(old(os.Tables()), id, "cycle lease inspection", alive, now)
    ensures ok && !(exists id :: Recoverable(old(os.Tables()), id, now)) ==>
              && (forall id :: id in escalated <==> Heads(old(os.Tables()), id) && id in approvals)
              && (forall id :: id in ready <==> Heads(old(os.Tables()), id) && id !in approvals)
              && Waiting(old(os.Tables()), os.tasks, escalated, approvals, now)
              && os.executions == old(os.executions)
  {
    hide Sound, Run, Step, Accepts, Admits, Heads, RecoveredRows, Waiting, Fate, Visited;
    var before := os.Tables();
    var results;
    results, calls := RecoverStale(os, CYCLE_REASON, alive, now);
    recovered := Ids(results, Requeued);
    exhausted := Ids(results, Exhausted);
    ok, escalated, ready := true, [], [];
    if results == [] {
      NothingRecovered(before, os.Tables(), alive, now);
      ghost var escalations;
      ok, escalated, ready, escalations := InspectOpen(os, intact, approvals, now);
      calls := escalations;
      if !ok {
        os.Rollback(before);
        calls := [];
        RunNothing(before);
      }
    } else {
      var (id, outcome) := results[0];
      assert Handled(before, id, CYCLE_REASON, alive, now, outcome);
    }
  }
}
