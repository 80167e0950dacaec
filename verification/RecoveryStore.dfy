/**
 The two stores of the governed recovery and the steps of a requeue: the SQLite
 transaction, the append to the external ledger, and the compensation.
 */
module RecoveryStore {
  import opened Common
  import opened Ordering
  import opened TaskTables
  import TaskProtocol
  import opened RecoveryTables
  import opened RecoveryLedger
  import opened RecoveryConflicts
  import opened RecoveryRequeue

  // --- Requests ------------------------------------------------------------------------------------

  // What the operating system says of the recorded process: no such process, no permission to
  // ask, or a process with this start identity.
  datatype Probe = NotFound | NotPermitted | Found(start: Option<string>)

  datatype Request = Request(id: int, actor: string, reason: string, probe: Probe, now: int)

  datatype World = World(db: Database, ledger: seq<Line>)

  datatype ProcessStatus = ProcessStatus(alive: Option<bool>, reason: string)

  // `_process_status`
  function StatusOfProcess(e: Execution, probe: Probe): ProcessStatus {
    if e.processId.None? then ProcessStatus(None, "no process recorded")
    else match probe
      case NotFound => ProcessStatus(Some(false), "process not found")
      case NotPermitted => ProcessStatus(None, "process liveness unknown: permission denied")
      case Found(start) =>
        if e.processStart.None? || e.processStart.value == "" then ProcessStatus(Some(true), "process exists")
        else if start.None? then ProcessStatus(None, "process start identity unknown")
        else if start != e.processStart then ProcessStatus(Some(false), "process identity mismatch")
        else ProcessStatus(Some(true), "process exists")
  }

  // The proof of death a requeue insists on. A process id taken over by another process is
  // reported dead, but is no proof.
  predicate ProvenDead(e: Execution, probe: Probe) {
    var status := StatusOfProcess(e, probe);
    status.alive == Some(false) && status.reason == "process not found"
  }

  // --- Guards --------------------------------------------------------------------------------------

  // The conflicts `_assert_recovery_integrity` refuses a task for: schema, triggers and
  // provenance, and whatever names the task. A conflict of the external ledger is not among them.
  predicate Blocks(c: Conflict, task: int) {
    match c
    case SchemaConflict => true
    case TriggerConflict(_) => true
    case ProvenanceConflict(_, _) => true
    case AuditConflict(_, _) => true
    case EventConflict(_, _) => true
    case RecordConflict(t) => t == task
    case LedgerInvalid => false
    case LedgerMismatch => false
  }

  ghost predicate Intact(db: Database, file: seq<Line>, task: int) {
    !Raises(db) && forall c :: Reported(db, file, c) ==> !Blocks(c, task)
  }

  // The guard does not depend on the ledger: an invalid or lagging one is reported but refuses nothing.
  lemma LedgerNeverBlocks(db: Database, a: seq<Line>, b: seq<Line>, task: int)
    ensures Intact(db, a, task) <==> Intact(db, b, task)
  {
    hide Check, ProvenanceBroken, AuditReferenced, EventReferenced, Agrees;
    forall c | Blocks(c, task) ensures Reported(db, a, c) <==> Reported(db, b, c) {
    }
  }

  predicate Latest(db: Database, task: int, id: int) {
    id in db.records && db.records[id].body.task == task
    && forall k <- db.records.Keys :: db.records[k].body.task == task ==> k <= id
  }

  predicate LatestSigned(db: Database, task: int) {
    forall id <- db.records.Keys ::
      Latest(db, task, id) ==> db.records[id].signature == RecordSigned(db.records[id].body)
  }

  // The state the task and its execution must be in.
  predicate ExhaustedAndDead(db: Database, id: int, probe: Probe)
    requires Governed(db, id)
  {
    var t, e := db.tasks[id], db.executions[id];
    && t.status == Blocked && e.status == Exhausted && e.attempts >= e.maxAttempts
    && e.processId.Some? && e.processStart.Some? && e.processStart.value != "" && ProvenDead(e, probe)
  }

  const APPROVAL_ACTION := "internal_task_approval"
  const APPROVAL_SUMMARY := "Task 145 Chairman decision package approved"

  // The approvals the query for task 145 selects.
  predicate Selected(a: Approval) {
    && a.decision.status == "approved" && a.decision.decision == Some("approve")
    && a.binding.actionType == APPROVAL_ACTION && a.binding.targetTask == Some(145)
    && a.binding.targetAction == Some(APPROVAL_ACTION)
  }

  predicate Genuine(id: int, a: Approval) {
    && a.bindingSignature == BindingSigned(a.binding)
    && a.decisionSignature == DecisionSigned(id, a.binding, a.decision)
    && a.binding.summary == APPROVAL_SUMMARY && a.decision.decidedBy == Some("Chairman")
  }

  // Only the newest selected approval counts, however many older ones are genuine.
  predicate Approved145(db: Database) {
    exists id <- db.approvals.Keys ::
      Selected(db.approvals[id]) && Genuine(id, db.approvals[id])
      && forall k <- db.approvals.Keys :: Selected(db.approvals[k]) ==> k <= id
  }

  // UNIQUE constraints of the inserted rows.
  predicate Unique(db: Database, id: int)
    requires Governed(db, id)
  {
    && (forall k <- db.records.Keys :: db.records[k].body.task == id ==>
                                         db.records[k].body.previousTask != TaskText(db.tasks[id]))
    && db.recordSeq + 1 !in db.anchors
    && (forall k <- db.anchors.Keys :: db.anchors[k].body.auditId != db.auditSeq + 1
                                       && db.anchors[k].body.eventId != db.eventSeq + 1)
  }

  // The call is a repetition of the last recovery, whose result still stands.
  ghost predicate Repeats(db: Database, r: Request)
    requires Governed(db, r.id)
  {
    db.tasks[r.id].status == Open && db.executions[r.id].status == Requeued
    && exists k :: Latest(db, r.id, k) && db.records[k].body.reason == r.reason
                   && db.records[k].body.newTask == TaskText(db.tasks[r.id])
                   && db.records[k].body.newExecution == ExecutionText(Shown(db.executions[r.id]))
  }

  ghost predicate Entitled(w: World, r: Request) {
    var db := w.db;
    && r.actor == "CEO" && r.reason != "" && Governed(db, r.id) && Intact(db, w.ledger, r.id)
    && db.tasks[r.id].status != Reconciled && db.executions[r.id].status != ExecutionReconciled
    && db.tasks[r.id].result.None? && MatchesPolicy(r.id, db.tasks[r.id]) && LatestSigned(db, r.id)
  }

  // Exactly when a requeue commits.
  ghost predicate Commits(w: World, r: Request) {
    && Entitled(w, r) && ExhaustedAndDead(w.db, r.id, r.probe)
    && (r.id == 146 ==> Approved145(w.db)) && Unique(w.db, r.id)
  }

  // No commit depends on the ledger.
  lemma CommitIgnoresLedger(db: Database, a: seq<Line>, b: seq<Line>, r: Request)
    ensures Commits(World(db, a), r) <==> Commits(World(db, b), r)
  {
    hide Intact, LatestSigned, Unique, Approved145;
    LedgerNeverBlocks(db, a, b, r.id);
  }

  // A requeue recovers exactly when it commits and its line can be appended: to a ledger that
  // lags behind it can, to one that does not read it cannot.
  ghost predicate Recovers(w: World, r: Request, appendFails: bool) {
    Commits(w, r) && !appendFails && Chained(w.ledger)
  }

  ghost function Extended(w: World, r: Request): World
    requires Governed(w.db, r.id)
  {
    var n := Committed(w.db, r.id, r.reason, r.now);
    World(n, w.ledger + [Sealed(w.ledger, AnchorValues(n.anchors[n.recordSeq]))])
  }

  // Both stores after one uninterrupted requeue.
  ghost function Requeueing(w: World, r: Request, appendFails: bool): World {
    if Recovers(w, r, appendFails) then Extended(w, r)
    else if Commits(w, r) then w.(db := Advanced(w.db))
    else w
  }

  lemma CommitsKnows(w: World, r: Request)
    requires Commits(w, r)
    ensures Governed(w.db, r.id) && w.db.tasks[r.id].result.None?
    ensures w.db.recordSeq + 1 !in w.db.anchors && w.db.brokenTriggers == [] && w.db.schema == Canonical
  {
    hide Check, ProvenanceBroken, Agrees;
    assert forall name :: Blocks(TriggerConflict(name), r.id);
    assert Blocks(SchemaConflict, r.id);
    assert !Reported(w.db, w.ledger, SchemaConflict);
    NoBrokenTrigger(w.db, w.ledger);
  }

  lemma WrittenShape(db: Database, id: int, reason: string, now: int, n: Database)
    requires Sound(db) && Governed(db, id) && n == Committed(db, id, reason, now) && db.recordSeq + 1 !in db.anchors
    ensures Sound(n) && n.schema == db.schema && id in n.tasks && id in n.executions && n.recordSeq in n.anchors
    ensures |n.anchors| == |db.anchors| + 1
    ensures n.recordSeq in n.records && n.records[n.recordSeq].body.task == id && n.recordSeq == db.recordSeq + 1
    ensures forall k <- n.records.Keys :: k == n.recordSeq || (k in db.records && n.records[k] == db.records[k])
  {
    hide Sound, PolicyFor, Ref, AuditFor, EventFor, AnchorFor, RequeuedTask, RequeuedExecution;
    CommitShape(db, id, reason, now, n);
    OneMore(db.anchors, n.recordSeq, n.anchors[n.recordSeq]);
  }

  lemma OneMore(anchors: map<int, Anchor>, k: int, a: Anchor)
    requires k !in anchors
    ensures |anchors[k := a]| == |anchors| + 1
  {
  }

  // The recovery rows of two databases are the same.
  predicate SameRows(db: Database, n: Database) {
    n.records == db.records && n.anchors == db.anchors && n.audits == db.audits && n.events == db.events
    && n.schema == db.schema && n.brokenTriggers == db.brokenTriggers
    && n.recordSeq >= db.recordSeq && n.auditSeq >= db.auditSeq && n.eventSeq >= db.eventSeq
  }

  lemma SameReferences(db: Database, n: Database)
    requires SameRows(db, n)
    ensures (AuditsOneToOne(db) ==> AuditsOneToOne(n)) && (EventsOneToOne(db) ==> EventsOneToOne(n))
  {
    assert forall r :: AuditMatches(n, r) == AuditMatches(db, r) && EventMatches(n, r) == EventMatches(db, r);
    assert forall id :: AuditReferenced(n, id) == AuditReferenced(db, id)
                        && EventReferenced(n, id) == EventReferenced(db, id);
    hide AuditMatches, EventMatches, AuditReferenced, EventReferenced;
  }

  lemma SameAnchors(db: Database, n: Database)
    requires SameRows(db, n)
    ensures AnchorsOneToOne(db) ==> AnchorsOneToOne(n)
  {
    assert forall a :: AnchorValid(n, a) == AnchorValid(db, a);
    hide AnchorValid;
  }

  // The correspondence reads the recovery rows and the identity of the tasks, nothing else.
  lemma SameRowsCorrespond(db: Database, n: Database)
    requires Sound(db) && SameRows(db, n) && db.executions.Keys <= n.executions.Keys
    requires forall id <- db.tasks.Keys :: id in n.tasks.Keys && SameIdentity(db.tasks[id], n.tasks[id])
    ensures Sound(n) && (Corresponding(db) ==> Corresponding(n))
  {
    hide Check, SameIdentity, AnchorsOneToOne, AuditsOneToOne, EventsOneToOne;
    if Corresponding(db) {
      forall k | k in n.records ensures Check(n, n.records[k]) == Valid {
        assert Check(db, db.records[k]) == Valid;
        KnownTask(db, db.records[k]);
        CheckPersists(db, n, db.records[k]);
      }
      SameReferences(db, n);
      SameAnchors(db, n);
    }
  }

  lemma AdvancedConsistent(db: Database, file: seq<Line>)
    requires Sound(db)
    ensures Sound(Advanced(db)) && (Consistent(db, file) ==> Consistent(Advanced(db), file))
  {
    hide Sound, Corresponding, Lists, Chained;
    SameRowsCorrespond(db, Advanced(db));
  }

  // Seen from the operating protocol, the rows of a commit are those of its requeue, and the
  // rows of a compensation those of its compensation, which takes back what the requeue did.
  lemma ProtocolSteps(id: int, t: Task, e: Execution, now: int)
    requires MatchesPolicy(id, t) && t.result.None? && t.status == Blocked && e.status == Exhausted
    requires e.attempts >= e.maxAttempts && e.processId.Some?
    ensures var before := TaskProtocol.Rows(Some(t), Some(e));
            var after := TaskProtocol.Rows(Some(RequeuedTask(t, now)), Some(RequeuedExecution(e, now)));
            && TaskProtocol.Admits(id, before, TaskProtocol.Op.Requeue(true), now)
            && TaskProtocol.NextRows(id, before, TaskProtocol.Op.Requeue(true), now) == after
            && TaskProtocol.Admits(id, after, TaskProtocol.Compensate(t, e), now)
            && TaskProtocol.NextRows(id, after, TaskProtocol.Compensate(t, e), now) == before
  {
  }

  lemma CommitsAdmitted(w: World, r: Request)
    requires Commits(w, r)
    ensures var db, n := w.db, Committed(w.db, r.id, r.reason, r.now);
            && n.tasks == db.tasks[r.id := RequeuedTask(db.tasks[r.id], r.now)]
            && n.executions == db.executions[r.id := RequeuedExecution(db.executions[r.id], r.now)]
            && TaskProtocol.Admits(r.id, TaskProtocol.Rows(Some(db.tasks[r.id]), Some(db.executions[r.id])),
                                   TaskProtocol.Op.Requeue(true), r.now)
  {
    ProtocolSteps(r.id, w.db.tasks[r.id], w.db.executions[r.id], r.now);
    hide TaskProtocol.Admits, TaskProtocol.NextRows, Intact, LatestSigned, Unique;
  }

  function Gap(w: World): int {
    |w.db.anchors| - |w.ledger|
  }

  // A requeue that is not interrupted keeps the two stores consistent, and never widens or
  // closes a gap between them.
  lemma RequeueingKeeps(w: World, r: Request, appendFails: bool)
    requires Sound(w.db)
    ensures var n := Requeueing(w, r, appendFails);
            && Sound(n.db) && n.db.schema == w.db.schema && Gap(n) == Gap(w)
            && (Chained(n.ledger) <==> Chained(w.ledger))
            && (Consistent(w.db, w.ledger) ==> Consistent(n.db, n.ledger))
  {
    hide Commits, Consistent, Committed, Sealed, Chained, PolicyFor, ValuesOf, Sound;
    if Recovers(w, r, appendFails) {
      CommitsKnows(w, r);
      var n := Committed(w.db, r.id, r.reason, r.now);
      WrittenShape(w.db, r.id, r.reason, r.now, n);
      AppendChains(w.ledger, AnchorValues(n.anchors[n.recordSeq]));
      if Consistent(w.db, w.ledger) {
        AppendCompletes(w.db, w.ledger, r.id, r.reason, r.now, n);
      }
    } else {
      AdvancedConsistent(w.db, w.ledger);
    }
  }

  // --- The stores -------------------------------------------------------------------------------------

  datatype Judgement = Refuse | Repeat | Proceed

  datatype Outcome = Refused | Repeated | Recovered(recordId: int) | RolledBack

  class Stores {
    var db: Database
    var ledger: seq<Line>

    function Stored(): World
      reads this
    {
      World(db, ledger)
    }

    ghost predicate Valid()
      reads this
    {
      Sound(db)
    }

    method AssertIntegrity(task: int) returns (ok: bool)
      requires Valid()
      ensures ok <==> Intact(db, ledger, task)
    {
      hide Reported, Raises;
      var conflicts := Conflicts(db, ledger);
      if conflicts.None? {
        return false;
      }
      ok := forall c <- conflicts.value :: !Blocks(c, task);
    }

    // SELECT ... WHERE task_id=? ORDER BY id DESC LIMIT 1
    method LatestRecord(task: int) returns (latest: Option<int>)
      ensures latest.None? <==> forall k <- db.records.Keys :: db.records[k].body.task != task
      ensures latest.Some? ==> Latest(db, task, latest.value)
    {
      var mine := set k | k in db.records && db.records[k].body.task == task;
      assert forall k <- db.records.Keys :: db.records[k].body.task == task <==> k in mine;
      latest := Newest(mine);
    }

    // The newest approval of task 145, and its checks.
    method Task145Approved() returns (approved: bool)
      ensures approved <==> Approved145(db)
    {
      var mine := set k | k in db.approvals && Selected(db.approvals[k]);
      hide Selected, Genuine;
      assert forall k <- db.approvals.Keys :: Selected(db.approvals[k]) <==> k in mine;
      var newest := Newest(mine);
      if newest.None? {
        return false;
      }
      var row := db.approvals[newest.value];
      approved := Genuine(newest.value, row);
      assert approved ==> newest.value in db.approvals.Keys && Genuine(newest.value, db.approvals[newest.value]);
    }

    // The guards of the transaction, in the order in which they raise.
    method Judge(r: Request) returns (judgement: Judgement)
      requires Valid()
      ensures judgement == Proceed <==> Commits(Stored(), r)
      ensures judgement == Refuse <==> !(Entitled(Stored(), r) && (Repeats(db, r) || Commits(Stored(), r)))
    {
      hide Intact, PolicyFor, Unique, Check, Approved145, StatusOfProcess;
      var id := r.id;
      if r.actor != "CEO" || r.reason == "" || PolicyFor(id).None? || id !in db.tasks || id !in db.executions {
        return Refuse;
      }
      var intact := AssertIntegrity(id);
      var t, e := db.tasks[id], db.executions[id];
      if !intact || t.status == Reconciled || e.status == ExecutionReconciled || t.result.Some?
         || !MatchesPolicy(id, t) {
        return Refuse;
      }
      var latest := LatestRecord(id);
      if latest.Some? {
        var existing := db.records[latest.value];
        if existing.signature != RecordSigned(existing.body) {
          return Refuse;
        }
        if t.status == Open && e.status == Requeued {
          return if existing.body.reason == r.reason && existing.body.newTask == TaskText(t)
                    && existing.body.newExecution == ExecutionText(Shown(e)) then Repeat else Refuse;
        }
      }
      if t.status != Blocked || e.status != Exhausted || e.attempts < e.maxAttempts {
        return Refuse;
      }
      var process := StatusOfProcess(e, r.probe);
      if e.processId.None? || e.processStart.None? || e.processStart.value == ""
         || process.alive != Some(false) || process.reason != "process not found" {
        return Refuse;
      }
      var approved := id != 146;
      if !approved {
        approved := Task145Approved();
      }
      judgement := if approved && Unique(db, id) then Proceed else Refuse;
    }

    // The updates and inserts of the transaction.
    method Write(id: int, reason: string, now: int)
      requires Governed(db, id)
      modifies `db
      ensures db == Committed(old(db), id, reason, now)
    {
      hide AnchorFor, AuditFor, EventFor, RequeuedTask, RequeuedExecution, PolicyFor;
      var r := NewRecord(db, id, reason, now);
      db := db.(tasks := db.tasks[id := RequeuedTask(db.tasks[id], now)],
                executions := db.executions[id := RequeuedExecution(db.executions[id], now)]);
      db := db.(records := db.records[r.body.id := r], recordSeq := db.recordSeq + 1);
      db := db.(anchors := db.anchors[r.body.id := AnchorFor(r, db.auditSeq + 1, db.eventSeq + 1)]);
      db := db.(audits := db.audits[db.auditSeq + 1 := AuditFor(r)], auditSeq := db.auditSeq + 1);
      db := db.(events := db.events[db.eventSeq + 1 := EventFor(r)], eventSeq := db.eventSeq + 1);
    }

    // The compensating transaction: delete the four rows by id and write the saved columns back.
    method Compensate(id: int, recordId: int, auditId: int, eventId: int, previousTask: Task,
                      previousExecution: Execution)
      requires id in db.tasks && id in db.executions
      modifies `db
      ensures db == Uncommitted(old(db), id, recordId, auditId, eventId, previousTask, previousExecution)
    {
      db := db.(events := db.events - {eventId});
      db := db.(audits := db.audits - {auditId});
      db := db.(anchors := db.anchors - {recordId});
      db := db.(records := db.records - {recordId});
      db := db.(tasks := db.tasks[id := RestoredTask(db.tasks[id], previousTask)]);
      db := db.(executions := db.executions[id := RestoredExecution(db.executions[id], previousExecution)]);
      db := db.(brokenTriggers := []);
    }

    // The record the response is built from: some record of the task, in no stated order.
    method ResponseRecord(task: int) returns (recordId: int)
      requires exists k <- db.records.Keys :: db.records[k].body.task == task
      ensures recordId in db.records && db.records[recordId].body.task == task
    {
      recordId :| recordId in db.records.Keys && db.records[recordId].body.task == task;
    }

    // The SQLite transaction. From a conflict-free state, a crash right after it is reported.
    method Transact(r: Request) returns (judgement: Judgement)
      requires Valid()
      modifies `db
      ensures Valid()
      ensures judgement == Proceed <==> Commits(old(Stored()), r)
      ensures judgement != Proceed ==> db == old(db)
      ensures judgement == Proceed ==> Governed(old(db), r.id) && db == Committed(old(db), r.id, r.reason, r.now)
      ensures judgement == Proceed && Consistent(old(db), ledger) ==> Reported(db, ledger, LedgerMismatch)
    {
      hide Commits, Consistent, Committed, Intact, PolicyFor, Sound;
      judgement := Judge(r);
      if judgement == Proceed {
        ghost var before := db;
        CommitsKnows(Stored(), r);
        Write(r.id, r.reason, r.now);
        WrittenShape(before, r.id, r.reason, r.now, db);
        if Consistent(before, ledger) {
          CrashIsReported(before, ledger, r.id, r.reason, r.now);
        }
      }
    }

    /**
     One requeue, uninterrupted. `appendFails` says whether the append fails before it writes.
     A commit whose append succeeds extends both stores; a commit whose append fails is
     compensated to the rows it found; everything else changes nothing. The answer names the
     new record if the task has no other.
     */
    method Requeue(r: Request, appendFails: bool) returns (outcome: Outcome)
      requires Valid()
      modifies this
      ensures Valid()
      ensures Stored() == Requeueing(old(Stored()), r, appendFails)
      ensures outcome.Recovered? <==> Recovers(old(Stored()), r, appendFails)
      ensures outcome == RolledBack <==> Commits(old(Stored()), r) && !Recovers(old(Stored()), r, appendFails)
      ensures outcome.Recovered? ==> outcome.recordId in db.records && db.records[outcome.recordId].body.task == r.id
      ensures outcome.Recovered? && outcome.recordId != db.recordSeq ==> outcome.recordId in old(db).records
      ensures Consistent(old(db), old(ledger)) ==> Consistent(db, ledger)
      ensures Gap(Stored()) == Gap(old(Stored()))
    {
      hide Commits, Consistent, Committed, Uncommitted, Sealed, Chained, PolicyFor, ValuesOf, Sound;
      RequeueingKeeps(Stored(), r, appendFails);
      var before := db;
      var judgement := Transact(r);
      if judgement != Proceed {
        return if judgement == Repeat then Repeated else Refused;
      }
      CommitsKnows(World(before, ledger), r);
      WrittenShape(before, r.id, r.reason, r.now, db);
      var recordId := ResponseRecord(r.id);
      var values := AnchorValues(db.anchors[db.recordSeq]);
      var extended: Option<seq<Line>> := None;
      if !appendFails {
        extended := Append(ledger, values);
      }
      if extended.Some? {
        ledger := extended.value;
        outcome := Outcome.Recovered(recordId);
      } else {
        Compensate(r.id, db.recordSeq, db.auditSeq, db.eventSeq, before.tasks[r.id], before.executions[r.id]);
        CompensationRestores(before, r.id, r.reason, r.now, Committed(before, r.id, r.reason, r.now), db);
        outcome := RolledBack;
      }
    }
  }
}
