/**
 `requeue_exhausted_task` across its two stores: the SQLite transaction, the append to the
 external ledger, and the compensation when the append fails.
 */
module RecoveryRequeue {
  import opened Common
  import opened TaskTables

  import opened RecoveryTables
  import opened RecoveryLedger
  import opened RecoveryConflicts

  // `_execution_details`: the execution row without its update time.
  function Shown(e: Execution): Execution {
    e.(updatedAt := 0)
  }

  predicate Governed(db: Database, id: int) {
    id in db.tasks && id in db.executions && PolicyFor(id).Some?
  }

  // --- The rows a requeue writes ---------------------------------------------------------------------

  function NewRecord(db: Database, id: int, reason: string, now: int): Record
    requires Governed(db, id)
  {
    var t, e := db.tasks[id], db.executions[id];
    var body := RecordBody(db.recordSeq + 1, id, now, "CEO", reason, PolicyFor(id).value.scope,
                           ProofText(if e.processId.Some? then e.processId.value else 0,
                                     if e.processStart.Some? then e.processStart.value else ""),
                           TaskText(t), ExecutionText(Shown(e)),
                           TaskText(RequeuedTask(t, now)), ExecutionText(Shown(RequeuedExecution(e, now))),
                           Some(db.auditSeq + 1), Some(db.eventSeq + 1));
    Record(body, RecordSigned(body))
  }

  function AnchorFor(r: Record, auditId: int, eventId: int): Anchor {
    var body := AnchorBody(r.body.id, r.body.task, auditId, eventId, r.signature, RECOVERY_EVENT_PRIORITY);
    Anchor(body, AnchorSigned(body))
  }

  function AuditFor(r: Record): Audit {
    Audit(r.body.at, r.body.actor, TaskEntity(r.body.task), Payload(r))
  }

  function EventFor(r: Record): Event {
    Event(r.body.at, r.body.at, TaskEntity(r.body.task), Payload(r), RECOVERY_EVENT_PRIORITY)
  }

  // The database after the SQLite transaction.
  function Committed(db: Database, id: int, reason: string, now: int): Database
    requires Governed(db, id)
  {
    var r := NewRecord(db, id, reason, now);
    db.(tasks := db.tasks[id := RequeuedTask(db.tasks[id], now)],
        executions := db.executions[id := RequeuedExecution(db.executions[id], now)],
        records := db.records[db.recordSeq + 1 := r],
        anchors := db.anchors[db.recordSeq + 1 := AnchorFor(r, db.auditSeq + 1, db.eventSeq + 1)],
        audits := db.audits[db.auditSeq + 1 := AuditFor(r)],
        events := db.events[db.eventSeq + 1 := EventFor(r)],
        recordSeq := db.recordSeq + 1, auditSeq := db.auditSeq + 1, eventSeq := db.eventSeq + 1)
  }

  // The rows of another run of the sequences: what AUTOINCREMENT keeps after a deletion.
  function Advanced(db: Database): Database {
    db.(recordSeq := db.recordSeq + 1, auditSeq := db.auditSeq + 1, eventSeq := db.eventSeq + 1)
  }

  // --- Consistency of the two stores ---------------------------------------------------------------

  ghost predicate Sound(db: Database) {
    Keyed(db) && Sequenced(db)
  }

  // A record's checks read its own rows and the identity of its task.
  lemma CheckPersists(db: Database, n: Database, r: Record)
    requires Check(db, r) == Valid
    requires r.body.task in n.tasks && r.body.task in n.executions
    requires SameIdentity(db.tasks[r.body.task], n.tasks[r.body.task])
    requires forall a <- db.audits.Keys :: a in n.audits && n.audits[a] == db.audits[a]
    requires forall e <- db.events.Keys :: e in n.events && n.events[e] == db.events[e]
    ensures Check(n, r) == Valid
  {
  }

  // The same with the audit row and the event given.
  lemma CheckCarries(db: Database, n: Database, r: Record)
    requires Check(db, r) == Valid
    requires r.body.task in n.tasks && r.body.task in n.executions
    requires SameIdentity(db.tasks[r.body.task], n.tasks[r.body.task])
    requires AuditMatches(n, r) && EventMatches(n, r)
    ensures Check(n, r) == Valid
  {
    hide AuditMatches, EventMatches, PolicyFor;
  }

  lemma NewRecordMatches(db: Database, id: int, reason: string, now: int)
    requires Governed(db, id)
    ensures var n, r := Committed(db, id, reason, now), NewRecord(db, id, reason, now);
            AuditMatches(n, r) && EventMatches(n, r)
  {
    hide PolicyFor;
  }

  // What a new record states about its own rows.
  predicate Describes(r: Record, id: int, t: Task) {
    && r.signature == RecordSigned(r.body) && r.body.task == id && r.body.actor == "CEO"
    && r.body.auditId.Some? && r.body.eventId.Some? && r.body.proof.ProofText?
    && r.body.newTask == TaskText(t) && t.status == Open && t.result.None?
    && r.body.newExecution.ExecutionText? && r.body.newExecution.execution.status == Requeued
    && PolicyFor(id).Some? && r.body.scope == PolicyFor(id).value.scope
  }

  lemma NewRecordDescribes(db: Database, id: int, reason: string, now: int)
    requires Governed(db, id) && db.tasks[id].result.None?
    ensures Describes(NewRecord(db, id, reason, now), id, RequeuedTask(db.tasks[id], now))
  {
    hide PolicyFor;
  }

  lemma DescribedChecks(n: Database, r: Record, id: int)
    requires id in n.tasks && id in n.executions && Describes(r, id, n.tasks[id])
    requires AuditMatches(n, r) && EventMatches(n, r)
    ensures Check(n, r) == Valid
  {
    hide PolicyFor, AuditMatches, EventMatches;
  }

  lemma NewRecordChecks(db: Database, id: int, reason: string, now: int)
    requires Governed(db, id) && db.tasks[id].result.None?
    ensures Check(Committed(db, id, reason, now), NewRecord(db, id, reason, now)) == Valid
  {
    hide PolicyFor, NewRecord, RequeuedTask, RequeuedExecution, AuditFor, EventFor, AnchorFor, Check, Describes;
    NewRecordDescribes(db, id, reason, now);
    NewRecordMatches(db, id, reason, now);
    DescribedChecks(Committed(db, id, reason, now), NewRecord(db, id, reason, now), id);
  }

  lemma CommitChecks(db: Database, id: int, reason: string, now: int, n: Database)
    requires Sequenced(db) && forall k <- db.records.Keys :: Check(db, db.records[k]) == Valid
    requires Governed(db, id) && db.tasks[id].result.None? && n == Committed(db, id, reason, now)
    ensures forall k <- n.records.Keys :: Check(n, n.records[k]) == Valid
  {
    hide Check, PolicyFor, NewRecord, AuditFor, EventFor, AnchorFor, RequeuedExecution;
    NewRecordChecks(db, id, reason, now);
    forall k | k in n.records ensures Check(n, n.records[k]) == Valid {
      if k != db.recordSeq + 1 {
        assert Check(db, db.records[k]) == Valid;
        KnownTask(db, db.records[k]);
        CheckPersists(db, n, db.records[k]);
      }
    }
  }

  lemma KnownTask(db: Database, r: Record)
    requires Check(db, r) == Valid
    ensures r.body.task in db.tasks && r.body.task in db.executions
  {
  }

  lemma CommitAnchors(db: Database, id: int, reason: string, now: int, n: Database)
    requires Sound(db) && Corresponding(db)
    requires Governed(db, id) && n == Committed(db, id, reason, now)
    ensures AnchorsOneToOne(n)
  {
    forall k | k in n.anchors ensures AnchorValid(n, n.anchors[k]) {
      if k != db.recordSeq + 1 {
        assert AnchorValid(db, db.anchors[k]);
      }
    }
    assert n.anchors.Keys == n.records.Keys;
  }

  // References of old records are kept, and the new record refers to the new row.
  lemma AuditsReferenced(db: Database, n: Database, k: int)
    requires k in n.records && n.audits.Keys == db.audits.Keys + {Ref(n.records[k].body.auditId)}
    requires forall r <- db.records.Keys :: r in n.records.Keys && n.records[r] == db.records[r]
    requires forall a <- db.audits.Keys :: AuditReferenced(db, a)
    ensures forall a <- n.audits.Keys :: AuditReferenced(n, a)
  {
  }

  lemma EventsReferenced(db: Database, n: Database, k: int)
    requires k in n.records && n.events.Keys == db.events.Keys + {Ref(n.records[k].body.eventId)}
    requires forall r <- db.records.Keys :: r in n.records.Keys && n.records[r] == db.records[r]
    requires forall e <- db.events.Keys :: EventReferenced(db, e)
    ensures forall e <- n.events.Keys :: EventReferenced(n, e)
  {
  }

  // The listing of the anchors grows by the new one, at the end.
  lemma ListingGrows(db: Database, values: seq<Values>, anchor: Anchor)
    requires Sound(db) && Lists(values, db.anchors) && anchor.body.recordId == db.recordSeq + 1
    requires db.anchors.Keys <= db.records.Keys
    ensures Lists(values + [AnchorValues(anchor)], db.anchors[db.recordSeq + 1 := anchor])
  {
    var id, longer := db.recordSeq + 1, values + [AnchorValues(anchor)];
    var anchors := db.anchors[id := anchor];
    forall k | 0 <= k < |longer| ensures longer[k].AnchorValues? && Holds(anchors, longer[k].anchor)
                                         && (k < |values| ==> longer[k].anchor.body.recordId < id) {
      if k < |values| {
        assert Holds(db.anchors, values[k].anchor);
      }
    }
    forall key | key in anchors.Keys ensures AnchorValues(anchors[key]) in longer {
      if key == id {
        assert longer[|values|] == AnchorValues(anchor);
      } else {
        assert AnchorValues(db.anchors[key]) in values;
      }
    }
  }

  // After the commit alone the ledger no longer lists the anchors.
  lemma CrashIsReported(db: Database, file: seq<Line>, id: int, reason: string, now: int)
    requires Sound(db) && Consistent(db, file)
    requires Governed(db, id)
    ensures Reported(Committed(db, id, reason, now), file, LedgerMismatch)
  {
    var n, values := Committed(db, id, reason, now), ValuesOf(file);
    forall k | 0 <= k < |values| ensures values[k] != AnchorValues(n.anchors[db.recordSeq + 1]) {
      assert Holds(db.anchors, values[k].anchor);
    }
    assert db.recordSeq + 1 in n.anchors.Keys;
  }

  lemma CommitShape(db: Database, id: int, reason: string, now: int, n: Database)
    requires Sound(db) && Governed(db, id) && n == Committed(db, id, reason, now)
    ensures var k := db.recordSeq + 1;
            && Sound(n) && n.recordSeq == k && n.schema == db.schema && n.brokenTriggers == db.brokenTriggers
            && id in n.tasks && id in n.executions
            && k in n.anchors && n.anchors[k].body.recordId == k && n.anchors == db.anchors[k := n.anchors[k]]
            && k in n.records && (forall r <- db.records.Keys :: r in n.records.Keys && n.records[r] == db.records[r])
            && n.audits.Keys == db.audits.Keys + {Ref(n.records[k].body.auditId)}
            && n.events.Keys == db.events.Keys + {Ref(n.records[k].body.eventId)}
  {
    hide AuditFor, EventFor, PolicyFor;
  }

  lemma CommitReferences(db: Database, id: int, reason: string, now: int, n: Database)
    requires Sound(db) && Governed(db, id) && n == Committed(db, id, reason, now)
    requires forall a <- db.audits.Keys :: AuditReferenced(db, a)
    requires forall e <- db.events.Keys :: EventReferenced(db, e)
    requires forall k <- n.records.Keys :: Check(n, n.records[k]) == Valid
    ensures AuditsOneToOne(n) && EventsOneToOne(n)
  {
    CommitShape(db, id, reason, now, n);
    hide Committed, Check, AuditMatches, EventMatches, PolicyFor, Ref, AuditReferenced, EventReferenced,
         DistinctAudits, DistinctEvents;
    AuditsReferenced(db, n, n.recordSeq);
    EventsReferenced(db, n, n.recordSeq);
    PayloadNamesRecord(n);
  }

  // The rows of a commit correspond one to one; only the ledger lags behind.
  lemma CommitCorresponds(db: Database, id: int, reason: string, now: int, n: Database)
    requires Sound(db) && Corresponding(db)
    requires Governed(db, id) && db.tasks[id].result.None? && n == Committed(db, id, reason, now)
    ensures Sound(n) && Corresponding(n)
  {
    CommitChecks(db, id, reason, now, n);
    CommitAnchors(db, id, reason, now, n);
    CommitReferences(db, id, reason, now, n);
    CommitShape(db, id, reason, now, n);
    hide Committed, Check, AnchorValid, AuditsOneToOne, EventsOneToOne, AnchorsOneToOne, Ref, Keyed, Sequenced;
  }

  // A requeue whose append succeeds leaves the two stores in one-to-one correspondence.
  lemma AppendCompletes(db: Database, file: seq<Line>, id: int, reason: string, now: int, n: Database)
    requires Sound(db) && Consistent(db, file)
    requires Governed(db, id) && db.tasks[id].result.None?
    requires n == Committed(db, id, reason, now)
    ensures Sound(n) && n.recordSeq in n.anchors
    ensures Consistent(n, file + [Sealed(file, AnchorValues(n.anchors[n.recordSeq]))])
  {
    hide Committed, Check, Lists, Sealed, Chained, AuditsOneToOne, EventsOneToOne, AnchorValid, Keyed, Sequenced,
         ValuesOf, Ref;
    CommitCorresponds(db, id, reason, now, n);
    CommitShape(db, id, reason, now, n);
    ListingGrows(db, ValuesOf(file), n.anchors[n.recordSeq]);
    SealedValue(file, AnchorValues(n.anchors[n.recordSeq]));
    AppendChains(file, AnchorValues(n.anchors[n.recordSeq]));
  }

  lemma SealedValue(file: seq<Line>, values: Values)
    ensures ValuesOf(file + [Sealed(file, values)]) == ValuesOf(file) + [values]
  {
  }

  // What the compensation leaves: the new rows deleted, the saved columns written back.
  function Uncommitted(db: Database, id: int, recordId: int, auditId: int, eventId: int,
                       previousTask: Task, previousExecution: Execution): Database
    requires id in db.tasks && id in db.executions
  {
    db.(tasks := db.tasks[id := RestoredTask(db.tasks[id], previousTask)],
        executions := db.executions[id := RestoredExecution(db.executions[id], previousExecution)],
        records := db.records - {recordId}, anchors := db.anchors - {recordId},
        audits := db.audits - {auditId}, events := db.events - {eventId}, brokenTriggers := [])
  }

  lemma RowsRestored(t: Task, e: Execution, now: int)
    ensures RestoredTask(RequeuedTask(t, now), t) == t
    ensures RestoredExecution(RequeuedExecution(e, now), e) == e
  {
  }

  // Compensating a commit restores every row of every table; only the sequences stay advanced.
  lemma CompensationRestores(db: Database, id: int, reason: string, now: int, n: Database, u: Database)
    requires Sound(db) && Governed(db, id) && db.recordSeq + 1 !in db.anchors && db.brokenTriggers == []
    requires n == Committed(db, id, reason, now)
    requires u == Uncommitted(n, id, n.recordSeq, n.auditSeq, n.eventSeq, db.tasks[id], db.executions[id])
    ensures u == Advanced(db)
  {
    hide NewRecord, AnchorFor, AuditFor, EventFor, RequeuedTask, RequeuedExecution, RestoredTask, RestoredExecution,
         PolicyFor;
    RowsRestored(db.tasks[id], db.executions[id], now);
    assert u.tasks == db.tasks && u.executions == db.executions;
    assert u.records == db.records && u.anchors == db.anchors;
    assert u.audits == db.audits && u.events == db.events;
  }
}
