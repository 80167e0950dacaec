/**
 What the governed recovery stores and what its stores prove: the evidence a requeue needs, the
 record it writes, the answer to a repetition, and the ledger as a witness of all four tables.
 */
module RecoveryEffects {
  import opened Common
  import opened TaskTables
  import opened RecoveryTables
  import opened RecoveryLedger
  import opened RecoveryConflicts
  import opened RecoveryRequeue
  import opened RecoveryStore
  import opened RecoveryRuns

  // --- Evidence --------------------------------------------------------------------------------------

  // Only the absence of the recorded process proves its death: neither a refused probe nor
  // another process under the same id does.
  lemma DeathProof(e: Execution, probe: Probe)
    ensures ProvenDead(e, probe) <==> e.processId.Some? && probe == NotFound
  {
  }

  // Whether the process is alive: it exists, and its start is the recorded one if both are known.
  lemma AliveMeans(e: Execution, probe: Probe)
    ensures StatusOfProcess(e, probe).alive == Some(true)
            <==> e.processId.Some? && probe.Found?
                 && (e.processStart.None? || e.processStart.value == "" || probe.start == e.processStart)
  {
  }

  // What a commit proves: the CEO asked for a governed task whose attempts are used up, whose
  // process is gone, and which has no result.
  lemma CommitNeeds(w: World, r: Request)
    requires Commits(w, r)
    ensures r.actor == "CEO" && r.reason != "" && (r.id == 145 || r.id == 146)
    ensures r.id in w.db.tasks && r.id in w.db.executions
    ensures var t, e := w.db.tasks[r.id], w.db.executions[r.id];
            && t.status == Blocked && t.result == None && e.status == Exhausted && e.attempts >= e.maxAttempts
            && e.processId.Some? && e.processStart.Some? && e.processStart.value != "" && r.probe == NotFound
  {
    hide Intact, LatestSigned, Approved145;
    DeathProof(w.db.executions[r.id], r.probe);
    hide ProvenDead;
  }

  // Exactly then a requeue commits: the request, the task, its execution and its process are as
  // demanded, the recovery tables are intact, and nothing of it is recorded yet.
  lemma CommitsExactly(w: World, r: Request)
    ensures Commits(w, r)
            <==> && r.actor == "CEO" && r.reason != "" && r.id in w.db.tasks && r.id in w.db.executions
                 && MatchesPolicy(r.id, w.db.tasks[r.id]) && Intact(w.db, w.ledger, r.id) && LatestSigned(w.db, r.id)
                 && w.db.tasks[r.id].status == Blocked && w.db.tasks[r.id].result == None
                 && UsedUp(w.db.executions[r.id]) && r.probe == NotFound
                 && (r.id == 146 ==> Approved145(w.db)) && Unique(w.db, r.id)
  {
    hide Intact, LatestSigned, Unique, Approved145, ProvenDead, PolicyFor;
    if r.id in w.db.executions {
      DeathProof(w.db.executions[r.id], r.probe);
    }
  }

  // All attempts are spent, and the process is known by id and start.
  predicate UsedUp(e: Execution) {
    e.status == Exhausted && e.attempts >= e.maxAttempts && e.processId.Some? && e.processStart.Some?
    && e.processStart.value != ""
  }

  // And nothing of it is recorded yet: neither this state of the task nor an anchor for the rows to come.
  lemma CommitIsNew(w: World, r: Request)
    requires Commits(w, r)
    ensures r.id in w.db.tasks && w.db.recordSeq + 1 !in w.db.anchors
    ensures forall k <- w.db.records.Keys :: w.db.records[k].body.task == r.id ==>
                                               w.db.records[k].body.previousTask != TaskText(w.db.tasks[r.id])
    ensures forall k <- w.db.anchors.Keys :: w.db.anchors[k].body.auditId != w.db.auditSeq + 1
                                             && w.db.anchors[k].body.eventId != w.db.eventSeq + 1
  {
    hide Intact, LatestSigned, Approved145, ExhaustedAndDead, MatchesPolicy;
  }

  // The two governed tasks, by owner, domain and title.
  lemma CommitIdentifies(w: World, r: Request)
    requires Commits(w, r)
    ensures r.id in w.db.tasks
    ensures r.id == 145 ==> w.db.tasks[r.id].owner == "Customer & Revenue" && w.db.tasks[r.id].domain == "commercial"
                            && w.db.tasks[r.id].title == "登记受控Beta真实客户验证董事长决策事项"
    ensures r.id == 146 ==> w.db.tasks[r.id].owner == "Product Engineer" && w.db.tasks[r.id].domain == "product"
                            && w.db.tasks[r.id].title == "准备受控Beta获批后内部执行就绪检查"
  {
    hide Intact, LatestSigned, Approved145, ExhaustedAndDead, Unique;
  }

  // Records that a commit trusts: the newest one of the task carries its own signature.
  lemma CommitTrustsNewest(w: World, r: Request, k: int)
    requires Commits(w, r) && k in w.db.records && w.db.records[k].body.task == r.id
    requires forall j <- w.db.records.Keys :: w.db.records[j].body.task == r.id ==> j <= k
    ensures w.db.records[k].signature == RecordSigned(w.db.records[k].body)
  {
    hide Intact, Approved145, ExhaustedAndDead, Unique, PolicyFor;
    assert Latest(w.db, r.id, k);
  }

  /**
   What the integrity guard of a task demands of the tables, without the validator: an intact
   schema, no broken trigger, one valid anchor for each record, no audit row or event without a
   record, and no invalid record of this task.
   */
  lemma IntactMeans(db: Database, file: seq<Line>, task: int)
    requires Keyed(db)
    ensures Intact(db, file, task)
            <==> && db.schema == Canonical && db.brokenTriggers == [] && AnchorsOneToOne(db)
                 && (forall a <- db.audits.Keys :: AuditReferenced(db, a))
                 && (forall e <- db.events.Keys :: EventReferenced(db, e))
                 && (forall k <- db.records.Keys :: Check(db, db.records[k]) != Raised
                                                    && (db.records[k].body.task == task ==>
                                                          Check(db, db.records[k]) == Valid))
  {
    hide AnchorValid, Check, Agrees, AuditReferenced, EventReferenced, NumberOf;
    if Intact(db, file, task) {
      IntactTables(db, file, task);
    }
  }

  lemma IntactTables(db: Database, file: seq<Line>, task: int)
    requires Keyed(db) && Intact(db, file, task)
    ensures db.schema == Canonical && db.brokenTriggers == [] && AnchorsOneToOne(db)
    ensures forall a <- db.audits.Keys :: AuditReferenced(db, a)
    ensures forall e <- db.events.Keys :: EventReferenced(db, e)
    ensures forall k <- db.records.Keys :: Check(db, db.records[k]) != Raised
                                           && (db.records[k].body.task == task ==> Check(db, db.records[k]) == Valid)
  {
    hide AnchorValid, Check, Agrees, AuditReferenced, EventReferenced, NumberOf;
    assert Blocks(SchemaConflict, task);
    assert !Reported(db, file, SchemaConflict);
    assert forall name :: Blocks(TriggerConflict(name), task);
    NoBrokenTrigger(db, file);
    forall id | id in db.audits ensures AuditReferenced(db, id) {
      assert Blocks(AuditConflict(id, NumberOf(db.audits[id].entity)), task);
    }
    forall id | id in db.events ensures EventReferenced(db, id) {
      assert Blocks(EventConflict(id, NumberOf(db.events[id].entity)), task);
    }
    forall k | k in db.records
      ensures k in db.anchors && Check(db, db.records[k]) != Raised
              && (db.records[k].body.task == task ==> Check(db, db.records[k]) == Valid)
    {
      assert Blocks(ProvenanceConflict(k, db.records[k].body.task), task);
      assert db.records[k].body.task == task ==> Blocks(RecordConflict(task), task);
    }
    forall k | k in db.anchors ensures AnchorValid(db, db.anchors[k]) && k in db.records {
      assert Blocks(ProvenanceConflict(k, db.anchors[k].body.task), task);
      AnchorHasRecord(db, db.anchors[k]);
    }
  }

  // Decided in favour of task 145, for its own action.
  predicate Favours145(a: Approval) {
    && a.decision.status == "approved" && a.decision.decision == Some("approve")
    && a.binding.targetTask == Some(145) && a.binding.actionType == "internal_task_approval"
    && a.binding.targetAction == Some("internal_task_approval")
  }

  // Task 146 needs more: the newest approval of the decision package of task 145 is genuine.
  lemma CommitNeedsApproval(w: World, r: Request)
    requires Commits(w, r) && r.id == 146
    ensures exists id <- w.db.approvals.Keys ::
              var a := w.db.approvals[id];
              && Favours145(a)
              && (forall k <- w.db.approvals.Keys :: Favours145(w.db.approvals[k]) ==> k <= id)
              && a.decision.decidedBy == Some("Chairman")
              && a.binding.summary == "Task 145 Chairman decision package approved"
              && a.bindingSignature == BindingSigned(a.binding)
              && a.decisionSignature == DecisionSigned(id, a.binding, a.decision)
  {
    hide Entitled, ExhaustedAndDead, Unique;
    assert Approved145(w.db);
  }

  // A reconciled task is beyond recovery, whatever else its rows say.
  lemma ReconciledIsFinal(w: World, r: Request)
    requires Governed(w.db, r.id)
    requires w.db.tasks[r.id].status == Reconciled || w.db.executions[r.id].status == ExecutionReconciled
    ensures !Entitled(w, r) && !Commits(w, r)
  {
  }

  // --- The record ------------------------------------------------------------------------------------

  // The record shows the rows as they were and as they became, and the process that is gone.
  lemma RecordTells(db: Database, id: int, reason: string, now: int)
    requires Governed(db, id) && db.executions[id].processId.Some? && db.executions[id].processStart.Some?
    ensures var n, e := Committed(db, id, reason, now), db.executions[id];
            && n.recordSeq == db.recordSeq + 1 && n.recordSeq in n.records
            && n.records == db.records[n.recordSeq := n.records[n.recordSeq]]
            && var r := n.records[n.recordSeq];
               && r.signature == RecordSigned(r.body) && r.body.id == n.recordSeq && r.body.task == id
               && r.body.at == now && r.body.actor == "CEO" && r.body.reason == reason
               && r.body.previousTask == TaskText(db.tasks[id]) && r.body.newTask == TaskText(n.tasks[id])
               && r.body.previousExecution == ExecutionText(e.(updatedAt := 0))
               && r.body.newExecution == ExecutionText(n.executions[id].(updatedAt := 0))
               && r.body.proof == ProofText(e.processId.value, e.processStart.value)
               && r.body.auditId == Some(n.auditSeq) && r.body.eventId == Some(n.eventSeq)
               && r.body.scope == PolicyFor(id).value.scope
  {
    hide AuditFor, EventFor, AnchorFor, RequeuedTask, RequeuedExecution;
  }

  // A compensation deletes its four rows, writes the saved columns back and repairs the triggers.
  lemma CompensationRepairs(db: Database, id: int, recordId: int, auditId: int, eventId: int, t: Task, e: Execution)
    requires id in db.tasks && id in db.executions
    ensures var u := Uncommitted(db, id, recordId, auditId, eventId, t, e);
            && u.brokenTriggers == [] && u.schema == db.schema && u.approvals == db.approvals
            && u.records == db.records - {recordId} && u.anchors == db.anchors - {recordId}
            && u.audits == db.audits - {auditId} && u.events == db.events - {eventId}
            && u.recordSeq == db.recordSeq && u.auditSeq == db.auditSeq && u.eventSeq == db.eventSeq
            && u.tasks == db.tasks[id := db.tasks[id].(status := t.status, updatedAt := t.updatedAt,
                                                       blockedReason := t.blockedReason, result := t.result)]
            && u.executions == db.executions[id := db.executions[id].(
                 status := e.status, attempts := e.attempts, checkpoint := e.checkpoint, nextAction := e.nextAction,
                 lastError := e.lastError, processId := e.processId, processStart := e.processStart,
                 session := e.session, token := e.token, updatedAt := e.updatedAt)]
  {
  }

  // A valid record, condition by condition.
  lemma ValidMeans(db: Database, r: Record)
    ensures Check(db, r) == Valid
            <==> && r.signature == RecordSigned(r.body) && r.body.actor == "CEO"
                 && r.body.task in db.tasks && r.body.task in db.executions
                 && r.body.auditId.Some? && r.body.eventId.Some? && !r.body.proof.Malformed?
                 && r.body.newTask.TaskText?
                 && r.body.newTask.task.owner == db.tasks[r.body.task].owner
                 && r.body.newTask.task.title == db.tasks[r.body.task].title
                 && r.body.newTask.task.domain == db.tasks[r.body.task].domain
                 && r.body.newTask.task.acceptance == db.tasks[r.body.task].acceptance
                 && r.body.newTask.task.status == Open && r.body.newTask.task.result == None
                 && r.body.newExecution.ExecutionText? && r.body.newExecution.execution.status == Requeued
                 && PolicyFor(r.body.task).Some? && r.body.scope == PolicyFor(r.body.task).value.scope
                 && Ref(r.body.auditId) in db.audits && Ref(r.body.eventId) in db.events
                 && db.audits[Ref(r.body.auditId)] == Audit(r.body.at, "CEO", TaskEntity(r.body.task), Payload(r))
                 && db.events[Ref(r.body.eventId)]
                    == Event(r.body.at, r.body.at, TaskEntity(r.body.task), Payload(r), 10)
  {
    hide PolicyFor;
  }

  // A record aborts the whole validation if its JSON loads and a reference is missing, or if a signed
  // state is JSON but no object and everything checked before it holds.
  lemma RaisedMeans(db: Database, r: Record)
    ensures Check(db, r) == Raised
            <==> && !r.body.newExecution.Malformed? && !r.body.newTask.Malformed? && !r.body.proof.Malformed?
                 && (r.body.auditId == None || r.body.eventId == None
                     || (r.signature == RecordSigned(r.body) && r.body.actor == "CEO"
                         && r.body.task in db.tasks && r.body.task in db.executions
                         && (r.body.newTask.NonObject?
                             || (r.body.newTask.TaskText? && r.body.newExecution.NonObject?
                                 && SameIdentity(r.body.newTask.task, db.tasks[r.body.task])
                                 && r.body.newTask.task.status == Open && r.body.newTask.task.result == None))))
  {
    hide PolicyFor, AuditMatches, EventMatches;
  }

  // A valid anchor is determined by its record: task, references and signature are the record's,
  // and the anchor signs all of them.
  lemma AnchorMeans(db: Database, a: Anchor)
    ensures AnchorValid(db, a)
            <==> && a.body.recordId in db.records
                 && var r := db.records[a.body.recordId];
                    && a.body == AnchorBody(a.body.recordId, r.body.task, Ref(r.body.auditId), Ref(r.body.eventId),
                                            r.signature, 10)
                    && a.signature == AnchorSigned(a.body)
  {
  }

  // --- Repetition ------------------------------------------------------------------------------------

  // A request repeats the newest recovery of its task if it gives the same reason and both rows are
  // still as the record says they became.
  lemma RepetitionMeans(db: Database, r: Request)
    requires Governed(db, r.id)
    ensures Repeats(db, r)
            <==> && db.tasks[r.id].status == Open && db.executions[r.id].status == Requeued
                 && exists k <- db.records.Keys ::
                      && db.records[k].body.task == r.id && db.records[k].body.reason == r.reason
                      && (forall j <- db.records.Keys :: db.records[j].body.task == r.id ==> j <= k)
                      && db.records[k].body.newTask == TaskText(db.tasks[r.id])
                      && db.records[k].body.newExecution == ExecutionText(db.executions[r.id].(updatedAt := 0))
  {
    assert forall k :: Latest(db, r.id, k)
                       <==> k in db.records.Keys && db.records[k].body.task == r.id
                            && forall j <- db.records.Keys :: db.records[j].body.task == r.id ==> j <= k;
  }

  /**
   Repeating a request right after it succeeded is recognised: the same reason is answered from
   the record, any other reason is refused, and neither commits anything again.
   */
  lemma RepetitionIsRecognised(w: World, r: Request, again: Request)
    requires Sound(w.db) && Corresponding(w.db) && Commits(w, r)
    requires again.id == r.id && again.actor == "CEO" && again.reason != ""
    ensures Governed(w.db, r.id) && Governed(Extended(w, r).db, again.id)
    ensures Entitled(Extended(w, r), again) && !Commits(Extended(w, r), again)
    ensures Repeats(Extended(w, r).db, again) <==> again.reason == r.reason
  {
    hide Intact, Unique, Approved145, PolicyFor, Corresponding, Check, Sealed, Committed, Latest, LatestSigned,
         ExhaustedAndDead, Repeats, Commits, Entitled, Keyed, Sequenced;
    CommitsKnows(w, r);
    CommitNeeds(w, r);
    CommitMatches(w, r);
    var n := Committed(w.db, r.id, r.reason, r.now);
    CommitCorresponds(w.db, r.id, r.reason, r.now, n);
    CommittedRows(w.db, r);
    RecordTells(w.db, r.id, r.reason, r.now);
    CorrespondingIsIntact(n, Extended(w, r).ledger, r.id);
    NewestRecord(w.db, r, n);
    Recognised(Extended(w, r), again, n.recordSeq);
  }

  lemma CommitMatches(w: World, r: Request)
    requires Commits(w, r)
    ensures r.id in w.db.tasks && MatchesPolicy(r.id, w.db.tasks[r.id])
  {
    hide Intact, LatestSigned, Unique, Approved145, MatchesPolicy;
  }

  lemma CommittedRows(db: Database, r: Request)
    requires Governed(db, r.id) && db.tasks[r.id].result.None? && MatchesPolicy(r.id, db.tasks[r.id])
    ensures var n := Committed(db, r.id, r.reason, r.now);
            && Governed(n, r.id) && n.tasks[r.id].status == Open && n.tasks[r.id].result.None?
            && n.executions[r.id].status == Requeued && MatchesPolicy(r.id, n.tasks[r.id])
  {
    hide PolicyFor, AuditFor, EventFor, AnchorFor, NewRecord;
  }

  lemma Recognised(w: World, again: Request, k: int)
    requires again.actor == "CEO" && again.reason != "" && Governed(w.db, again.id) && Intact(w.db, w.ledger, again.id)
    requires w.db.tasks[again.id].status == Open && w.db.tasks[again.id].result.None?
    requires w.db.executions[again.id].status == Requeued && MatchesPolicy(again.id, w.db.tasks[again.id])
    requires k in w.db.records && forall j :: Latest(w.db, again.id, j) <==> j == k
    requires var body := w.db.records[k].body;
             && w.db.records[k].signature == RecordSigned(body) && body.newTask == TaskText(w.db.tasks[again.id])
             && body.newExecution == ExecutionText(w.db.executions[again.id].(updatedAt := 0))
    ensures Entitled(w, again) && !Commits(w, again)
    ensures Repeats(w.db, again) <==> again.reason == w.db.records[k].body.reason
  {
    hide Intact, PolicyFor, Latest;
  }

  lemma CorrespondingIsIntact(db: Database, file: seq<Line>, task: int)
    requires Keyed(db) && Corresponding(db)
    ensures Intact(db, file, task)
  {
    forall c | Blocks(c, task) ensures !Reported(db, file, c) {
      NothingBlocks(db, file, c, task);
    }
  }

  lemma NewestRecord(db: Database, r: Request, n: Database)
    requires Sequenced(db) && Governed(db, r.id) && n == Committed(db, r.id, r.reason, r.now)
    ensures forall k :: Latest(n, r.id, k) <==> k == db.recordSeq + 1
  {
    hide PolicyFor, AuditFor, EventFor, AnchorFor, RequeuedTask, RequeuedExecution;
    var newest := db.recordSeq + 1;
    assert newest in n.records.Keys && n.records[newest].body.task == r.id;
    forall k ensures Latest(n, r.id, k) <==> k == newest {
      if Latest(n, r.id, k) {
        assert newest <= k;
      }
    }
  }

  // --- The ledger as a witness -----------------------------------------------------------------------

  lemma SameAnchorsListed(a: Database, b: Database, values: seq<Values>)
    requires Keyed(a) && Keyed(b) && Lists(values, a.anchors) && Lists(values, b.anchors)
    ensures a.anchors == b.anchors
  {
    forall id | id in a.anchors.Keys ensures id in b.anchors && b.anchors[id] == a.anchors[id] {
      ListedIn(a, b, values, id);
    }
    forall id | id in b.anchors.Keys ensures id in a.anchors {
      ListedIn(b, a, values, id);
    }
  }

  lemma ListedIn(a: Database, b: Database, values: seq<Values>, id: int)
    requires Keyed(a) && Lists(values, a.anchors) && Lists(values, b.anchors) && id in a.anchors
    ensures id in b.anchors && b.anchors[id] == a.anchors[id]
  {
    assert id in a.anchors.Keys;
    var k :| 0 <= k < |values| && values[k] == AnchorValues(a.anchors[id]);
    assert Holds(b.anchors, values[k].anchor);
  }

  // The anchor of a record carries its signature, and the signature covers the whole record.
  lemma AnchorDeterminesRecord(a: Database, b: Database, id: int)
    requires Keyed(a) && Corresponding(a) && Corresponding(b) && a.anchors == b.anchors && id in a.records
    ensures id in b.records && a.records[id] == b.records[id]
  {
    assert id in a.anchors && AnchorValid(a, a.anchors[id]) && AnchorValid(b, b.anchors[id]);
    assert Check(a, a.records[id]) == Valid;
    assert id in b.records && Check(b, b.records[id]) == Valid;
    SignedWhenValid(a, a.records[id]);
    SignedWhenValid(b, b.records[id]);
    hide Check, AuditsOneToOne, EventsOneToOne, AnchorsOneToOne;
  }

  lemma SignedWhenValid(db: Database, r: Record)
    requires Check(db, r) == Valid
    ensures r.signature == RecordSigned(r.body)
  {
    hide PolicyFor, AuditMatches, EventMatches;
  }

  lemma SameAudits(a: Database, b: Database, id: int)
    requires AuditsOneToOne(a) && AuditsOneToOne(b) && a.records == b.records && id in a.audits
    ensures id in b.audits && a.audits[id] == b.audits[id]
  {
    assert AuditReferenced(a, id);
    var k :| k in a.records.Keys && Ref(a.records[k].body.auditId) == id;
    assert AuditMatches(a, a.records[k]) && AuditMatches(b, b.records[k]);
  }

  lemma SameEvents(a: Database, b: Database, id: int)
    requires EventsOneToOne(a) && EventsOneToOne(b) && a.records == b.records && id in a.events
    ensures id in b.events && a.events[id] == b.events[id]
  {
    assert EventReferenced(a, id);
    var k :| k in a.records.Keys && Ref(a.records[k].body.eventId) == id;
    assert EventMatches(a, a.records[k]) && EventMatches(b, b.records[k]);
  }

  /**
   Tamper evidence. Two conflict-free states whose ledgers carry the same values have the same
   records, anchors, audit rows and events. So whatever is changed, added or deleted in these
   four tables, in one row or in many, is reported unless the ledger is changed with it.
   */
  lemma LedgerDeterminesTables(a: Database, f: seq<Line>, b: Database, g: seq<Line>)
    requires Keyed(a) && Keyed(b) && Consistent(a, f) && Consistent(b, g) && ValuesOf(f) == ValuesOf(g)
    ensures a.records == b.records && a.anchors == b.anchors && a.audits == b.audits && a.events == b.events
  {
    hide Corresponding, Keyed, Lists, Chained, ValuesOf;
    SameAnchorsListed(a, b, ValuesOf(f));
    forall id | id in a.records ensures id in b.records && a.records[id] == b.records[id] {
      AnchorDeterminesRecord(a, b, id);
    }
    forall id | id in b.records ensures id in a.records {
      AnchorDeterminesRecord(b, a, id);
    }
    assert a.records == b.records;
    CorrespondingReferences(a);
    CorrespondingReferences(b);
    hide AuditsOneToOne, EventsOneToOne;
    forall id | id in a.audits ensures id in b.audits && a.audits[id] == b.audits[id] {
      SameAudits(a, b, id);
    }
    forall id | id in b.audits ensures id in a.audits {
      SameAudits(b, a, id);
    }
    forall id | id in a.events ensures id in b.events && a.events[id] == b.events[id] {
      SameEvents(a, b, id);
    }
    forall id | id in b.events ensures id in a.events {
      SameEvents(b, a, id);
    }
  }

  lemma CorrespondingReferences(db: Database)
    requires Corresponding(db)
    ensures AuditsOneToOne(db) && EventsOneToOne(db)
  {
  }

  // As a report: a conflict-free state with other tables over the same ledger has a conflict.
  lemma TamperingIsReported(a: Database, b: Database, file: seq<Line>)
    requires Keyed(a) && Keyed(b) && Consistent(a, file) && !Raises(b)
    requires a.records != b.records || a.anchors != b.anchors || a.audits != b.audits || a.events != b.events
    ensures exists c :: Reported(b, file, c)
  {
    hide Consistent, Reported, Raises, Keyed;
    if forall c :: !Reported(b, file, c) {
      ConflictFree(b, file);
      LedgerDeterminesTables(a, file, b, file);
    }
  }
}
