/**
 Two requeues whose ledger lines are appended in the wrong order: nobody dies, nothing
 fails, and the two stores disagree ever after.
 */
module RecoveryWitness {
  import opened Common
  import opened TaskTables
  import opened RecoveryTables
  import opened RecoveryLedger
  import opened RecoveryConflicts
  import opened RecoveryRequeue
  import opened RecoveryStore
  import opened RecoveryRuns

  function BlockedTask(id: int): Task
    requires PolicyFor(id).Some?
  {
    var p := PolicyFor(id).value;
    Task(p.owner, p.title, p.domain, "", 0, Blocked, Some("attempts exhausted"), None, 0)
  }

  const EXHAUSTED := Execution("worker", Exhausted, Some(Token(1, "a")), 1, 3, 3, 0, 60, Some(7), Some("start"), None,
                               None, None, None, 0)

  const BINDING := ApprovalBinding(0, "CEO", APPROVAL_ACTION, APPROVAL_SUMMARY, Some(145), Some(APPROVAL_ACTION))
  const DECISION := ApprovalDecision("approved", Some("approve"), None, Some(1), Some("Chairman"))
  const APPROVAL := Approval(BINDING, DECISION, BindingSigned(BINDING), DecisionSigned(1, BINDING, DECISION))

  // Both governed tasks are exhausted, task 145 is approved, and nothing was ever recovered.
  function Before(): Database {
    Database(map[145 := BlockedTask(145), 146 := BlockedTask(146)], map[145 := EXHAUSTED, 146 := EXHAUSTED],
             map[], map[], map[], map[], map[1 := APPROVAL], 0, 0, 0, Canonical, [])
  }

  const FIRST := Request(145, "CEO", "retry", NotFound, 10)
  const SECOND := Request(146, "CEO", "retry", NotFound, 20)

  function Between(): Database {
    Committed(Before(), 145, FIRST.reason, FIRST.now)
  }

  // The process of task 146 appends its line before the process of task 145 does.
  function Racing(): seq<Deed> {
    [Commit(FIRST), Commit(SECOND)] + [Append(Issued(Between(), SECOND)), Append(Issued(Before(), FIRST))]
  }

  lemma BeforeIsConsistent()
    ensures Sound(Before()) && Consistent(Before(), [])
  {
    hide PolicyFor;
  }

  // A task that is exhausted, with its process gone and no record of its own.
  predicate Ready(db: Database, id: int) {
    && PolicyFor(id).Some? && id in db.tasks && id in db.executions
    && db.tasks[id] == BlockedTask(id) && db.executions[id] == EXHAUSTED
    && (forall k <- db.records.Keys :: db.records[k].body.task != id)
    && db.recordSeq + 1 !in db.anchors && db.approvals == map[1 := APPROVAL]
    && forall k <- db.anchors.Keys :: db.anchors[k].body.auditId != db.auditSeq + 1
                                      && db.anchors[k].body.eventId != db.eventSeq + 1
  }

  lemma ApprovedWhenReady(db: Database)
    requires db.approvals == map[1 := APPROVAL]
    ensures Approved145(db)
  {
    assert 1 in db.approvals.Keys;
  }

  lemma ReadyCommits(n: Net, r: Request)
    requires Orderly(n) && Ready(n.db, r.id) && r.actor == "CEO" && r.reason != "" && r.probe.NotFound?
    ensures Commits(World(n.db, n.ledger), r)
  {
    hide Intact, Orderly, Approved145, PolicyFor;
    GuardPasses(n, r.id);
    ApprovedWhenReady(n.db);
  }

  lemma FirstReady()
    ensures Ready(Before(), 145) && Governed(Before(), 145)
  {
  }

  // What the first commit leaves for the second one.
  predicate After(db: Database, n: Database) {
    && n.tasks.Keys == db.tasks.Keys && n.executions.Keys == db.executions.Keys && n.approvals == db.approvals
    && n.records.Keys == {1} && n.records[1].body.task == 145 && n.anchors.Keys == {1}
    && n.anchors[1].body.auditId == 1 && n.anchors[1].body.eventId == 1
    && n.recordSeq == 1 && n.auditSeq == 1 && n.eventSeq == 1
    && (146 in db.tasks && 146 in db.executions ==>
          n.tasks[146] == db.tasks[146] && n.executions[146] == db.executions[146])
  }

  lemma CommitLeaves(db: Database)
    requires Governed(db, 145) && db.records == map[] && db.anchors == map[]
    requires db.recordSeq == 0 && db.auditSeq == 0 && db.eventSeq == 0
    ensures After(db, Committed(db, 145, FIRST.reason, FIRST.now))
  {
    hide RequeuedTask, RequeuedExecution, AuditFor, EventFor, Shown;
    IssuedIsHeld(db, FIRST);
  }

  lemma BeforeRows()
    ensures Governed(Before(), 145) && Before().records == map[] && Before().anchors == map[]
    ensures Before().recordSeq == 0 && Before().auditSeq == 0 && Before().eventSeq == 0
    ensures 146 in Before().tasks && 146 in Before().executions && Before().approvals == map[1 := APPROVAL]
    ensures PolicyFor(146).Some? && Before().tasks[146] == BlockedTask(146) && Before().executions[146] == EXHAUSTED
  {
  }

  lemma ReadyAfter(db: Database, n: Database)
    requires After(db, n) && 146 in db.tasks && 146 in db.executions && db.approvals == map[1 := APPROVAL]
    requires PolicyFor(146).Some? && db.tasks[146] == BlockedTask(146) && db.executions[146] == EXHAUSTED
    ensures Ready(n, 146) && Governed(n, 146)
  {
    hide BlockedTask;
  }

  lemma SecondReady()
    ensures Governed(Before(), 145) && Ready(Between(), 146) && Governed(Between(), 146)
    ensures Issued(Before(), FIRST).recordId == 1 && Issued(Between(), SECOND).recordId == 2
  {
    hide Committed, Before, BlockedTask, Ready, Held, PolicyFor, Issued;
    BeforeRows();
    CommitLeaves(Before());
    ReadyAfter(Before(), Between());
    IssuedIsHeld(Before(), FIRST);
    IssuedIsHeld(Between(), SECOND);
  }

  // Both requeues commit, and both lines are appended.
  lemma Raced()
    ensures var start := Net(Before(), [], {}, {});
            && Orderly(start) && Governed(Before(), 145) && Governed(Between(), 146)
            && Run(start, Racing()[..2]).tickets == {Issued(Before(), FIRST), Issued(Between(), SECOND)}
            && Run(start, Racing()[..2]).ledger == [] && Run(start, Racing()[..2]).dead == {}
            && Orderly(Run(start, Racing()[..2]))
  {
    hide Orderly, Commits, Ready, Before, PolicyFor, Committed, Issued;
    var start := Net(Before(), [], {}, {});
    BeforeIsConsistent();
    StartIsOrderly(Before(), []);
    FirstReady();
    SecondReady();
    ReadyCommits(start, FIRST);
    CommitKeeps(start, FIRST);
    var middle := Do(start, Commit(FIRST));
    ReadyCommits(middle, SECOND);
    CommitKeeps(middle, SECOND);
    RunTwice(start, Commit(FIRST), Commit(SECOND));
    assert Racing()[..2] == [Commit(FIRST), Commit(SECOND)];
    assert {} + {Issued(Before(), FIRST)} + {Issued(Between(), SECOND)}
           == {Issued(Before(), FIRST), Issued(Between(), SECOND)};
  }

  lemma {:induction false} RunThen(n: Net, deeds: seq<Deed>, d: Deed)
    ensures Run(n, deeds + [d]) == Do(Run(n, deeds), d)
    decreases |deeds|
  {
    hide Do;
    if deeds == [] {
      assert [] + [d] == [d];
    } else {
      assert (deeds + [d])[1..] == deeds[1..] + [d];
      RunThen(Do(n, deeds[0]), deeds[1..], d);
    }
  }

  // Both lines are written, the later record first.
  lemma Reversed()
    ensures var n := Run(Net(Before(), [], {}, {}), Racing());
            Orderly(n) && n.tickets == {} && n.dead == {} && RecordIds(n.ledger) == [2, 1]
  {
    hide Run, Orderly, Before, PolicyFor, Committed, Issued, Do, Ready, Held, RecordIds;
    Raced();
    SecondReady();
    var start, first, second := Net(Before(), [], {}, {}), Issued(Before(), FIRST), Issued(Between(), SECOND);
    var committed, deeds := Run(start, Racing()[..2]), Racing();
    assert deeds[..3] == deeds[..2] + [Append(second)] && deeds == deeds[..3] + [Append(first)];
    RunThen(start, deeds[..2], Append(second));
    RunThen(start, deeds[..3], Append(first));
    Appended(committed, second, first);
    Appended(Do(committed, Append(second)), first, second);
    NoIds();
  }

  lemma NoIds()
    ensures RecordIds([]) == []
  {
  }

  lemma Appended(n: Net, t: Ticket, other: Ticket)
    requires Orderly(n) && t in n.tickets && t != other && n.tickets <= {t, other}
    ensures var m := Do(n, Append(t));
            && Orderly(m) && m.tickets == n.tickets - {t} && m.dead == n.dead
            && RecordIds(m.ledger) == RecordIds(n.ledger) + [t.recordId]
  {
    hide Sound, Corresponding, AllHeld, Filed, Placed, RecordIds;
    AppendKeeps(n, t);
  }

  /**
   Two requeues of different tasks both commit and both append their lines, with no failure
   and no crash, but the later commit appends first. Nothing is under way any more and every
   anchor has its line, yet the mismatch is reported from then on, whatever happens.
   */
  lemma LateAppendDisagrees(after: seq<Deed>)
    ensures var n := Run(Net(Before(), [], {}, {}), Racing());
            && Sound(Before()) && Consistent(Before(), [])
            && n.tickets == {} && n.dead == {} && RecordIds(n.ledger) == [2, 1]
            && Reported(Run(n, after).db, Run(n, after).ledger, LedgerMismatch)
  {
    hide Run, Orderly, Before, Racing, Consistent, Sound, Reported, RecordIds;
    BeforeIsConsistent();
    Reversed();
    var n := Run(Net(Before(), [], {}, {}), Racing());
    assert !Untroubled(n) by {
      assert RecordIds(n.ledger)[0] == 2 && RecordIds(n.ledger)[1] == 1;
    }
    hide Untroubled;
    RunKeeps(n, after);
    TroubleIsReported(Run(n, after));
  }
}
