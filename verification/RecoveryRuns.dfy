/**
 Runs of the recovery stores: any number of processes commit requeues, append their ledger
 lines, compensate them or die in between, and work on the tasks, in any order.
 */
module RecoveryRuns {
  import opened TaskTables
  import TaskProtocol
  import opened RecoveryTables
  import opened RecoveryLedger
  import opened RecoveryConflicts
  import opened RecoveryRequeue
  import opened RecoveryStore

  // What a process keeps of its requeue between the commit and the append.
  datatype Ticket = Ticket(task: int, recordId: int, auditId: int, eventId: int, anchor: Anchor,
                           previousTask: Task, previousExecution: Execution)

  // Both stores, the requeues under way, and the records of those whose process died.
  datatype Net = Net(db: Database, ledger: seq<Line>, tickets: set<Ticket>, dead: set<int>)

  /**
   An ordinary call finds any pilot tables, and writes any number of other audit rows and
   events and any approvals on the way; of the recovery stores it moves the sequences only.
   */
  datatype Deed =
    | Operate(call: TaskProtocol.Call, pilot: TaskProtocol.State, audits: nat, events: nat,
              approvals: map<int, Approval>)
    | Commit(request: Request)
    | Append(ticket: Ticket)
    | Compensate(ticket: Ticket)
    | Die(ticket: Ticket)

  predicate Ordinary(op: TaskProtocol.Op) {
    !op.Requeue? && !op.Publish? && !op.Compensate?
  }

  function Operated(db: Database, d: Deed): Database
    requires d.Operate?
  {
    var s := d.pilot.(tasks := db.tasks, executions := db.executions);
    var n := if Ordinary(d.call.op) then TaskProtocol.Step(s, d.call) else s;
    db.(tasks := n.tasks, executions := n.executions, approvals := d.approvals,
        auditSeq := db.auditSeq + d.audits, eventSeq := db.eventSeq + d.events)
  }

  // The ticket of a requeue that commits in this database.
  function Issued(db: Database, r: Request): Ticket
    requires Governed(db, r.id)
  {
    var n := Committed(db, r.id, r.reason, r.now);
    Ticket(r.id, n.recordSeq, n.auditSeq, n.eventSeq, n.anchors[n.recordSeq], db.tasks[r.id], db.executions[r.id])
  }

  function Undone(db: Database, t: Ticket): Database
    requires t.task in db.tasks && t.task in db.executions
  {
    Uncommitted(db, t.task, t.recordId, t.auditId, t.eventId, t.previousTask, t.previousExecution)
  }

  ghost function Do(n: Net, d: Deed): Net {
    match d
    case Operate(_, _, _, _, _) => n.(db := Operated(n.db, d))
    case Commit(r) =>
      if !Commits(World(n.db, n.ledger), r) then n
      else n.(db := Committed(n.db, r.id, r.reason, r.now), tickets := n.tickets + {Issued(n.db, r)})
    case Append(t) =>
      if t !in n.tickets || !Chained(n.ledger) then n
      else n.(ledger := n.ledger + [Sealed(n.ledger, AnchorValues(t.anchor))], tickets := n.tickets - {t})
    case Compensate(t) =>
      if t !in n.tickets || t.task !in n.db.tasks || t.task !in n.db.executions then n
      else n.(db := Undone(n.db, t), tickets := n.tickets - {t})
    case Die(t) =>
      if t !in n.tickets then n else n.(tickets := n.tickets - {t}, dead := n.dead + {t.recordId})
  }

  ghost function Run(n: Net, deeds: seq<Deed>): Net
    decreases |deeds|
  {
    if deeds == [] then n else Run(Do(n, deeds[0]), deeds[1..])
  }

  // The record ids of the ledger, line by line.
  function RecordIds(file: seq<Line>): (ids: seq<int>)
    ensures |ids| == |file| && forall k :: 0 <= k < |file| ==> ids[k] == IdOf(file[k])
  {
    seq(|file|, k requires 0 <= k < |file| => IdOf(file[k]))
  }

  function IdOf(line: Line): int {
    match ValueOf(line)
    case AnchorValues(a) => a.body.recordId
    case OtherValues(_) => -1
  }

  function WaitingIds(tickets: set<Ticket>): set<int> {
    set t | t in tickets :: t.recordId
  }

  // --- The invariant ---------------------------------------------------------------------------------

  // The ticket names the rows of its record.
  predicate Held(db: Database, t: Ticket) {
    && t.recordId in db.anchors && db.anchors[t.recordId] == t.anchor && t.recordId in db.records
    && db.records[t.recordId].body.task == t.task
    && Ref(db.records[t.recordId].body.auditId) == t.auditId && Ref(db.records[t.recordId].body.eventId) == t.eventId
  }

  ghost predicate AllHeld(n: Net) {
    (forall t <- n.tickets :: Held(n.db, t))
    && forall t, u :: t in n.tickets && u in n.tickets && t.recordId == u.recordId ==> t == u
  }

  // Every line of the ledger holds an anchor of the database, no two the same.
  ghost predicate Filed(n: Net) {
    && (forall k :: 0 <= k < |n.ledger| ==>
          ValueOf(n.ledger[k]).AnchorValues? && Holds(n.db.anchors, ValueOf(n.ledger[k]).anchor))
    && forall j, k :: 0 <= j < k < |n.ledger| ==> IdOf(n.ledger[j]) != IdOf(n.ledger[k])
  }

  // Every anchor is in the ledger, waits for its line, or has lost its process.
  ghost predicate Placed(n: Net) {
    && (forall id :: id in n.db.anchors <==> id in RecordIds(n.ledger) || id in WaitingIds(n.tickets) || id in n.dead)
    && (forall id <- WaitingIds(n.tickets) :: id !in RecordIds(n.ledger) && id !in n.dead)
    && (forall id <- n.dead :: id !in RecordIds(n.ledger))
  }

  ghost predicate Orderly(n: Net) {
    Sound(n.db) && Corresponding(n.db) && Chained(n.ledger) && AllHeld(n) && Filed(n) && Placed(n)
  }

  // --- Ordinary calls ---------------------------------------------------------------------------------

  // No call of the protocol deletes a row, or changes the columns a record signs as identity.
  lemma IdentityKept(s: TaskProtocol.State, c: TaskProtocol.Call, id: int)
    ensures var n := TaskProtocol.Step(s, c);
            && (id in s.tasks ==> id in n.tasks && SameIdentity(s.tasks[id], n.tasks[id]))
            && (id in s.executions ==> id in n.executions)
  {
    TaskProtocol.StepRows(s, c, id);
    hide TaskProtocol.Admits, TaskProtocol.PilotAdmits, TaskProtocol.NextRows, TaskProtocol.PilotUpdate;
    if TaskProtocol.Accepts(s, c.id, c.op, c.now) && c.id == id && !c.op.Decide? && id in s.tasks {
      RowsKeepIdentity(id, TaskProtocol.RowsOf(s, id), c.op, c.now);
    }
    if TaskProtocol.Accepts(s, c.id, c.op, c.now) && c.id == id && !c.op.Decide? {
      TaskProtocol.RowsPersist(id, TaskProtocol.RowsOf(s, id), c.op, c.now);
    }
  }

  lemma RowsKeepIdentity(id: int, r: TaskProtocol.Rows, op: TaskProtocol.Op, now: int)
    requires TaskProtocol.Admits(id, r, op, now) && r.task.Some?
    ensures var n := TaskProtocol.NextRows(id, r, op, now);
            n.task.Some? && SameIdentity(r.task.value, n.task.value)
  {
    hide PolicyFor, TaskProtocol.AttemptsExhausted, TaskProtocol.Claimed, TaskProtocol.Leased, TaskProtocol.HeldBy;
  }

  lemma OperatedIdentity(db: Database, d: Deed, id: int)
    requires d.Operate?
    ensures var n := Operated(db, d);
            && (id in db.tasks ==> id in n.tasks && SameIdentity(db.tasks[id], n.tasks[id]))
            && (id in db.executions ==> id in n.executions)
  {
    hide TaskProtocol.Step;
    IdentityKept(d.pilot.(tasks := db.tasks, executions := db.executions), d.call, id);
  }

  lemma OperateKeeps(n: Net, d: Deed)
    requires Orderly(n) && d.Operate?
    ensures Orderly(Do(n, d))
  {
    hide TaskProtocol.Step, SameIdentity, Sound, Corresponding, Chained;
    var db, after := n.db, Operated(n.db, d);
    forall id | id in db.tasks.Keys ensures id in after.tasks.Keys && SameIdentity(db.tasks[id], after.tasks[id]) {
      OperatedIdentity(db, d, id);
    }
    forall id | id in db.executions.Keys ensures id in after.executions.Keys {
      OperatedIdentity(db, d, id);
    }
    SameRowsCorrespond(db, after);
  }

  // --- The halves of a requeue ---------------------------------------------------------------------

  lemma IssuedIsHeld(db: Database, r: Request)
    requires Governed(db, r.id)
    ensures Held(Committed(db, r.id, r.reason, r.now), Issued(db, r)) && Issued(db, r).recordId == db.recordSeq + 1
  {
    hide PolicyFor;
  }

  lemma FreshRecord(db: Database)
    requires Sound(db) && Corresponding(db)
    ensures db.recordSeq + 1 !in db.anchors && db.recordSeq + 1 !in db.records
  {
    hide Check, AuditsOneToOne, EventsOneToOne;
  }

  lemma CommitKeeps(n: Net, r: Request)
    requires Orderly(n) && Commits(World(n.db, n.ledger), r)
    ensures Orderly(Do(n, Commit(r)))
  {
    hide Commits, Sound, Corresponding, Chained, Ref, PolicyFor;
    CommitsKnows(World(n.db, n.ledger), r);
    var after := Committed(n.db, r.id, r.reason, r.now);
    CommitCorresponds(n.db, r.id, r.reason, r.now, after);
    CommitShape(n.db, r.id, r.reason, r.now, after);
    FreshRecord(n.db);
    IssuedIsHeld(n.db, r);
    CommitPlaces(n, r, after);
  }

  lemma CommitPlaces(n: Net, r: Request, after: Database)
    requires AllHeld(n) && Filed(n) && Placed(n) && Governed(n.db, r.id)
    requires var id := n.db.recordSeq + 1;
             && id !in n.db.anchors && id !in n.db.records && id in after.anchors
             && after.anchors == n.db.anchors[id := after.anchors[id]]
             && (forall k <- n.db.records.Keys :: k in after.records.Keys && after.records[k] == n.db.records[k])
             && Held(after, Issued(n.db, r)) && Issued(n.db, r).recordId == id
    ensures var m := n.(db := after, tickets := n.tickets + {Issued(n.db, r)});
            AllHeld(m) && Filed(m) && Placed(m)
  {
    hide Ref, Issued, AllHeld, Filed, Placed, Held;
    CommitHolds(n, Issued(n.db, r), after);
    CommitFiles(n, Issued(n.db, r), after);
  }

  lemma CommitHolds(n: Net, t: Ticket, after: Database)
    requires AllHeld(n) && t.recordId !in n.db.anchors && t.recordId in after.anchors
    requires after.anchors == n.db.anchors[t.recordId := after.anchors[t.recordId]] && Held(after, t)
    requires forall k <- n.db.records.Keys :: k in after.records.Keys && after.records[k] == n.db.records[k]
    ensures AllHeld(n.(db := after, tickets := n.tickets + {t}))
  {
    hide Ref;
    forall u | u in n.tickets ensures Held(after, u) && u.recordId != t.recordId {
      assert Held(n.db, u);
    }
  }

  lemma CommitFiles(n: Net, t: Ticket, after: Database)
    requires Filed(n) && Placed(n) && t.recordId !in n.db.anchors && t.recordId in after.anchors
    requires after.anchors == n.db.anchors[t.recordId := after.anchors[t.recordId]]
    ensures Filed(n.(db := after, tickets := n.tickets + {t})) && Placed(n.(db := after, tickets := n.tickets + {t}))
  {
    hide IdOf;
    assert WaitingIds(n.tickets + {t}) == WaitingIds(n.tickets) + {t.recordId};
    forall k | 0 <= k < |n.ledger| ensures Holds(after.anchors, ValueOf(n.ledger[k]).anchor) {
      assert Holds(n.db.anchors, ValueOf(n.ledger[k]).anchor);
    }
    assert t.recordId !in RecordIds(n.ledger) && t.recordId !in n.dead;
  }

  lemma AppendKeeps(n: Net, t: Ticket)
    requires Orderly(n) && t in n.tickets
    ensures Orderly(Do(n, Append(t)))
    ensures RecordIds(Do(n, Append(t)).ledger) == RecordIds(n.ledger) + [t.recordId]
  {
    hide Keyed, Sequenced, Corresponding, Chained, Ref;
    AppendChains(n.ledger, AnchorValues(t.anchor));
    AppendPlaces(n, t);
  }

  lemma AppendPlaces(n: Net, t: Ticket)
    requires AllHeld(n) && Filed(n) && Placed(n) && Keyed(n.db) && t in n.tickets
    ensures var m := n.(ledger := n.ledger + [Sealed(n.ledger, AnchorValues(t.anchor))], tickets := n.tickets - {t});
            && AllHeld(m) && Filed(m) && Placed(m)
            && RecordIds(m.ledger) == RecordIds(n.ledger) + [t.recordId]
  {
    hide Ref, Head;
    var line := Sealed(n.ledger, AnchorValues(t.anchor));
    var m := n.(ledger := n.ledger + [line], tickets := n.tickets - {t});
    assert Held(n.db, t);
    assert IdOf(line) == t.recordId && ValueOf(line) == AnchorValues(t.anchor);
    assert RecordIds(m.ledger) == RecordIds(n.ledger) + [t.recordId];
    WithoutTicket(n, t);
    assert t.recordId in WaitingIds(n.tickets);
    forall j | 0 <= j < |n.ledger| ensures IdOf(n.ledger[j]) != t.recordId {
      assert RecordIds(n.ledger)[j] == IdOf(n.ledger[j]);
    }
  }

  lemma WithoutTicket(n: Net, t: Ticket)
    requires AllHeld(n) && t in n.tickets
    ensures WaitingIds(n.tickets - {t}) == WaitingIds(n.tickets) - {t.recordId}
  {
    hide Held;
    forall id | id in WaitingIds(n.tickets) - {t.recordId} ensures id in WaitingIds(n.tickets - {t}) {
      var u :| u in n.tickets && u.recordId == id;
      assert u in n.tickets - {t};
    }
  }

  lemma DieKeeps(n: Net, t: Ticket)
    requires Orderly(n) && t in n.tickets
    ensures Orderly(Do(n, Die(t)))
  {
    hide Sound, Corresponding, Chained, Held, Holds, IdOf;
    WithoutTicket(n, t);
    assert t.recordId in WaitingIds(n.tickets);
  }

  // --- Compensation while others are under way -------------------------------------------------------

  // The rows of all other records stay.
  lemma UndoneMatches(db: Database, t: Ticket, k: int)
    requires AuditsOneToOne(db) && EventsOneToOne(db) && Held(db, t) && t.task in db.tasks && t.task in db.executions
    requires k in db.records && k != t.recordId
    ensures AuditMatches(Undone(db, t), db.records[k]) && EventMatches(Undone(db, t), db.records[k])
  {
    assert AuditMatches(db, db.records[k]) && EventMatches(db, db.records[k]);
    hide AuditReferenced, EventReferenced, Ref, RestoredTask, RestoredExecution;
  }

  lemma UndoneReferences(db: Database, t: Ticket)
    requires AuditsOneToOne(db) && EventsOneToOne(db) && Held(db, t) && t.task in db.tasks && t.task in db.executions
    ensures AuditsOneToOne(Undone(db, t)) && EventsOneToOne(Undone(db, t))
  {
    hide Ref, RestoredTask, RestoredExecution, AuditMatches, EventMatches;
    var n := Undone(db, t);
    forall k | k in n.records.Keys ensures AuditMatches(n, n.records[k]) && EventMatches(n, n.records[k]) {
      UndoneMatches(db, t, k);
    }
    forall a | a in n.audits.Keys ensures AuditReferenced(n, a) {
      assert AuditReferenced(db, a);
      var k :| k in db.records.Keys && Ref(db.records[k].body.auditId) == a;
      assert k in n.records.Keys;
    }
    forall e | e in n.events.Keys ensures EventReferenced(n, e) {
      assert EventReferenced(db, e);
      var k :| k in db.records.Keys && Ref(db.records[k].body.eventId) == e;
      assert k in n.records.Keys;
    }
  }

  // A record's checks read its own rows and the identity of its task.
  lemma UndoneChecks(db: Database, t: Ticket, k: int)
    requires Corresponding(db) && Held(db, t) && t.task in db.tasks && t.task in db.executions
    requires k in db.records && k != t.recordId
    ensures Check(Undone(db, t), db.records[k]) == Valid
  {
    hide AuditMatches, EventMatches, AnchorsOneToOne, AuditsOneToOne, EventsOneToOne, Ref, PolicyFor, Check, Held;
    assert Check(db, db.records[k]) == Valid;
    KnownTask(db, db.records[k]);
    UndoneMatches(db, t, k);
    CheckCarries(db, Undone(db, t), db.records[k]);
  }

  lemma UndoneAnchors(db: Database, t: Ticket)
    requires Keyed(db) && AnchorsOneToOne(db) && Held(db, t) && t.task in db.tasks && t.task in db.executions
    ensures AnchorsOneToOne(Undone(db, t))
  {
    hide Ref, RestoredTask, RestoredExecution;
    var n := Undone(db, t);
    forall k | k in n.anchors.Keys ensures AnchorValid(n, n.anchors[k]) {
      assert AnchorValid(db, db.anchors[k]);
    }
  }

  lemma UndoneCorresponds(db: Database, t: Ticket)
    requires Sound(db) && Corresponding(db) && Held(db, t) && t.task in db.tasks && t.task in db.executions
    ensures Sound(Undone(db, t)) && Corresponding(Undone(db, t))
  {
    hide Check, Held, AnchorsOneToOne, AuditsOneToOne, EventsOneToOne, RestoredTask, RestoredExecution;
    var n := Undone(db, t);
    UndoneReferences(db, t);
    UndoneAnchors(db, t);
    forall k | k in n.records.Keys ensures Check(n, n.records[k]) == Valid {
      UndoneChecks(db, t, k);
    }
  }

  lemma CompensateKeeps(n: Net, t: Ticket)
    requires Orderly(n) && t in n.tickets
    ensures t.task in n.db.tasks && t.task in n.db.executions
    ensures Orderly(Do(n, Compensate(t)))
  {
    TicketTask(n.db, t);
    UndoneCorresponds(n.db, t);
    hide Sound, Corresponding, Chained, Ref;
    UndonePlaces(n, t);
  }

  lemma TicketTask(db: Database, t: Ticket)
    requires Corresponding(db) && Held(db, t)
    ensures t.task in db.tasks && t.task in db.executions
  {
    KnownTask(db, db.records[t.recordId]);
    hide Check, AnchorsOneToOne, AuditsOneToOne, EventsOneToOne, Ref;
  }

  lemma UndonePlaces(n: Net, t: Ticket)
    requires AllHeld(n) && Filed(n) && Placed(n) && t in n.tickets && t.task in n.db.tasks && t.task in n.db.executions
    ensures var m := n.(db := Undone(n.db, t), tickets := n.tickets - {t});
            AllHeld(m) && Filed(m) && Placed(m)
  {
    hide Ref, RestoredTask, RestoredExecution;
    var m := n.(db := Undone(n.db, t), tickets := n.tickets - {t});
    WithoutTicket(n, t);
    assert t.recordId in WaitingIds(n.tickets);
    forall u | u in m.tickets ensures Held(m.db, u) {
      assert Held(n.db, u);
    }
    forall k | 0 <= k < |n.ledger| ensures Holds(m.db.anchors, ValueOf(n.ledger[k]).anchor) {
      assert Holds(n.db.anchors, ValueOf(n.ledger[k]).anchor);
      assert RecordIds(n.ledger)[k] == IdOf(n.ledger[k]);
    }
  }

  // --- Runs ---------------------------------------------------------------------------------------------

  lemma DeedKeeps(n: Net, d: Deed)
    requires Orderly(n)
    ensures Orderly(Do(n, d))
  {
    hide Orderly, Operated, Commits, Committed, Undone;
    match d
    case Operate(_, _, _, _, _) => OperateKeeps(n, d);
    case Commit(r) =>
      if Commits(World(n.db, n.ledger), r) {
        CommitKeeps(n, r);
      }
    case Append(t) =>
      if t in n.tickets {
        AppendKeeps(n, t);
      }
    case Compensate(t) =>
      if t in n.tickets {
        CompensateKeeps(n, t);
      }
    case Die(t) =>
      if t in n.tickets {
        DieKeeps(n, t);
      }
  }

  predicate Rising(ids: seq<int>) {
    forall j, k :: 0 <= j < k < |ids| ==> ids[j] < ids[k]
  }

  // The line of the ticket comes after the lines of all older records.
  predicate InTurn(n: Net, d: Deed) {
    d.Append? && d.ticket in n.tickets ==> forall id <- RecordIds(n.ledger) :: id < d.ticket.recordId
  }

  predicate Dies(n: Net, d: Deed) {
    d.Die? && d.ticket in n.tickets
  }

  // Every line is appended in turn, and no process dies between its commit and its append.
  ghost predicate Clean(n: Net, deeds: seq<Deed>)
    decreases |deeds|
  {
    deeds == [] || (InTurn(n, deeds[0]) && !Dies(n, deeds[0]) && Clean(Do(n, deeds[0]), deeds[1..]))
  }

  ghost predicate Untroubled(n: Net) {
    Rising(RecordIds(n.ledger)) && n.dead == {}
  }

  lemma RisingAppend(ids: seq<int>, id: int)
    ensures Rising(ids + [id]) <==> Rising(ids) && forall k <- ids :: k < id
  {
    var longer := ids + [id];
    assert longer[|ids|] == id && forall k :: 0 <= k < |ids| ==> longer[k] == ids[k];
    if Rising(longer) {
      forall k | k in ids ensures k < id {
        var j :| 0 <= j < |ids| && ids[j] == k;
        assert longer[j] < longer[|ids|];
      }
      assert forall j, k :: 0 <= j < k < |ids| ==> longer[j] < longer[k];
    }
    if Rising(ids) && forall k <- ids :: k < id {
      forall j, k | 0 <= j < k < |longer| ensures longer[j] < longer[k] {
        assert ids[j] in ids;
      }
    }
  }

  lemma TroubleStep(n: Net, d: Deed)
    requires Orderly(n)
    ensures Untroubled(Do(n, d)) <==> Untroubled(n) && InTurn(n, d) && !Dies(n, d)
  {
    hide Commits, Committed, Operated, Undone, Rising, RecordIds;
    if d.Append? && d.ticket in n.tickets {
      AppendKeeps(n, d.ticket);
      RisingAppend(RecordIds(n.ledger), d.ticket.recordId);
    }
  }

  lemma {:induction false} RunKeeps(n: Net, deeds: seq<Deed>)
    requires Orderly(n)
    ensures Orderly(Run(n, deeds))
    ensures Untroubled(Run(n, deeds)) <==> Untroubled(n) && Clean(n, deeds)
    decreases |deeds|
  {
    hide Orderly, Untroubled, Do, InTurn, Dies;
    if deeds == [] {
    } else {
      DeedKeeps(n, deeds[0]);
      TroubleStep(n, deeds[0]);
      RunKeeps(Do(n, deeds[0]), deeds[1..]);
    }
  }

  // The ledger lists the anchors exactly when every anchor has its line, in record order.
  lemma ListedExactly(n: Net)
    requires Orderly(n)
    ensures Lists(ValuesOf(n.ledger), n.db.anchors) <==> Untroubled(n) && n.tickets == {}
  {
    hide Corresponding, Chained, Held, Sequenced;
    var values, ids := ValuesOf(n.ledger), RecordIds(n.ledger);
    if Lists(values, n.db.anchors) {
      forall id | id in n.db.anchors.Keys ensures id in ids {
        var k :| 0 <= k < |values| && values[k] == AnchorValues(n.db.anchors[id]);
        assert ids[k] == id;
      }
      forall j, k | 0 <= j < k < |ids| ensures ids[j] < ids[k] {
        assert ids[j] == values[j].anchor.body.recordId && ids[k] == values[k].anchor.body.recordId;
      }
      assert forall id <- n.dead :: id in n.db.anchors.Keys;
      assert forall t <- n.tickets :: t.recordId in WaitingIds(n.tickets) && t.recordId in n.db.anchors.Keys;
    }
    if Untroubled(n) && n.tickets == {} {
      forall k | 0 <= k < |values| ensures values[k].AnchorValues? && Holds(n.db.anchors, values[k].anchor) {
        assert values[k] == ValueOf(n.ledger[k]);
      }
      forall j, k | 0 <= j < k < |values| ensures values[j].anchor.body.recordId < values[k].anchor.body.recordId {
        assert ids[j] < ids[k];
      }
      forall id | id in n.db.anchors.Keys ensures AnchorValues(n.db.anchors[id]) in values {
        assert WaitingIds(n.tickets) == {};
        var k :| 0 <= k < |ids| && ids[k] == id;
        assert Holds(n.db.anchors, ValueOf(n.ledger[k]).anchor);
        assert values[k] == AnchorValues(n.db.anchors[id]);
      }
      assert Lists(values, n.db.anchors);
    }
  }

  lemma StartIsOrderly(db: Database, file: seq<Line>)
    requires Sound(db) && Consistent(db, file)
    ensures Orderly(Net(db, file, {}, {})) && Untroubled(Net(db, file, {}, {}))
  {
    hide Corresponding, Chained, Sequenced;
    var values, ids := ValuesOf(file), RecordIds(file);
    forall k | 0 <= k < |file| ensures Holds(db.anchors, ValueOf(file[k]).anchor) && ids[k] in db.anchors {
      assert Holds(db.anchors, values[k].anchor);
    }
    forall id | id in db.anchors.Keys ensures id in ids {
      var k :| 0 <= k < |values| && values[k] == AnchorValues(db.anchors[id]);
      assert ids[k] == id;
    }
    assert WaitingIds({}) == {};
  }

  /**
   From a conflict-free state, after any run of any number of processes, no conflict is
   reported if and only if no requeue is under way, every ledger line was appended in the
   order of the commits, and no process died between its commit and its append. Whatever
   happens, the four tables correspond one to one.
   */
  lemma ConflictFreeExactly(db: Database, file: seq<Line>, deeds: seq<Deed>)
    requires Sound(db) && Consistent(db, file)
    ensures var start := Net(db, file, {}, {});
            var n := Run(start, deeds);
            && Corresponding(n.db)
            && (Consistent(n.db, n.ledger) <==> n.tickets == {} && Clean(start, deeds))
  {
    hide Run, Clean, Untroubled, Sound, Corresponding, Lists, AllHeld, Filed, Placed;
    var start := Net(db, file, {}, {});
    StartIsOrderly(db, file);
    RunKeeps(start, deeds);
    ListedExactly(Run(start, deeds));
  }

  // Once a line is out of turn or a process has died, the mismatch is reported ever after.
  lemma MismatchForever(db: Database, file: seq<Line>, deeds: seq<Deed>, after: seq<Deed>)
    requires Sound(db) && Consistent(db, file) && !Clean(Net(db, file, {}, {}), deeds)
    ensures var n := Run(Run(Net(db, file, {}, {}), deeds), after);
            Reported(n.db, n.ledger, LedgerMismatch)
  {
    hide Run, Clean, Untroubled, Sound, Orderly, Consistent, Reported;
    var start := Net(db, file, {}, {});
    StartIsOrderly(db, file);
    RunKeeps(start, deeds);
    RunKeeps(Run(start, deeds), after);
    TroubleIsReported(Run(Run(start, deeds), after));
  }

  lemma TroubleIsReported(n: Net)
    requires Orderly(n) && !Untroubled(n)
    ensures Reported(n.db, n.ledger, LedgerMismatch)
  {
    hide Untroubled, Sound, Lists, AnchorsOneToOne, AuditsOneToOne, EventsOneToOne, Check, AllHeld, Filed, Placed;
    ListedExactly(n);
  }

  // The guard of the next requeue passes in all these states, also while lines are missing.
  lemma GuardPasses(n: Net, task: int)
    requires Orderly(n)
    ensures Intact(n.db, n.ledger, task)
  {
    hide AllHeld, Filed, Placed;
    forall c | Blocks(c, task) ensures !Reported(n.db, n.ledger, c) {
      NothingBlocks(n.db, n.ledger, c, task);
    }
  }

  lemma NothingBlocks(db: Database, file: seq<Line>, c: Conflict, task: int)
    requires Keyed(db) && Corresponding(db) && Blocks(c, task)
    ensures !Reported(db, file, c)
  {
  }

  // An uninterrupted requeue is a commit followed by its append, or by its compensation.
  lemma RequeueIsRun(n: Net, r: Request, appendFails: bool)
    requires Orderly(n) && Commits(World(n.db, n.ledger), r)
    ensures Governed(n.db, r.id)
    ensures var t := Issued(n.db, r);
            var m := Run(n, [Commit(r), if appendFails then Compensate(t) else Append(t)]);
            World(m.db, m.ledger) == Requeueing(World(n.db, n.ledger), r, appendFails)
  {
    hide Commits, Committed, Uncommitted, Chained, PolicyFor, Sealed, Run, Orderly;
    CommitsKnows(World(n.db, n.ledger), r);
    CommitKeeps(n, r);
    var t, m := Issued(n.db, r), Do(n, Commit(r));
    assert t in m.tickets;
    RunTwice(n, Commit(r), if appendFails then Compensate(t) else Append(t));
    OrderlyKnows(n);
    if appendFails {
      CompensateKeeps(m, t);
      CompensationRestores(n.db, r.id, r.reason, r.now, m.db, Undone(m.db, t));
    }
  }

  lemma OrderlyKnows(n: Net)
    requires Orderly(n)
    ensures Sound(n.db) && Chained(n.ledger)
  {
  }

  lemma RunTwice(n: Net, a: Deed, b: Deed)
    ensures Run(n, [a, b]) == Do(Do(n, a), b)
  {
    hide Do;
    assert [a, b][1..] == [b];
    assert Run(Do(n, a), [b]) == Run(Do(Do(n, a), b), []);
  }

  // An unreadable ledger stays as it is, and no requeue recovers anything again.
  lemma {:induction false} UnreadableForever(n: Net, deeds: seq<Deed>, r: Request, appendFails: bool)
    requires !Chained(n.ledger)
    ensures var m := Run(n, deeds);
            && m.ledger == n.ledger && !Recovers(World(m.db, m.ledger), r, appendFails)
            && (Commits(World(m.db, m.ledger), r) ==>
                  Requeueing(World(m.db, m.ledger), r, appendFails) == World(Advanced(m.db), m.ledger))
    decreases |deeds|
  {
    hide Commits, Committed, Operated, Chained, Undone, Issued;
    if deeds == [] {
    } else {
      assert Do(n, deeds[0]).ledger == n.ledger;
      UnreadableForever(Do(n, deeds[0]), deeds[1..], r, appendFails);
    }
  }
}
