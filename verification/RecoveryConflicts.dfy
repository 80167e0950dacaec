/**
 `recovery_conflicts`: the validator that compares recovery records, provenance anchors,
 requeue audit rows, requeue events and the external ledger.
 */
module RecoveryConflicts {
  import opened Common
  import opened Ordering
  import opened TaskTables
  import opened RecoveryTables
  import opened RecoveryLedger

  datatype Conflict =
    | SchemaConflict
    | TriggerConflict(name: string)
    | LedgerInvalid
    | LedgerMismatch
    | ProvenanceConflict(recordId: int, task: int)
    | AuditConflict(auditId: int, auditTask: Option<int>)
    | EventConflict(eventId: int, eventTask: Option<int>)
    | RecordConflict(task: int)

  // --- One record -----------------------------------------------------------------------------------

  // int(value or -1)
  function Ref(id: Option<int>): int {
    if id == None || id == Some(0) then -1 else id.value
  }

  // The checks of one record end in a verdict, or in an error that aborts the whole validation.
  datatype Verdict = Valid | Invalid | Raised

  predicate Loads(r: RecordBody) {
    !r.newExecution.Malformed? && !r.newTask.Malformed? && !r.proof.Malformed?
  }

  predicate SameIdentity(signed: Task, current: Task) {
    signed.owner == current.owner && signed.title == current.title && signed.domain == current.domain
    && signed.acceptance == current.acceptance
  }

  predicate EventMatches(db: Database, r: Record) {
    var id := Ref(r.body.eventId);
    id in db.events
    && var e := db.events[id];
       && e.payload == Payload(r) && e.entity == TaskEntity(r.body.task) && e.createdAt == r.body.at
       && e.availableAt == r.body.at && e.priority == RECOVERY_EVENT_PRIORITY
  }

  predicate AuditMatches(db: Database, r: Record) {
    var id := Ref(r.body.auditId);
    id in db.audits
    && var a := db.audits[id];
       a.details == Payload(r) && a.entity == TaskEntity(r.body.task) && a.at == r.body.at && a.actor == r.body.actor
  }

  // The conjunction is evaluated in order: a signed state that is JSON but no object raises
  // only when everything before it holds.
  function Check(db: Database, r: Record): Verdict {
    var b := r.body;
    if !Loads(b) then Invalid
    else if b.auditId.None? || b.eventId.None? then Raised
    else if r.signature != RecordSigned(b) || b.task !in db.tasks || b.task !in db.executions then Invalid
    else if b.actor != "CEO" then Invalid
    else if b.newTask.NonObject? then Raised
    else if !b.newTask.TaskText? || !SameIdentity(b.newTask.task, db.tasks[b.task]) then Invalid
    else if b.newTask.task.status != Open || b.newTask.task.result.Some? then Invalid
    else if b.newExecution.NonObject? then Raised
    else if !b.newExecution.ExecutionText? || b.newExecution.execution.status != Requeued then Invalid
    else if PolicyFor(b.task).None? || PolicyFor(b.task).value.scope != b.scope then Invalid
    else if EventMatches(db, r) && AuditMatches(db, r) then Valid else Invalid
  }

  // --- One anchor -----------------------------------------------------------------------------------

  predicate AnchorValid(db: Database, a: Anchor) {
    && a.signature == AnchorSigned(a.body) && a.body.priority == RECOVERY_EVENT_PRIORITY
    && a.body.recordId in db.records
    && var r := db.records[a.body.recordId];
       && a.body.task == r.body.task && a.body.auditId == Ref(r.body.auditId) && a.body.eventId == Ref(r.body.eventId)
       && a.body.recordSignature == r.signature
  }

  // --- What the validator reports ------------------------------------------------------------------

  // The values list the anchors in ascending order of record id.
  predicate Lists(values: seq<Values>, anchors: map<int, Anchor>) {
    && (forall k :: 0 <= k < |values| ==>
          values[k].AnchorValues? && Holds(anchors, values[k].anchor))
    && (forall j, k :: 0 <= j < k < |values| ==> values[j].anchor.body.recordId < values[k].anchor.body.recordId)
    && (forall id <- anchors.Keys :: AnchorValues(anchors[id]) in values)
  }

  predicate Holds(anchors: map<int, Anchor>, a: Anchor) {
    a.body.recordId in anchors && anchors[a.body.recordId] == a
  }

  predicate AuditReferenced(db: Database, id: int) {
    exists r <- db.records.Keys :: Ref(db.records[r].body.auditId) == id
  }

  predicate EventReferenced(db: Database, id: int) {
    exists r <- db.records.Keys :: Ref(db.records[r].body.eventId) == id
  }

  // int(entity_id) if it is all digits
  function NumberOf(e: Entity): Option<int> {
    if e.TaskEntity? && e.id >= 0 then Some(e.id) else None
  }

  ghost predicate Agrees(db: Database, file: seq<Line>) {
    Lists(if Chained(file) then ValuesOf(file) else [], db.anchors)
  }

  // The meaning of each conflict, independently of the order in which the loops find it.
  ghost predicate Reported(db: Database, file: seq<Line>, c: Conflict) {
    match c
    case SchemaConflict => db.schema != Canonical
    case TriggerConflict(name) => db.schema == Canonical && name in db.brokenTriggers
    case LedgerInvalid => db.schema == Canonical && !Chained(file)
    case LedgerMismatch => db.schema == Canonical && !Agrees(db, file)
    case ProvenanceConflict(id, task) => db.schema == Canonical && ProvenanceBroken(db, id, task)
    case AuditConflict(id, task) =>
      db.schema == Canonical && id in db.audits && !AuditReferenced(db, id) && task == NumberOf(db.audits[id].entity)
    case EventConflict(id, task) =>
      db.schema == Canonical && id in db.events && !EventReferenced(db, id) && task == NumberOf(db.events[id].entity)
    case RecordConflict(task) =>
      db.schema == Canonical
      && exists id <- db.records.Keys :: db.records[id].body.task == task && Check(db, db.records[id]) == Invalid
  }

  predicate ProvenanceBroken(db: Database, id: int, task: int) {
    || (id in db.anchors && db.anchors[id].body.task == task && !AnchorValid(db, db.anchors[id]))
    || (id in db.records && id !in db.anchors && db.records[id].body.task == task)
  }

  ghost predicate Raises(db: Database) {
    db.schema == Canonical && exists id <- db.records.Keys :: Check(db, db.records[id]) == Raised
  }

  // --- The one-to-one correspondence ------------------------------------------------------------

  predicate DistinctAudits(db: Database) {
    forall r, q :: r in db.records && q in db.records && r != q ==>
                     Ref(db.records[r].body.auditId) != Ref(db.records[q].body.auditId)
  }

  predicate DistinctEvents(db: Database) {
    forall r, q :: r in db.records && q in db.records && r != q ==>
                     Ref(db.records[r].body.eventId) != Ref(db.records[q].body.eventId)
  }

  // Every requeue audit row is the row of exactly one record, and conversely.
  ghost predicate AuditsOneToOne(db: Database) {
    && (forall r <- db.records.Keys :: AuditMatches(db, db.records[r]))
    && (forall a <- db.audits.Keys :: AuditReferenced(db, a))
    && DistinctAudits(db)
  }

  ghost predicate EventsOneToOne(db: Database) {
    && (forall r <- db.records.Keys :: EventMatches(db, db.records[r]))
    && (forall e <- db.events.Keys :: EventReferenced(db, e))
    && DistinctEvents(db)
  }

  ghost predicate AnchorsOneToOne(db: Database) {
    db.anchors.Keys == db.records.Keys && forall id <- db.anchors.Keys :: AnchorValid(db, db.anchors[id])
  }

  // The four tables describe the same recoveries.
  ghost predicate Corresponding(db: Database) {
    && db.schema == Canonical && db.brokenTriggers == []
    && AnchorsOneToOne(db) && AuditsOneToOne(db) && EventsOneToOne(db)
    && forall id <- db.records.Keys :: Check(db, db.records[id]) == Valid
  }

  // Everything a conflict-free database says: all five stores describe the same recoveries,
  // and the ledger lists them in the order of their records.
  ghost predicate Consistent(db: Database, file: seq<Line>) {
    Corresponding(db) && Chained(file) && Lists(ValuesOf(file), db.anchors)
  }

  /**
   Validator soundness and completeness: no conflict is reported exactly when records,
   anchors, audit rows, events and ledger lines correspond one to one. Nothing checks the
   references for duplicates directly: they are excluded because a payload names its record.
   */
  lemma ConflictFree(db: Database, file: seq<Line>)
    requires Keyed(db)
    ensures !Raises(db) && (forall c :: !Reported(db, file, c)) <==> Consistent(db, file)
  {
    if !Raises(db) && forall c :: !Reported(db, file, c) {
      NoneReported(db, file);
    }
    if Consistent(db, file) {
      forall c ensures !Reported(db, file, c) {
        NothingReported(db, file, c);
      }
    }
  }

  lemma NoneReported(db: Database, file: seq<Line>)
    requires Keyed(db) && !Raises(db) && forall c :: !Reported(db, file, c)
    ensures Consistent(db, file)
  {
    hide AnchorValid, AuditMatches, EventMatches, Check, Lists, Chained, NumberOf, AuditReferenced, EventReferenced;
    assert !Reported(db, file, SchemaConflict) && !Reported(db, file, LedgerInvalid)
           && !Reported(db, file, LedgerMismatch);
    assert forall name :: !Reported(db, file, TriggerConflict(name));
    NoBrokenTrigger(db, file);
    forall id | id in db.records ensures Check(db, db.records[id]) == Valid && id in db.anchors {
      assert !Reported(db, file, RecordConflict(db.records[id].body.task));
      assert !Reported(db, file, ProvenanceConflict(id, db.records[id].body.task));
    }
    forall id | id in db.anchors ensures AnchorValid(db, db.anchors[id]) && id in db.records {
      assert !Reported(db, file, ProvenanceConflict(id, db.anchors[id].body.task));
      AnchorHasRecord(db, db.anchors[id]);
    }
    forall id | id in db.audits ensures AuditReferenced(db, id) {
      assert !Reported(db, file, AuditConflict(id, NumberOf(db.audits[id].entity)));
    }
    forall id | id in db.events ensures EventReferenced(db, id) {
      assert !Reported(db, file, EventConflict(id, NumberOf(db.events[id].entity)));
    }
    PayloadNamesRecord(db);
    assert db.anchors.Keys == db.records.Keys;
  }

  lemma AnchorHasRecord(db: Database, a: Anchor)
    ensures AnchorValid(db, a) ==> a.body.recordId in db.records
  {
  }

  lemma NoBrokenTrigger(db: Database, file: seq<Line>)
    requires db.schema == Canonical && forall name :: !Reported(db, file, TriggerConflict(name))
    ensures db.brokenTriggers == []
  {
    assert db.brokenTriggers != [] ==> Reported(db, file, TriggerConflict(db.brokenTriggers[0]));
  }

  lemma NothingReported(db: Database, file: seq<Line>, c: Conflict)
    requires Keyed(db) && Consistent(db, file)
    ensures !Reported(db, file, c)
  {
  }

  // Two records whose audit rows (or events) coincide are the same record.
  lemma PayloadNamesRecord(db: Database)
    requires Keyed(db) && forall id <- db.records.Keys :: Check(db, db.records[id]) == Valid
    ensures DistinctAudits(db) && DistinctEvents(db)
    ensures forall id <- db.records.Keys :: AuditMatches(db, db.records[id]) && EventMatches(db, db.records[id])
  {
    forall id | id in db.records ensures AuditMatches(db, db.records[id]) && EventMatches(db, db.records[id]) {
      assert Check(db, db.records[id]) == Valid;
    }
  }

  // --- The loops ---------------------------------------------------------------------------------

  lemma ListingDecides(db: Database, ids: seq<int>, listed: seq<Values>, values: seq<Values>)
    requires Keyed(db) && Increasing(ids) && forall id :: id in ids <==> id in db.anchors
    requires |listed| == |ids|
    requires forall k :: 0 <= k < |ids| ==> ids[k] in db.anchors && listed[k] == AnchorValues(db.anchors[ids[k]])
    ensures values == listed <==> Lists(values, db.anchors)
  {
    if values == listed {
      forall id | id in db.anchors ensures AnchorValues(db.anchors[id]) in values {
        var k :| 0 <= k < |ids| && ids[k] == id;
        assert values[k] == AnchorValues(db.anchors[id]);
      }
    }
    if Lists(values, db.anchors) {
      var keys := seq(|values|, k requires 0 <= k < |values| => values[k].anchor.body.recordId);
      forall id ensures id in keys <==> id in ids {
        if id in keys {
          var k :| 0 <= k < |keys| && keys[k] == id;
          assert Holds(db.anchors, values[k].anchor);
        }
        if id in ids {
          var k :| 0 <= k < |values| && values[k] == AnchorValues(db.anchors[id]);
          assert keys[k] == id;
        }
      }
      OneListing(keys, ids);
      forall k | 0 <= k < |values| ensures values[k] == listed[k] {
        assert keys[k] == ids[k];
      }
    }
  }

  // The anchors as the ledger would list them.
  method ListAnchors(db: Database) returns (listed: seq<Values>)
    requires Keyed(db)
    ensures forall values :: values == listed <==> Lists(values, db.anchors)
  {
    var ids := Ascending(db.anchors.Keys);
    listed := [];
    for i := 0 to |ids|
      invariant |listed| == i
      invariant forall k :: 0 <= k < i ==> ids[k] in db.anchors && listed[k] == AnchorValues(db.anchors[ids[k]])
    {
      assert ids[i] in ids;
      listed := listed + [AnchorValues(db.anchors[ids[i]])];
    }
    forall values ensures values == listed <==> Lists(values, db.anchors) {
      ListingDecides(db, ids, listed, values);
    }
  }

  // Invalid anchors, then records without one.
  method CheckAnchors(db: Database) returns (conflicts: seq<Conflict>)
    requires Keyed(db)
    ensures forall c :: c in conflicts <==> c.ProvenanceConflict? && ProvenanceBroken(db, c.recordId, c.task)
  {
    hide AnchorValid;
    var ids := Ascending(db.anchors.Keys);
    conflicts := [];
    for i := 0 to |ids|
      invariant forall c :: c in conflicts <==>
                              c.ProvenanceConflict? && c.recordId in ids[..i] && c.recordId in db.anchors
                              && c.task == db.anchors[c.recordId].body.task && !AnchorValid(db, db.anchors[c.recordId])
    {
      var id := ids[i];
      assert id in ids && ids[..i + 1] == ids[..i] + [id];
      if !AnchorValid(db, db.anchors[id]) {
        conflicts := conflicts + [ProvenanceConflict(id, db.anchors[id].body.task)];
      }
    }
    assert ids[..|ids|] == ids;
    ghost var found := conflicts;
    var recordIds := Ascending(db.records.Keys);
    for i := 0 to |recordIds|
      invariant forall c :: c in conflicts <==>
                              c in found || (c.ProvenanceConflict? && c.recordId in recordIds[..i]
                                             && c.recordId in db.records
                                             && c.recordId !in db.anchors && c.task == db.records[c.recordId].body.task)
    {
      var id := recordIds[i];
      assert id in recordIds && recordIds[..i + 1] == recordIds[..i] + [id];
      if id !in db.anchors {
        conflicts := conflicts + [ProvenanceConflict(id, db.records[id].body.task)];
      }
    }
    assert recordIds[..|recordIds|] == recordIds;
  }

  // Audit rows no record refers to.
  method CheckAudits(db: Database) returns (conflicts: seq<Conflict>)
    ensures forall c :: c in conflicts <==> c.AuditConflict? && c.auditId in db.audits
                                            && !AuditReferenced(db, c.auditId)
                                            && c.auditTask == NumberOf(db.audits[c.auditId].entity)
  {
    var refs := set r | r in db.records :: Ref(db.records[r].body.auditId);
    assert forall id :: id in refs <==> AuditReferenced(db, id);
    conflicts := [];
    if DistinctAudits(db) && refs == db.audits.Keys {
      return;
    }
    var ids := Ascending(db.audits.Keys);
    for i := 0 to |ids|
      invariant forall c :: c in conflicts <==>
                              c.AuditConflict? && c.auditId in ids[..i] && c.auditId in db.audits && c.auditId !in refs
                              && c.auditTask == NumberOf(db.audits[c.auditId].entity)
    {
      var id := ids[i];
      assert id in ids && ids[..i + 1] == ids[..i] + [id];
      if id !in refs {
        conflicts := conflicts + [AuditConflict(id, NumberOf(db.audits[id].entity))];
      }
    }
    assert ids[..|ids|] == ids;
  }

  // Events no record refers to.
  method CheckEvents(db: Database) returns (conflicts: seq<Conflict>)
    ensures forall c :: c in conflicts <==> c.EventConflict? && c.eventId in db.events
                                            && !EventReferenced(db, c.eventId)
                                            && c.eventTask == NumberOf(db.events[c.eventId].entity)
  {
    var refs := set r | r in db.records :: Ref(db.records[r].body.eventId);
    assert forall id :: id in refs <==> EventReferenced(db, id);
    conflicts := [];
    if DistinctEvents(db) && refs == db.events.Keys {
      return;
    }
    var ids := Ascending(db.events.Keys);
    for i := 0 to |ids|
      invariant forall c :: c in conflicts <==>
                              c.EventConflict? && c.eventId in ids[..i] && c.eventId in db.events && c.eventId !in refs
                              && c.eventTask == NumberOf(db.events[c.eventId].entity)
    {
      var id := ids[i];
      assert id in ids && ids[..i + 1] == ids[..i] + [id];
      if id !in refs {
        conflicts := conflicts + [EventConflict(id, NumberOf(db.events[id].entity))];
      }
    }
    assert ids[..|ids|] == ids;
  }

  // Invalid records; a record that raises aborts the loop.
  method CheckRecords(db: Database) returns (conflicts: Option<seq<Conflict>>)
    ensures conflicts.None? <==> exists id <- db.records.Keys :: Check(db, db.records[id]) == Raised
    ensures conflicts.Some? ==>
              forall c :: c in conflicts.value <==>
                            c.RecordConflict? && exists id <- db.records.Keys :: db.records[id].body.task == c.task
                                                                           && Check(db, db.records[id]) == Invalid
  {
    hide Check;
    var ids := Ascending(db.records.Keys);
    var found: seq<Conflict> := [];
    for i := 0 to |ids|
      invariant forall id <- ids[..i] :: id in db.records && Check(db, db.records[id]) != Raised
      invariant forall c :: c in found <==>
                              c.RecordConflict?
                              && exists id <- ids[..i] :: id in db.records && db.records[id].body.task == c.task
                                                          && Check(db, db.records[id]) == Invalid
    {
      var id := ids[i];
      assert id in ids && ids[..i + 1] == ids[..i] + [id];
      var verdict := Check(db, db.records[id]);
      if verdict == Raised {
        return None;
      }
      if verdict == Invalid {
        found := found + [RecordConflict(db.records[id].body.task)];
      }
    }
    assert ids[..|ids|] == ids;
    conflicts := Some(found);
  }

  // Triggers and ledger.
  method CheckLedger(db: Database, file: seq<Line>) returns (conflicts: seq<Conflict>)
    requires Keyed(db)
    ensures forall c :: c in conflicts <==> (c.TriggerConflict? && c.name in db.brokenTriggers)
                                            || (c.LedgerInvalid? && !Chained(file))
                                            || (c.LedgerMismatch? && !Agrees(db, file))
  {
    hide Lists, Chained;
    conflicts := seq(|db.brokenTriggers|,
                     i requires 0 <= i < |db.brokenTriggers| => TriggerConflict(db.brokenTriggers[i]));
    TriggersFound(db.brokenTriggers, conflicts);
    var ledger := Read(file);
    var values := if ledger.Some? then ledger.value else [];
    if ledger.None? {
      conflicts := conflicts + [LedgerInvalid];
    }
    var listed := ListAnchors(db);
    if values != listed {
      conflicts := conflicts + [LedgerMismatch];
    }
  }

  // `recovery_conflicts`
  method Conflicts(db: Database, file: seq<Line>) returns (conflicts: Option<seq<Conflict>>)
    requires Keyed(db)
    ensures conflicts.None? <==> Raises(db)
    ensures conflicts.Some? ==> forall c :: c in conflicts.value <==> Reported(db, file, c)
  {
    hide Check, Agrees, Chained, AuditReferenced, EventReferenced, NumberOf, ProvenanceBroken;
    if db.schema != Canonical {
      return Some([SchemaConflict]);
    }
    var ledger := CheckLedger(db, file);
    var anchors := CheckAnchors(db);
    var audits := CheckAudits(db);
    var events := CheckEvents(db);
    var records := CheckRecords(db);
    if records.None? {
      return None;
    }
    conflicts := Some(ledger + anchors + audits + events + records.value);
    forall c ensures c in conflicts.value <==> Reported(db, file, c) {
    }
  }

  lemma TriggersFound(names: seq<string>, found: seq<Conflict>)
    requires |found| == |names| && forall i :: 0 <= i < |names| ==> found[i] == TriggerConflict(names[i])
    ensures forall c :: c in found <==> c.TriggerConflict? && c.name in names
  {
    forall c ensures c in found <==> c.TriggerConflict? && c.name in names {
      if c.TriggerConflict? && c.name in names {
        var i :| 0 <= i < |names| && names[i] == c.name;
        assert found[i] == c;
      }
    }
  }

  // --- Counting -----------------------------------------------------------------------------------

  lemma {:induction false} ListingSize(ids: seq<int>, keys: set<int>)
    requires Increasing(ids) && forall id :: id in ids <==> id in keys
    ensures |ids| == |keys|
    decreases |ids|
  {
    Inhabited(keys);
    if ids == [] {
    } else {
      var x := ids[0];
      assert x in ids;
      assert forall id :: id in ids[1..] <==> id in ids && id != x;
      ListingSize(ids[1..], keys - {x});
    }
  }

  lemma ListsSize(values: seq<Values>, anchors: map<int, Anchor>)
    requires Lists(values, anchors) && forall id <- anchors.Keys :: anchors[id].body.recordId == id
    ensures |values| == |anchors|
  {
    var keys := seq(|values|, k requires 0 <= k < |values| => values[k].anchor.body.recordId);
    forall id ensures id in keys <==> id in anchors.Keys {
      if id in keys {
        var k :| 0 <= k < |keys| && keys[k] == id;
        assert Holds(anchors, values[k].anchor);
      }
      if id in anchors.Keys {
        var k :| 0 <= k < |values| && values[k] == AnchorValues(anchors[id]);
        assert keys[k] == id;
      }
    }
    ListingSize(keys, anchors.Keys);
  }

  // Different numbers of ledger lines and anchors never go unreported.
  lemma GapIsReported(db: Database, file: seq<Line>)
    requires Keyed(db) && db.schema == Canonical && |file| != |db.anchors|
    ensures Reported(db, file, LedgerMismatch) || Reported(db, file, LedgerInvalid)
  {
    if Lists(ValuesOf(file), db.anchors) {
      ListsSize(ValuesOf(file), db.anchors);
    }
  }

  lemma {:induction false} ImageSize(refs: map<int, int>, image: set<int>)
    requires forall a, b :: a in refs && b in refs && a != b ==> refs[a] != refs[b]
    requires (forall a <- refs.Keys :: refs[a] in image) && forall x <- image :: exists a <- refs.Keys :: refs[a] == x
    ensures |image| == |refs|
    decreases |refs|
  {
    Inhabited(image);
    if refs.Keys == {} {
    } else {
      Inhabited(refs.Keys);
      var a :| a in refs.Keys;
      var rest := refs - {a};
      forall x | x in image - {refs[a]} ensures exists b <- rest.Keys :: rest[b] == x {
        var b :| b in refs.Keys && refs[b] == x;
        assert b in rest.Keys;
      }
      assert rest.Keys == refs.Keys - {a};
      ImageSize(rest, image - {refs[a]});
    }
  }

  lemma AuditCount(db: Database)
    requires AuditsOneToOne(db)
    ensures |db.audits| == |db.records|
  {
    var refs := map k | k in db.records :: Ref(db.records[k].body.auditId);
    forall k | k in db.records.Keys ensures refs[k] in db.audits.Keys {
      assert AuditMatches(db, db.records[k]);
    }
    hide AuditMatches, Ref;
    forall x | x in db.audits.Keys ensures exists k <- refs.Keys :: refs[k] == x {
      assert AuditReferenced(db, x);
    }
    ImageSize(refs, db.audits.Keys);
    assert refs.Keys == db.records.Keys;
  }

  lemma EventCount(db: Database)
    requires EventsOneToOne(db)
    ensures |db.events| == |db.records|
  {
    var refs := map k | k in db.records :: Ref(db.records[k].body.eventId);
    forall k | k in db.records.Keys ensures refs[k] in db.events.Keys {
      assert EventMatches(db, db.records[k]);
    }
    hide EventMatches, Ref;
    forall x | x in db.events.Keys ensures exists k <- refs.Keys :: refs[k] == x {
      assert EventReferenced(db, x);
    }
    ImageSize(refs, db.events.Keys);
    assert refs.Keys == db.records.Keys;
  }

  // In a conflict-free database every store holds exactly one entry for each recovery.
  lemma OneEntryEach(db: Database, file: seq<Line>)
    requires Keyed(db) && Consistent(db, file)
    ensures |db.records| == |db.anchors| == |db.audits| == |db.events| == |file|
  {
    hide Check, Lists, Chained, AnchorValid, Ref, AuditsOneToOne, EventsOneToOne;
    ListsSize(ValuesOf(file), db.anchors);
    AuditCount(db);
    EventCount(db);
    assert db.records.Keys == db.anchors.Keys;
  }
}
