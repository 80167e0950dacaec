/**
 The rows of the governed recovery: records, provenance anchors, audit rows, events and
 the lines of the external ledger. Signatures and hashes are symbolic terms of what they
 cover, so two are equal exactly when they cover the same thing.
 */
module RecoveryTables {
  import opened Common
  import opened TaskTables

  const RECOVERY_EVENT_PRIORITY := 10

  // A JSON text column: a task row, an execution's details, a process proof, some other
  // object, JSON that is no object, or no JSON.
  datatype Text =
    | TaskText(task: Task)
    | ExecutionText(execution: Execution)
    | ProofText(pid: int, start: string)
    | ObjectText(text: string)
    | NonObject(text: string)
    | Malformed(text: string)

  datatype RecordBody = RecordBody(id: int, task: int, at: int, actor: string, reason: string, scope: string,
                                   proof: Text, previousTask: Text, previousExecution: Text,
                                   newTask: Text, newExecution: Text, auditId: Option<int>, eventId: Option<int>)

  datatype Record = Record(body: RecordBody, signature: Signature)

  datatype AnchorBody = AnchorBody(recordId: int, task: int, auditId: int, eventId: int,
                                   recordSignature: Signature, priority: int)

  datatype Anchor = Anchor(body: AnchorBody, signature: Signature)

  datatype Entity = TaskEntity(id: int) | OtherEntity(text: string)

  // The canonical payload of a record, or any other text.
  datatype Details = Payload(record: Record) | OtherDetails(text: string)

  datatype Audit = Audit(at: int, actor: string, entity: Entity, details: Details)

  datatype Event = Event(createdAt: int, availableAt: int, entity: Entity, payload: Details, priority: int)

  datatype Values = AnchorValues(anchor: Anchor) | OtherValues(text: string)

  // A line of the ledger file: a canonical entry (with any further members), or any other text.
  datatype Line =
    | Entry(sequence: int, previous: Hash, values: Values, signature: Signature, extra: string)
    | OtherLine(text: string)

  datatype Hash = Zeros | Sha256(line: Line)

  datatype Signature =
    | RecordSigned(record: RecordBody)
    | AnchorSigned(anchor: AnchorBody)
    | LedgerSigned(sequence: int, previous: Hash, values: Values)
    | OtherSignature(text: string)

  // A row of `approvals`: what each of its two signatures covers, and the signatures.
  datatype ApprovalBinding = ApprovalBinding(createdAt: int, requestedBy: string, actionType: string, summary: string,
                                             targetTask: Option<int>, targetAction: Option<string>)

  datatype ApprovalDecision = ApprovalDecision(status: string, decision: Option<string>, rationale: Option<string>,
                                               decidedAt: Option<int>, decidedBy: Option<string>)

  datatype Approval = Approval(binding: ApprovalBinding, decision: ApprovalDecision,
                               bindingSignature: ApprovalSignature, decisionSignature: ApprovalSignature)

  datatype ApprovalSignature =
    | BindingSigned(binding: ApprovalBinding)
    | DecisionSigned(id: int, bound: ApprovalBinding, decision: ApprovalDecision)
    | OtherApprovalSignature(text: string)

  datatype Schema = Canonical | NotCanonical

  datatype Database = Database(tasks: map<int, Task>, executions: map<int, Execution>,
                               records: map<int, Record>, anchors: map<int, Anchor>,
                               audits: map<int, Audit>, events: map<int, Event>,
                               approvals: map<int, Approval>, recordSeq: nat, auditSeq: nat, eventSeq: nat,
                               schema: Schema, brokenTriggers: seq<string>)

  // Rows are stored under their own primary keys.
  predicate Keyed(db: Database) {
    && (forall id <- db.records.Keys :: db.records[id].body.id == id)
    && (forall id <- db.anchors.Keys :: db.anchors[id].body.recordId == id)
  }

  // AUTOINCREMENT: no key exceeds the table's sequence.
  predicate Sequenced(db: Database) {
    && (forall id <- db.records.Keys :: id <= db.recordSeq)
    && (forall id <- db.audits.Keys :: id <= db.auditSeq)
    && (forall id <- db.events.Keys :: id <= db.eventSeq)
  }
}
