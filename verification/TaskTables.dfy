/** The rows of `tasks` and `task_executions` that the operating protocol reads and writes. */
module TaskTables {
  import opened Common

  datatype TaskStatus = Open | InProgress | Blocked | Done | Cancelled | Reconciled

  datatype RecoveryStatus =
    | Running | Failed | Unknown | Requeued | Exhausted | Completed | ExecutionReconciled | ExecutionCancelled

  // The fencing token "<generation>:<random hex>".
  datatype Token = Token(generation: nat, nonce: string)

  datatype Task = Task(owner: string, title: string, domain: string, acceptance: string, priority: int,
                       status: TaskStatus, blockedReason: Option<string>, result: Option<string>, updatedAt: int)

  datatype Execution = Execution(executor: string, status: RecoveryStatus, token: Option<Token>, generation: nat,
                                 attempts: nat, maxAttempts: int, heartbeatAt: int, leaseExpires: int,
                                 processId: Option<int>, processStart: Option<string>, session: Option<string>,
                                 checkpoint: Option<string>, nextAction: Option<string>, lastError: Option<string>,
                                 updatedAt: int)

  predicate LeaseExpired(e: Execution, now: int) {
    e.leaseExpires <= now
  }

  // --- Governed requeue of the two allowlisted tasks ------------------------------------

  datatype Policy = Policy(owner: string, domain: string, scope: string, title: string)

  function PolicyFor(id: int): Option<Policy> {
    if id == 145 then
      Some(Policy("Customer & Revenue", "commercial",
                  "internal Chairman decision package only; no external actions",
                  "登记受控Beta真实客户验证董事长决策事项"))
    else if id == 146 then
      Some(Policy("Product Engineer", "product",
                  "internal readiness only after task 145 approval; no external actions",
                  "准备受控Beta获批后内部执行就绪检查"))
    else None
  }

  predicate MatchesPolicy(id: int, t: Task) {
    PolicyFor(id).Some?
    && var p := PolicyFor(id).value; t.owner == p.owner && t.domain == p.domain && t.title == p.title
  }

  function RequeuedTask(t: Task, now: int): Task {
    t.(status := Open, blockedReason := None, updatedAt := now)
  }

  function RequeuedExecution(e: Execution, now: int): Execution {
    e.(status := Requeued, attempts := 0, checkpoint := None, nextAction := None, lastError := None,
       processId := None, processStart := None, session := None, token := None, updatedAt := now)
  }

  // The compensation writes back the columns the requeue overwrote, whatever the rows hold by then.
  function RestoredTask(t: Task, previous: Task): Task {
    t.(status := previous.status, updatedAt := previous.updatedAt,
       blockedReason := previous.blockedReason, result := previous.result)
  }

  function RestoredExecution(e: Execution, previous: Execution): Execution {
    e.(status := previous.status, attempts := previous.attempts, checkpoint := previous.checkpoint,
       nextAction := previous.nextAction, lastError := previous.lastError, processId := previous.processId,
       processStart := previous.processStart, session := previous.session, token := previous.token,
       updatedAt := previous.updatedAt)
  }

  // --- Text the protocol searches --------------------------------------------------------

  predicate OccursAt(text: string, part: string, i: int) {
    0 <= i <= |text| - |part| && text[i..i + |part|] == part
  }

  predicate Contains(text: string, part: string) {
    exists i | 0 <= i <= |text| :: OccursAt(text, part, i)
  }

  const APPROVAL_PREFIX := "Pending Chairman approval "

  function PendingApproval(approval: nat): string {
    APPROVAL_PREFIX + "#" + Decimal(approval)
  }

  lemma {:induction false} DecimalHasNoHash(n: nat)
    ensures '#' !in Decimal(n)
  {
    if n < 10 {
    } else {
      DecimalHasNoHash(n / 10);
    }
  }

  // A hash sign occurs once in the text, so the part can only start there.
  lemma OnlyAtHash(before: string, after: string, digits: string)
    requires '#' !in before && '#' !in after
    ensures Contains(before + "#" + after, "#" + digits) <==> digits <= after
  {
    var text, part, k := before + "#" + after, "#" + digits, |before|;
    assert forall i :: 0 <= i < k ==> text[i] == before[i];
    assert forall i :: k < i < |text| ==> text[i] == after[i - k - 1];
    forall i | OccursAt(text, part, i) ensures i == k {
      assert text[i..i + |part|][0] == text[i] == '#';
    }
    if OccursAt(text, part, k) {
      forall j | 0 <= j < |digits| ensures j < |after| && digits[j] == after[j] {
        assert part[j + 1] == text[k..k + |part|][j + 1] == text[k + j + 1];
      }
    }
    if digits <= after {
      assert text[k..k + |part|] == part;
      assert OccursAt(text, part, k);
    }
  }

  // A decision for approval m matches the reason written for approval n exactly when the
  // digits of m are a prefix of the digits of n: "#1" also matches "#12".
  lemma MatchesByPrefix(m: nat, n: nat)
    ensures Contains(PendingApproval(n), "#" + Decimal(m)) <==> Decimal(m) <= Decimal(n)
  {
    DecimalHasNoHash(n);
    OnlyAtHash(APPROVAL_PREFIX, Decimal(n), Decimal(m));
  }

  lemma TwelveMatchesOne()
    ensures Contains(PendingApproval(12), "#" + Decimal(1)) && !Contains(PendingApproval(1), "#" + Decimal(12))
  {
    assert Decimal(12) == Decimal(1) + ['2'];
    MatchesByPrefix(1, 12);
    MatchesByPrefix(12, 1);
  }
}
