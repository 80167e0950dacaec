/**
 Runs from the empty tables in which the exceptions of the protocol occur: a compensation
 that takes back a completed task, and a task claimed more often than its limit.
 */
module TaskWitness {
  import opened Common
  import opened TaskTables
  import opened TaskProtocol
  import opened TaskSafety
  import opened PilotCompletion

  const ID := 145
  const OWNER := "Customer & Revenue"
  const FIRST := Token(1, "a")
  const SECOND := Token(2, "b")
  const RESULT := "package"

  // --- A stale compensation --------------------------------------------------------------------------

  const CREATED := Task(OWNER, "登记受控Beta真实客户验证董事长决策事项", "commercial", "", 0, Open, None, None, 0)
  const BOUND := Binding(APPROVED_PILOT, true, Some("set"), None, None, None)
  const ASSURANCE := Assurance(APPROVED_PILOT, "set", "r", "v")

  function Claiming(nonce: string, now: int): Call {
    Call(ID, ClaimTask(OWNER, "worker", nonce, 60, 1, Process(Some(7), Some("start"), None), true, true, true), now)
  }

  function Executing(token: Token, now: int): Execution {
    Execution("worker", Running, Some(token), token.generation, 0, 1, now, now + 60, Some(7), Some("start"), None,
              None, None, None, now)
  }

  const LOST := "lease expired"
  const EXHAUSTED_TASK := CREATED.(status := Blocked, blockedReason := Some(AttemptsExhausted(LOST, 1, 1)),
                                   updatedAt := 70)
  const EXHAUSTED := Executing(FIRST, 10).(status := Exhausted, attempts := 1, lastError := Some(LOST), updatedAt := 70)
  const SAVED := Saved(ID, EXHAUSTED_TASK, EXHAUSTED)

  /**
   The task is created, bound, claimed with one attempt, lost, and exhausted by recovery; a
   requeue reopens it and is still about to append its ledger line while the task is claimed
   again and completed.
   */
  function Completing(pilot: bool): seq<Call> {
    [] + [Call(ID, Create(CREATED), 0)]
    + [Call(ID, Op.Bind(APPROVED_PILOT, pilot, Some("set")), 0)]
    + [Claiming("a", 10)]
    + [Call(ID, Recover(LOST, false), 70)]
    + [Call(ID, Op.Requeue(true), 80)]
    + [Claiming("b", 90)]
    + [Call(ID, Complete(OWNER, Some(SECOND), RESULT, true, true, Some(ASSURANCE)), 100)]
  }

  const LATE := Call(ID, Op.Compensate(EXHAUSTED_TASK, EXHAUSTED), 110)

  function Tables(pilot: bool, t: Task, e: Option<Execution>, claimed: nat, done: bool, pending: set<Saved>): State {
    var b := BOUND.(pilot := pilot);
    State(map[ID := t], if e.None? then map[] else map[ID := e.value],
          map[ID := if !(done && pilot) then b
                    else b.(result := Some("r"), review := Some("v"), completedAt := Some(100))],
          if !pilot || claimed == 0 then map[]
          else if claimed == 1 then map[(ID, 1) := Claim(APPROVED_PILOT, "set", FIRST)]
          else map[(ID, 1) := Claim(APPROVED_PILOT, "set", FIRST)][(ID, 2) := Claim(APPROVED_PILOT, "set", SECOND)],
          if done && pilot then map[ID := Completion(2, APPROVED_PILOT, "set", "r", "v", RESULT, 100)] else map[],
          pending)
  }

  lemma Bound(pilot: bool)
    ensures Run(EMPTY, Completing(pilot)[..2]) == Tables(pilot, CREATED, None, 0, false, {})
  {
    var create, bind := Call(ID, Create(CREATED), 0), Call(ID, Op.Bind(APPROVED_PILOT, pilot, Some("set")), 0);
    assert Completing(pilot)[..2] == [] + [create] + [bind];
    RunAppend(EMPTY, [], create);
    RunAppend(EMPTY, [] + [create], bind);
    assert Step(EMPTY, create) == EMPTY.(tasks := map[ID := CREATED]);
  }

  lemma Exhausting(pilot: bool)
    ensures var s := Tables(pilot, CREATED, None, 0, false, {});
            var claimed := CREATED.(status := InProgress, updatedAt := 10);
            && Step(s, Claiming("a", 10)) == Tables(pilot, claimed, Some(Executing(FIRST, 10)), 1, false, {})
            && Step(Step(s, Claiming("a", 10)), Call(ID, Recover(LOST, false), 70)) ==
               Tables(pilot, EXHAUSTED_TASK, Some(EXHAUSTED), 1, false, {})
  {
    hide AttemptsExhausted;
  }

  lemma Requeueing(pilot: bool)
    ensures var s := Tables(pilot, EXHAUSTED_TASK, Some(EXHAUSTED), 1, false, {});
            Step(s, Call(ID, Op.Requeue(true), 80)) ==
            Tables(pilot, RequeuedTask(EXHAUSTED_TASK, 80), Some(RequeuedExecution(EXHAUSTED, 80)), 1, false, {SAVED})
  {
    hide AttemptsExhausted;
  }

  lemma Reclaiming(pilot: bool)
    ensures var s := Tables(pilot, RequeuedTask(EXHAUSTED_TASK, 80), Some(RequeuedExecution(EXHAUSTED, 80)), 1, false,
                            {SAVED});
            var claimed := CREATED.(status := InProgress, updatedAt := 90);
            Step(s, Claiming("b", 90)) == Tables(pilot, claimed, Some(Executing(SECOND, 90)), 2, false, {SAVED})
  {
    hide AttemptsExhausted;
  }

  lemma Finishing(pilot: bool)
    ensures var s := Tables(pilot, CREATED.(status := InProgress, updatedAt := 90), Some(Executing(SECOND, 90)), 2,
                            false, {SAVED});
            var t := CREATED.(status := Done, result := Some(RESULT), updatedAt := 100);
            Step(s, Call(ID, Complete(OWNER, Some(SECOND), RESULT, true, true, Some(ASSURANCE)), 100)) ==
            Tables(pilot, t, Some(Executing(SECOND, 90).(status := Completed, updatedAt := 100)), 2, true, {SAVED})
  {
    hide AttemptsExhausted;
    assert pilot ==> (ID, 2) in Tables(pilot, CREATED, None, 2, false, {}).claims;
  }

  lemma Completes(pilot: bool)
    ensures var t := CREATED.(status := Done, result := Some(RESULT), updatedAt := 100);
            Run(EMPTY, Completing(pilot)) ==
            Tables(pilot, t, Some(Executing(SECOND, 90).(status := Completed, updatedAt := 100)), 2, true, {SAVED})
  {
    hide Step, Run, Tables;
    Bound(pilot);
    Exhausting(pilot);
    Requeueing(pilot);
    Reclaiming(pilot);
    Finishing(pilot);
    var calls := Completing(pilot);
    assert |calls| == 7;
    forall i | 0 <= i < 7 ensures Run(EMPTY, calls[..i + 1]) == Step(Run(EMPTY, calls[..i]), calls[i]) {
      assert calls[..i + 1] == calls[..i] + [calls[i]];
      RunAppend(EMPTY, calls[..i], calls[i]);
    }
    assert calls[..7] == calls;
    assert Run(EMPTY, calls[..3]) == Step(Run(EMPTY, calls[..2]), Claiming("a", 10));
    assert Run(EMPTY, calls[..4]) == Step(Run(EMPTY, calls[..3]), Call(ID, Recover(LOST, false), 70));
    assert Run(EMPTY, calls[..5]) == Step(Run(EMPTY, calls[..4]), Call(ID, Op.Requeue(true), 80));
    assert Run(EMPTY, calls[..6]) == Step(Run(EMPTY, calls[..5]), Claiming("b", 90));
    assert Run(EMPTY, calls[..7]) == Step(Run(EMPTY, calls[..6]), calls[6]);
  }

  /**
   The compensation of that requeue, when its append fails after all, takes the completed
   task from done back to blocked. If the task is a pilot task, its completion row and the
   fields of its binding stay, so that the task is reopened and never completed again.
   */
  lemma StaleCompensation(pilot: bool)
    ensures var s := Run(EMPTY, Completing(pilot));
            && ID in s.tasks && s.tasks[ID].status == Done && Accepts(s, ID, LATE.op, LATE.now)
            && Step(s, LATE).tasks[ID].status == Blocked
            && (pilot ==> Whole(s, ID) && Reopening(s, LATE, ID) && Reopened(Step(s, LATE), ID))
  {
    hide Run, AttemptsExhausted;
    Completes(pilot);
    var s := Run(EMPTY, Completing(pilot));
    assert Whole(EMPTY, ID);
    if pilot {
      assert (ID, 2) in s.claims;
      assert PilotBound(s, ID);
      assert Reopening(s, LATE, ID);
      assert Whole(s, ID);
      WholeExactly(s, LATE, ID);
    }
  }

  // --- A second claim under a limit of one ---------------------------------------------------------------

  const FAILURE := "no answer to #1"
  const FAILING := Call(ID, Op.Fail("worker", Some(FIRST), FAILURE, false, true), 20)
  const APPROVING := Call(ID, Op.Decide(1, true, true), 30)

  const FAILED_TASK := CREATED.(status := Blocked, updatedAt := 20,
                                blockedReason := Some("Task execution failed permanently: " + FAILURE))
  const FAILED := Executing(FIRST, 10).(status := Exhausted, lastError := Some(FAILURE), heartbeatAt := 20,
                                        updatedAt := 20)

  /**
   The only attempt fails for good with an error text that happens to contain "#1"; an
   approval of number 1, whatever it is about, opens the task, and it is claimed again.
   */
  function Retrying(): seq<Call> {
    [Claiming("a", 10)] + ([FAILING] + ([APPROVING] + [Claiming("b", 90)]))
  }

  lemma Failing()
    ensures var s := Tables(false, CREATED.(status := InProgress, updatedAt := 10), Some(Executing(FIRST, 10)), 1,
                            false, {});
            Step(s, FAILING) == Tables(false, FAILED_TASK, Some(FAILED), 1, false, {})
  {
  }

  lemma MentionsOne()
    ensures Contains("Task execution failed permanently: " + FAILURE, "#" + Decimal(1))
  {
    var text, part := "Task execution failed permanently: " + FAILURE, "#" + Decimal(1);
    assert part == "#1";
    var k := |text| - 2;
    assert text[k] == '#' && text[k + 1] == '1';
    assert text[k..k + |part|] == part;
    assert OccursAt(text, part, k);
  }

  lemma Approving()
    ensures var s := Tables(false, FAILED_TASK, Some(FAILED), 1, false, {});
            && Reopens(s, APPROVING, ID)
            && Step(s, APPROVING) == Tables(false, CREATED.(updatedAt := 30), Some(FAILED), 1, false, {})
  {
    MentionsOne();
    hide Contains;
  }

  lemma CountOne(s: State, c: Call, rest: seq<Call>)
    ensures ClaimCount(s, [c] + rest, ID) == One(Claims(s, c, ID)) + ClaimCount(Step(s, c), rest, ID)
    ensures ReopenCount(s, [c] + rest, ID) == One(Reopens(s, c, ID)) + ReopenCount(Step(s, c), rest, ID)
  {
    assert ([c] + rest)[1..] == rest;
  }

  // A task whose limit is one attempt is claimed twice; the budget bounds no more than that.
  lemma SecondClaim()
    ensures var s := Run(EMPTY, Completing(false)[..2]);
            && RowsOf(s, ID).execution.None? && Ordinary(Retrying(), ID, 1)
            && ClaimCount(s, Retrying(), ID) == 2 && ReopenCount(s, Retrying(), ID) == 1
  {
    hide Run, Step, Contains, Decimal;
    Bound(false);
    var s := Run(EMPTY, Completing(false)[..2]);
    Exhausting(false);
    Failing();
    Approving();
    var s1, s2, s3 := Step(s, Claiming("a", 10)), Tables(false, FAILED_TASK, Some(FAILED), 1, false, {}),
                      Tables(false, CREATED.(updatedAt := 30), Some(FAILED), 1, false, {});
    CountOne(s, Claiming("a", 10), [FAILING] + ([APPROVING] + [Claiming("b", 90)]));
    CountOne(s1, FAILING, [APPROVING] + [Claiming("b", 90)]);
    CountOne(s2, APPROVING, [Claiming("b", 90)]);
    CountOne(s3, Claiming("b", 90), []);
    assert [Claiming("b", 90)] + [] == [Claiming("b", 90)];
    assert Claims(s, Claiming("a", 10), ID) && Claims(s3, Claiming("b", 90), ID);
  }
}
