/** The history of an initiative: which stages it went through, and under which gates. */
module AssuranceHistory {
  import opened Common
  import opened LifecycleChain
  import opened AssuranceState

  // An accepted transition, with the gate row that let it through and the approved set of that moment.
  datatype Move = Move(target: Stage, gate: Option<Gate>, approved: map<Ref, Digest>, at: int)

  predicate Moving(s: State, c: Call, i: string) {
    c.op.Transition? && c.op.initiative == i && Accepts(s, c.op, c.now)
  }

  function MoveOf(s: State, c: Call, i: string): Move
    requires Moving(s, c, i)
  {
    var name := GateFor(c.op.target);
    Move(c.op.target, if name.None? then None else Some(s.gates[Latest(s.gates, i, name.value).value]),
         ApprovedSet(s, i), c.now)
  }

  ghost function Moves(s: State, calls: seq<Call>, i: string): seq<Move>
    decreases |calls|
  {
    if calls == [] then []
    else Made(s, calls[0], i) + Moves(Step(s, calls[0]), calls[1..], i)
  }

  // The stage the moves lead to.
  function Reached(moves: seq<Move>): Stage {
    if moves == [] then Discovery else moves[|moves| - 1].target
  }

  // The gate of the move was passing, unexpired and current when it was made.
  predicate Gated(i: string, m: Move) {
    GateFor(m.target).Some? ==>
      && m.gate.Some? && m.gate.value.initiative == i && m.gate.value.name == GateFor(m.target).value
      && Passing(m.gate.value.decision) && Unexpired(m.gate.value.expiry, m.at)
      && m.gate.value.digest == SetSha(m.approved)
  }

  predicate Legal(i: string, moves: seq<Move>, k: nat)
    requires k < |moves|
  {
    moves[k].target in Targets(Reached(moves[..k])) && Gated(i, moves[k])
  }

  predicate Lawful(i: string, moves: seq<Move>) {
    forall k :: 0 <= k < |moves| ==> Legal(i, moves, k)
  }

  // The status is the stage reached, or `blocked` over it; a second block forgets the stage.
  predicate Explains(s: State, i: string, moves: seq<Move>) {
    if i !in s.initiatives then moves == [] && i !in s.blocks
    else if s.initiatives[i] == Blocked then i in s.blocks ==> s.blocks[i] == Reached(moves) || s.blocks[i] == Blocked
    else s.initiatives[i] == Reached(moves) && i !in s.blocks
  }

  lemma LatestIs(gates: seq<Gate>, i: string, name: GateName)
    ensures var g := Latest(gates, i, name);
            g.Some? ==> g.value < |gates| && gates[g.value].initiative == i && gates[g.value].name == name
  {
  }

  lemma MoveIsGated(s: State, c: Call, i: string)
    requires Moving(s, c, i)
    ensures Gated(i, MoveOf(s, c, i))
  {
    hide Targets, ApprovedSet, Latest;
    if GateFor(c.op.target).Some? {
      LatestIs(s.gates, i, GateFor(c.op.target).value);
    }
  }

  lemma MoveIsLawful(s: State, c: Call, i: string, moves: seq<Move>)
    requires Lawful(i, moves) && Moving(s, c, i) && s.initiatives[i] == Reached(moves)
    ensures Lawful(i, moves + [MoveOf(s, c, i)])
  {
    hide Gated, GateHolds, Targets;
    MoveIsGated(s, c, i);
    var longer := moves + [MoveOf(s, c, i)];
    forall k | 0 <= k < |longer| ensures Legal(i, longer, k) {
      assert longer[..k] == moves[..k];
      assert k == |moves| ==> moves[..k] == moves;
      assert k < |moves| ==> Legal(i, moves, k);
    }
  }

  lemma ExplainsStep(s: State, c: Call, i: string, moves: seq<Move>)
    requires Lawful(i, moves) && Explains(s, i, moves)
    ensures Lawful(i, moves + Made(s, c, i)) && Explains(Step(s, c), i, moves + Made(s, c, i))
  {
    assert moves + [] == moves;
    if Moving(s, c, i) {
      MoveIsLawful(s, c, i, moves);
      hide Lawful, Gated, GateHolds;
    }
  }

  function Made(s: State, c: Call, i: string): seq<Move> {
    if Moving(s, c, i) then [MoveOf(s, c, i)] else []
  }

  lemma {:induction false} ExplainsRun(s: State, calls: seq<Call>, i: string, moves: seq<Move>)
    requires Lawful(i, moves) && Explains(s, i, moves)
    ensures Lawful(i, moves + Moves(s, calls, i)) && Explains(Run(s, calls), i, moves + Moves(s, calls, i))
    decreases |calls|
  {
    hide Lawful, Explains, Made, Step;
    if calls == [] {
      assert moves + [] == moves;
    } else {
      var head, rest := Made(s, calls[0], i), Moves(Step(s, calls[0]), calls[1..], i);
      ExplainsStep(s, calls[0], i, moves);
      ExplainsRun(Step(s, calls[0]), calls[1..], i, moves + head);
      assert moves + (head + rest) == moves + head + rest;
    }
  }

  // --- What the graph forces ------------------------------------------------------------------------

  // The six moves up to the k-th follow the build path, its gated steps under their gates.
  predicate FollowsBuildPath(i: string, m: seq<Move>, k: nat)
    requires k < |m|
  {
    && k >= 5
    && m[k - 5].target == DesignDraft
    && m[k - 4].target == DesignReview && GatedBy(i, m[k - 4], G1)
    && m[k - 3].target == SpecReady
    && m[k - 2].target == EvalContractApproved && GatedBy(i, m[k - 2], G2)
    && m[k - 1].target == BaselineRecorded && GatedBy(i, m[k - 1], G3)
    && m[k].target == ApprovedForBuild && GatedBy(i, m[k], G4)
  }

  predicate GatedBy(i: string, m: Move, name: GateName) {
    GateFor(m.target) == Some(name) && Gated(i, m)
  }

  // The stages of the build path have one predecessor each.
  function Predecessor(to: Stage): Stage {
    match to
    case ApprovedForBuild => BaselineRecorded
    case BaselineRecorded => EvalContractApproved
    case EvalContractApproved => SpecReady
    case SpecReady => DesignReview
    case _ => DesignDraft
  }

  lemma OnlyPredecessor(from: Stage, to: Stage)
    requires to in Targets(from)
             && to in {DesignReview, SpecReady, EvalContractApproved, BaselineRecorded, ApprovedForBuild}
    ensures from == Predecessor(to)
  {
  }

  // One step back along the moves.
  lemma Before(i: string, moves: seq<Move>, k: nat)
    requires Lawful(i, moves) && k < |moves|
    requires moves[k].target in {DesignReview, SpecReady, EvalContractApproved, BaselineRecorded, ApprovedForBuild}
    ensures k >= 1 && moves[k - 1].target == Predecessor(moves[k].target) && Gated(i, moves[k])
  {
    assert Legal(i, moves, k);
    hide Gated;
    OnlyPredecessor(Reached(moves[..k]), moves[k].target);
  }

  lemma BuildPathForced(i: string, m: seq<Move>, k: nat)
    requires Lawful(i, m) && k < |m| && m[k].target == ApprovedForBuild
    ensures FollowsBuildPath(i, m, k)
  {
    hide Lawful, Gated;
    Before(i, m, k);
    Before(i, m, k - 1);
    Before(i, m, k - 2);
    Before(i, m, k - 3);
    Before(i, m, k - 4);
  }

  /**
   Entry to `approved_for_build`, wherever it happens in a run. Since its last entry to
   `design_draft` the initiative entered review, specification, evaluation contract and
   baseline in that order and nothing else, and gates G1 to G4 were passing, unexpired
   and current at their steps. Blocks and resumptions in between change nothing of this.
   */
  lemma ApprovedForBuildHistory(calls: seq<Call>, i: string, k: nat)
    requires k < |Moves(EMPTY, calls, i)| && Moves(EMPTY, calls, i)[k].target == ApprovedForBuild
    ensures FollowsBuildPath(i, Moves(EMPTY, calls, i), k)
  {
    MovesLawful(calls, i);
    hide Moves, FollowsBuildPath, Lawful;
    BuildPathForced(i, Moves(EMPTY, calls, i), k);
  }

  // The last three moves before an approved release, conditional or not, and their gates.
  predicate FollowsReleasePath(i: string, m: seq<Move>, k: nat)
    requires k < |m|
  {
    && k >= 3
    && m[k - 3].target == IndependentEvaluation
    && m[k - 2].target == ReleaseCandidate && GatedBy(i, m[k - 2], G5)
    && m[k - 1].target == ReleaseDecision
    && GatedBy(i, m[k], G6)
  }

  lemma StepBack(i: string, moves: seq<Move>, k: nat, from: Stage)
    requires Lawful(i, moves) && k < |moves|
    requires (moves[k].target == ReleaseApproved || moves[k].target == ReleaseApprovedConditional) ==>
               from == ReleaseDecision
    requires moves[k].target == ReleaseDecision ==> from == ReleaseCandidate
    requires moves[k].target == ReleaseCandidate ==> from == IndependentEvaluation
    requires moves[k].target in {ReleaseApproved, ReleaseApprovedConditional, ReleaseDecision, ReleaseCandidate}
    ensures k >= 1 && moves[k - 1].target == from && Gated(i, moves[k])
  {
    assert Legal(i, moves, k);
    hide Gated;
  }

  /**
   Every approved release, conditional or not, comes straight from an independent evaluation
   whose candidate passed gate G5 and whose decision passed gate G6.
   */
  lemma ReleaseHistory(calls: seq<Call>, i: string, k: nat)
    requires k < |Moves(EMPTY, calls, i)|
    requires Moves(EMPTY, calls, i)[k].target == ReleaseApproved
             || Moves(EMPTY, calls, i)[k].target == ReleaseApprovedConditional
    ensures FollowsReleasePath(i, Moves(EMPTY, calls, i), k)
  {
    MovesLawful(calls, i);
    hide Moves, Lawful, Gated;
    var m := Moves(EMPTY, calls, i);
    StepBack(i, m, k, ReleaseDecision);
    StepBack(i, m, k - 1, ReleaseCandidate);
    StepBack(i, m, k - 2, IndependentEvaluation);
  }

  // Deployment follows an approval, fulfilled conditions, or the end of an incident.
  lemma DeploymentHistory(calls: seq<Call>, i: string, k: nat)
    requires k < |Moves(EMPTY, calls, i)| && Moves(EMPTY, calls, i)[k].target == EnabledOrDeployed
    ensures k >= 1
            && (Moves(EMPTY, calls, i)[k - 1].target == ReleaseApproved
                || Moves(EMPTY, calls, i)[k - 1].target == ConditionsVerified
                || Moves(EMPTY, calls, i)[k - 1].target == IncidentResolved)
  {
    MovesLawful(calls, i);
    hide Moves;
    assert Legal(i, Moves(EMPTY, calls, i), k);
    hide Gated;
  }

  // Incidents are resolved after a rollback began, and that after a declaration.
  lemma IncidentHistory(calls: seq<Call>, i: string, k: nat)
    requires k < |Moves(EMPTY, calls, i)|
    ensures var m := Moves(EMPTY, calls, i);
            && (m[k].target == IncidentResolved ==> k >= 1 && m[k - 1].target == RollbackInProgress)
            && (m[k].target == RollbackInProgress ==> k >= 1 && m[k - 1].target == IncidentDeclared)
  {
    MovesLawful(calls, i);
    hide Moves;
    assert Legal(i, Moves(EMPTY, calls, i), k);
    hide Gated;
  }

  // Conditions are verified for a conditional approval; the first review and the closing are gated.
  lemma ConditionsHistory(calls: seq<Call>, i: string, k: nat)
    requires k < |Moves(EMPTY, calls, i)|
    ensures var m := Moves(EMPTY, calls, i);
            && (m[k].target == ConditionsVerified ==> k >= 1 && m[k - 1].target == ReleaseApprovedConditional)
            && (m[k].target == Closed ==> k >= 1 && m[k - 1].target in {OutcomeObservation, IncidentResolved}
                                          && GatedBy(i, m[k], G7))
            && (m[k].target == GoalReview ==> GatedBy(i, m[k], G0))
  {
    MovesLawful(calls, i);
    hide Moves;
    assert Legal(i, Moves(EMPTY, calls, i), k);
    hide Gated;
  }

  // The lifecycle graph read backwards: the stages from which a transition can lead to this one.
  function Sources(to: Stage): set<Stage> {
    match to
    case Discovery => {GoalReview, DesignDraft, Reopened}
    case GoalReview => {Discovery}
    case DesignDraft =>
      {GoalReview, DesignReview, SpecReady, EvalContractApproved, BaselineRecorded, IndependentEvaluation, Reopened}
    case DesignReview => {DesignDraft}
    case SpecReady => {DesignReview}
    case EvalContractApproved => {SpecReady}
    case BaselineRecorded => {EvalContractApproved}
    case ApprovedForBuild => {BaselineRecorded}
    case Implementation => {ApprovedForBuild, IndependentEvaluation}
    case IndependentEvaluation => {Implementation}
    case EvaluationRejected => {IndependentEvaluation}
    case ReleaseCandidate => {IndependentEvaluation}
    case ReleaseDecision => {ReleaseCandidate}
    case ReleaseRejected => {ReleaseDecision}
    case ReleaseApproved => {ReleaseDecision}
    case ReleaseApprovedConditional => {ReleaseDecision}
    case ConditionsVerified => {ReleaseApprovedConditional}
    case ReleaseExpired => {ReleaseApprovedConditional}
    case EnabledOrDeployed => {ReleaseApproved, ConditionsVerified, IncidentResolved}
    case OutcomeObservation => {EnabledOrDeployed, IncidentResolved}
    case Closed => {OutcomeObservation, IncidentResolved}
    case Reopened => {OutcomeObservation, IncidentResolved}
    case IncidentDeclared => {ReleaseCandidate, EnabledOrDeployed, OutcomeObservation}
    case RollbackInProgress => {IncidentDeclared}
    case RolledBack => {RollbackInProgress}
    case Disabled => {RollbackInProgress}
    case IncidentResolved => {RollbackInProgress}
    case Cancelled => {Discovery, GoalReview, DesignDraft, DesignReview, SpecReady, EvalContractApproved,
                       BaselineRecorded, ApprovedForBuild, Implementation}
    case Blocked => {}
  }

  predicate Designing(s: Stage) {
    s in {Discovery, GoalReview, DesignDraft, DesignReview}
  }

  predicate Building(s: Stage) {
    s in {SpecReady, EvalContractApproved, BaselineRecorded, ApprovedForBuild, Implementation, IndependentEvaluation}
  }

  predicate Operating(s: Stage) {
    s in {EnabledOrDeployed, OutcomeObservation, IncidentDeclared, RollbackInProgress, RolledBack, Disabled}
  }

  predicate Ending(s: Stage) {
    s in {Closed, Reopened, IncidentResolved}
  }

  predicate Stopping(s: Stage) {
    s in {Cancelled, Blocked}
  }

  // The two readings of the graph agree on every pair of stages.
  lemma GraphTransposes(from: Stage, to: Stage)
    ensures to in Targets(from) <==> from in Sources(to)
  {
    hide Targets, Sources, Designing, Building, Operating, Ending, Stopping;
    if Designing(to) {
      DesigningTransposes(from, to);
    } else if Building(to) {
      BuildingTransposes(from, to);
    } else if Operating(to) {
      OperatingTransposes(from, to);
    } else if Ending(to) {
      EndingTransposes(from, to);
    } else if Stopping(to) {
      StoppingTransposes(from, to);
    } else {
      ReleasingTransposes(from, to);
    }
  }

  lemma DesigningTransposes(from: Stage, to: Stage)
    requires Designing(to)
    ensures to in Targets(from) <==> from in Sources(to)
  {
  }

  lemma BuildingTransposes(from: Stage, to: Stage)
    requires Building(to)
    ensures to in Targets(from) <==> from in Sources(to)
  {
  }

  lemma OperatingTransposes(from: Stage, to: Stage)
    requires Operating(to)
    ensures to in Targets(from) <==> from in Sources(to)
  {
  }

  lemma EndingTransposes(from: Stage, to: Stage)
    requires Ending(to)
    ensures to in Targets(from) <==> from in Sources(to)
  {
  }

  lemma StoppingTransposes(from: Stage, to: Stage)
    requires Stopping(to)
    ensures to in Targets(from) <==> from in Sources(to)
  {
  }

  lemma ReleasingTransposes(from: Stage, to: Stage)
    requires !Designing(to) && !Building(to) && !Operating(to) && !Ending(to) && !Stopping(to)
    ensures to in Targets(from) <==> from in Sources(to)
  {
  }

  // No transition leaves a rejected, expired, closed, cancelled, rolled back or disabled initiative.
  lemma FinalStages(s: State, t: Call)
    requires t.op.Transition? && t.op.initiative in s.initiatives
    requires s.initiatives[t.op.initiative] in {EvaluationRejected, ReleaseRejected, ReleaseExpired, Closed, Cancelled,
                                                RolledBack, Disabled, Blocked}
    ensures !Accepts(s, t.op, t.now)
  {
    hide GateHolds;
  }

  lemma MovesLawful(calls: seq<Call>, i: string)
    ensures Lawful(i, Moves(EMPTY, calls, i)) && Explains(Run(EMPTY, calls), i, Moves(EMPTY, calls, i))
  {
    ExplainsRun(EMPTY, calls, i, []);
    assert [] + Moves(EMPTY, calls, i) == Moves(EMPTY, calls, i);
  }

  // The stages in which an initiative can be without ever having been a release candidate.
  predicate BeforeRelease(s: Stage) {
    s in {Discovery, GoalReview, DesignDraft, DesignReview, SpecReady, EvalContractApproved, BaselineRecorded,
          ApprovedForBuild, Implementation, IndependentEvaluation, EvaluationRejected, Cancelled}
  }

  lemma {:induction false} CandidateOrBefore(i: string, moves: seq<Move>)
    requires Lawful(i, moves)
    ensures BeforeRelease(Reached(moves)) || exists j :: 0 <= j < |moves| && moves[j].target == ReleaseCandidate
    decreases |moves|
  {
    if moves == [] {
    } else {
      var n := |moves| - 1;
      assert Legal(i, moves, n);
      forall k | 0 <= k < n ensures Legal(i, moves[..n], k) {
        assert Legal(i, moves, k) && moves[..n][..k] == moves[..k];
      }
      CandidateOrBefore(i, moves[..n]);
      if BeforeRelease(Reached(moves[..n])) {
        assert moves[n].target == ReleaseCandidate || BeforeRelease(moves[n].target);
      } else {
        var j :| 0 <= j < n && moves[..n][j].target == ReleaseCandidate;
        assert moves[j].target == ReleaseCandidate;
      }
    }
  }

  lemma CandidateForced(i: string, m: seq<Move>, k: nat)
    requires Lawful(i, m) && k < |m| && m[k].target == EnabledOrDeployed
    ensures exists j :: 0 <= j < k && m[j].target == ReleaseCandidate
  {
    forall n | 0 <= n < k ensures Legal(i, m[..k], n) {
      assert Legal(i, m, n) && m[..k][..n] == m[..n];
    }
    CandidateOrBefore(i, m[..k]);
    assert Legal(i, m, k);
    var j :| 0 <= j < k && m[..k][j].target == ReleaseCandidate;
    assert m[j].target == ReleaseCandidate;
  }

  // Every entry to `enabled_or_deployed` comes after one to `release_candidate`.
  lemma DeployedAfterCandidate(calls: seq<Call>, i: string, k: nat)
    requires k < |Moves(EMPTY, calls, i)| && Moves(EMPTY, calls, i)[k].target == EnabledOrDeployed
    ensures exists j :: 0 <= j < k && Moves(EMPTY, calls, i)[j].target == ReleaseCandidate
  {
    MovesLawful(calls, i);
    hide Moves, Lawful;
    CandidateForced(i, Moves(EMPTY, calls, i), k);
  }

  // The stored status, outside blocks, is the stage reached.
  lemma StatusIsReached(calls: seq<Call>, i: string)
    requires i in Run(EMPTY, calls).initiatives && Run(EMPTY, calls).initiatives[i] != Blocked
    ensures Run(EMPTY, calls).initiatives[i] == Reached(Moves(EMPTY, calls, i))
  {
    MovesLawful(calls, i);
  }

  // --- Blocks ------------------------------------------------------------------------------------

  // Resuming right after a block restores the stage that was blocked, whatever it was.
  lemma ResumeUndoesBlock(s: State, i: string, reason: string, resumeState: Stage, now: int, later: int)
    requires Accepts(s, Op.Block(i, reason, resumeState), now)
    ensures var blocked := Step(s, Call(Op.Block(i, reason, resumeState), now));
            var n := Step(blocked, Call(Op.Resume(i), later));
            n.initiatives == s.initiatives && n.blocks == s.blocks - {i} && n.artifacts == s.artifacts
            && n.gates == s.gates
  {
    var blocked := Step(s, Call(Op.Block(i, reason, resumeState), now));
    var n := Step(blocked, Call(Op.Resume(i), later));
    assert n.initiatives == s.initiatives && n.blocks == s.blocks - {i};
  }

  // A blocked initiative leaves `blocked` by a resumption only, to the stage recorded for it.
  lemma OnlyResumeUnblocks(s: State, c: Call, i: string)
    requires i in s.initiatives && s.initiatives[i] == Blocked
    ensures i in Step(s, c).initiatives
    ensures Step(s, c).initiatives[i] != Blocked
            <==> c.op == Op.Resume(i) && i in s.blocks && s.blocks[i] != Blocked
    ensures Step(s, c).initiatives[i] != Blocked ==> Step(s, c).initiatives[i] == s.blocks[i]
  {
  }

  // A blocked initiative that would resume to `blocked`, or has nothing to resume to.
  predicate Stuck(s: State, i: string) {
    i in s.initiatives && s.initiatives[i] == Blocked && (i in s.blocks ==> s.blocks[i] == Blocked)
  }

  // `block` accepts an initiative that is blocked already, and then nothing ever moves it again.
  lemma SecondBlockSticks(s: State, i: string, reason: string, now: int)
    requires i in s.initiatives && s.initiatives[i] == Blocked && reason != ""
    ensures Accepts(s, Op.Block(i, reason, Blocked), now)
    ensures Stuck(Step(s, Call(Op.Block(i, reason, Blocked), now)), i)
  {
  }

  lemma StuckStep(s: State, c: Call, i: string)
    requires Stuck(s, i)
    ensures Stuck(Step(s, c), i)
  {
  }

  lemma {:induction false} StuckForever(s: State, calls: seq<Call>, i: string)
    requires Stuck(s, i)
    ensures Stuck(Run(s, calls), i)
    decreases |calls|
  {
    if calls == [] {
    } else {
      StuckStep(s, calls[0], i);
      StuckForever(Step(s, calls[0]), calls[1..], i);
    }
  }
}
