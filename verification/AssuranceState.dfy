/** The tables of the assurance kernel, and what each of its operations does to them. */
module AssuranceState {
  import opened Common
  import opened LifecycleChain

  // --- Tables ----------------------------------------------------------------------------------------

  datatype Digest = Sha(body: string) | OtherDigest(text: string)

  // An artifact version together with its lifecycle rows.
  datatype Artifact = Artifact(initiative: string, kind: string, owner: string, body: string, digest: Digest,
                               status: Status, lifecycle: seq<Entry>)

  datatype Link = Link(initiative: string, source: string, relation: string, target: string)

  // An edge of a design manifest.
  datatype Dependency = Dependency(source: string, relation: string, target: string)

  datatype Stage =
    | Discovery | GoalReview | DesignDraft | DesignReview | SpecReady | EvalContractApproved | BaselineRecorded
    | ApprovedForBuild | Implementation | IndependentEvaluation | EvaluationRejected | ReleaseCandidate
    | ReleaseDecision | ReleaseRejected | ReleaseApproved | ReleaseApprovedConditional | ConditionsVerified
    | ReleaseExpired | EnabledOrDeployed | OutcomeObservation | Closed | Reopened | IncidentDeclared
    | RollbackInProgress | RolledBack | Disabled | IncidentResolved | Cancelled | Blocked

  datatype GateName = G0 | G1 | G2 | G3 | G4 | G5 | G6 | G7

  datatype Decision = Pass | PassWithConditions | Return | BlockedDecision | Reject

  // Hash of the canonical list of the approved references and their digests.
  datatype SetDigest = SetSha(entries: map<Ref, Digest>)

  datatype Expiry = Never | At(time: int) | WithoutZone

  datatype Gate = Gate(initiative: string, name: GateName, decision: Decision, digest: SetDigest, expiry: Expiry)

  datatype State = State(artifacts: map<Ref, Artifact>, links: seq<Link>, initiatives: map<string, Stage>,
                         blocks: map<string, Stage>, gates: seq<Gate>)

  // --- The lifecycle graph --------------------------------------------------------------------------

  // LIFECYCLE_TRANSITIONS
  function Targets(s: Stage): set<Stage> {
    match s
    case Discovery => {GoalReview, Cancelled}
    case GoalReview => {DesignDraft, Discovery, Cancelled}
    case DesignDraft => {DesignReview, Discovery, Cancelled}
    case DesignReview => {SpecReady, DesignDraft, Cancelled}
    case SpecReady => {EvalContractApproved, DesignDraft, Cancelled}
    case EvalContractApproved => {BaselineRecorded, DesignDraft, Cancelled}
    case BaselineRecorded => {ApprovedForBuild, DesignDraft, Cancelled}
    case ApprovedForBuild => {Implementation, Cancelled}
    case Implementation => {IndependentEvaluation, Cancelled}
    case IndependentEvaluation => {Implementation, DesignDraft, EvaluationRejected, ReleaseCandidate}
    case ReleaseCandidate => {ReleaseDecision, IncidentDeclared}
    case ReleaseDecision => {ReleaseRejected, ReleaseApproved, ReleaseApprovedConditional}
    case ReleaseApproved => {EnabledOrDeployed}
    case ReleaseApprovedConditional => {ConditionsVerified, ReleaseExpired}
    case ConditionsVerified => {EnabledOrDeployed}
    case EnabledOrDeployed => {OutcomeObservation, IncidentDeclared}
    case OutcomeObservation => {Closed, IncidentDeclared, Reopened}
    case IncidentDeclared => {RollbackInProgress}
    case RollbackInProgress => {RolledBack, Disabled, IncidentResolved}
    case IncidentResolved => {EnabledOrDeployed, OutcomeObservation, Closed, Reopened}
    case Reopened => {Discovery, DesignDraft}
    case _ => {}
  }

  // GATE_FOR_TARGET
  function GateFor(target: Stage): Option<GateName> {
    match target
    case GoalReview => Some(G0)
    case DesignReview => Some(G1)
    case EvalContractApproved => Some(G2)
    case BaselineRecorded => Some(G3)
    case ApprovedForBuild => Some(G4)
    case ReleaseCandidate => Some(G5)
    case ReleaseApproved => Some(G6)
    case ReleaseApprovedConditional => Some(G6)
    case Closed => Some(G7)
    case _ => None
  }

  // Stages whose entry also needs a review bound to the latest trusted evaluation.
  predicate Release(target: Stage) {
    target in {ReleaseCandidate, ReleaseDecision, ReleaseApproved, ReleaseApprovedConditional, ConditionsVerified,
               EnabledOrDeployed}
  }

  // GATE_REQUIRED_KINDS
  function RequiredKinds(g: GateName): set<string> {
    match g
    case G0 => {"goal_contract"}
    case G1 => {"goal_contract", "design_record"}
    case G2 => {"goal_contract", "design_record", "behavior_spec", "eval_contract"}
    case G3 => {"baseline_report", "eval_contract"}
    case G4 => {"goal_contract", "design_record", "behavior_spec", "eval_contract", "baseline_report",
                "design_manifest"}
    case G5 => {"review_decision", "eval_contract"}
    case G6 => {"review_decision", "release_decision"}
    case G7 => {"review_decision"}
  }

  // --- Artifacts -----------------------------------------------------------------------------------

  // A status change with its lifecycle row.
  function Changed(r: Ref, a: Artifact, to: Status, at: int, actor: string, reason: string): Artifact {
    a.(status := to, lifecycle := a.lifecycle + [NextEntry(a.lifecycle, r, Some(a.status), to, at, actor, reason)])
  }

  function Registered(r: Ref, initiative: string, kind: string, owner: string, body: string, at: int): Artifact {
    Artifact(initiative, kind, owner, body, Sha(body), Draft,
             [NextEntry([], r, None, Draft, at, owner, "artifact registered")])
  }

  predicate BodyIntact(a: Artifact) {
    a.digest == Sha(a.body)
  }

  // The approved versions of an initiative.
  function ApprovedSet(s: State, initiative: string): map<Ref, Digest> {
    map r | r in s.artifacts && s.artifacts[r].initiative == initiative && s.artifacts[r].status == Approved
      :: s.artifacts[r].digest
  }

  predicate BodiesIntact(s: State, initiative: string) {
    forall r <- ApprovedSet(s, initiative).Keys :: BodyIntact(s.artifacts[r])
  }

  // --- Dependencies ----------------------------------------------------------------------------------

  predicate Edge(links: seq<Link>, source: string, target: string) {
    exists i :: 0 <= i < |links| && links[i].source == source && links[i].target == target
  }

  predicate Path(links: seq<Link>, p: seq<string>) {
    forall i :: 0 <= i < |p| - 1 ==> Edge(links, p[i], p[i + 1])
  }

  // One or more links lead from the source to the target.
  ghost predicate Depends(links: seq<Link>, source: string, target: string) {
    exists p :: |p| >= 2 && p[0] == source && p[|p| - 1] == target && Path(links, p)
  }

  lemma DependsStep(links: seq<Link>, source: string, middle: string, target: string)
    requires middle == source || Depends(links, source, middle)
    requires Edge(links, middle, target)
    ensures Depends(links, source, target)
  {
    if middle == source {
      assert Path(links, [source, target]);
    } else {
      var p :| |p| >= 2 && p[0] == source && p[|p| - 1] == middle && Path(links, p);
      assert Path(links, p + [target]);
    }
  }

  // A set closed under links contains every dependent of its members.
  lemma {:induction false} ClosedUnderPaths(links: seq<Link>, closed: set<string>, p: seq<string>)
    requires p != [] && p[0] in closed && Path(links, p)
    requires forall i :: 0 <= i < |links| && links[i].source in closed ==> links[i].target in closed
    ensures p[|p| - 1] in closed
    decreases |p|
  {
    if |p| <= 1 {
    } else {
      assert Edge(links, p[0], p[1]);
      assert Path(links, p[1..]) by {
        forall i | 0 <= i < |p| - 2 ensures Edge(links, p[1..][i], p[1..][i + 1]) {
          assert Edge(links, p[i + 1], p[i + 1 + 1]);
        }
      }
      ClosedUnderPaths(links, closed, p[1..]);
    }
  }

  // The versions a supersession makes stale.
  ghost predicate Invalidated(s: State, source: string, r: Ref) {
    r in s.artifacts && s.artifacts[r].status == Approved && r.id != source && Depends(s.links, source, r.id)
  }

  function StaleReason(r: Ref): string {
    "dependency " + r.id + ":v" + DecimalText(r.version) + " superseded"
  }

  ghost function Superseding(s: State, r: Ref, q: Ref, at: int, actor: string, reason: string): Artifact
    requires q in s.artifacts
  {
    if q == r then Changed(q, s.artifacts[q], Superseded, at, actor, reason)
    else if Invalidated(s, r.id, q) then Changed(q, s.artifacts[q], Stale, at, actor, StaleReason(r))
    else s.artifacts[q]
  }

  // --- Operations ---------------------------------------------------------------------------------

  // Booleans stand for checks on what lies outside these tables: artifact validation, review
  // contents and trusted evaluations.
  datatype Op =
    | Create(initiative: string)
    | Register(artifact: Ref, initiative: string, kind: string, owner: string, body: string, edges: seq<Dependency>,
               valid: bool)
    | Approve(artifact: Ref, principal: string)
    | Supersede(artifact: Ref, principal: string, reason: string)
    | RecordGate(initiative: string, name: GateName, decision: Decision, refs: seq<Ref>, principal: string,
                 conditions: bool, expiry: Expiry, contentsPass: bool)
    | Transition(initiative: string, target: Stage, trusted: bool)
    | Block(initiative: string, reason: string, resumeState: Stage)
    | Resume(initiative: string)

  function LinkOf(initiative: string, e: Dependency): Link {
    Link(initiative, e.source, e.relation, e.target)
  }

  function LinksOf(initiative: string, edges: seq<Dependency>): (links: seq<Link>)
    ensures |links| == |edges| && forall i :: 0 <= i < |edges| ==> links[i] == LinkOf(initiative, edges[i])
  {
    seq(|edges|, i requires 0 <= i < |edges| => LinkOf(initiative, edges[i]))
  }

  // UNIQUE(initiative, source, relation, target)
  predicate NewLinks(links: seq<Link>, initiative: string, edges: seq<Dependency>) {
    && (forall e <- edges :: LinkOf(initiative, e) !in links)
    && forall i, j :: 0 <= i < j < |edges| ==> edges[i] != edges[j]
  }

  function Latest(gates: seq<Gate>, initiative: string, name: GateName): Option<nat> {
    if gates == [] then None
    else if gates[|gates| - 1].initiative == initiative && gates[|gates| - 1].name == name then Some(|gates| - 1)
    else Latest(gates[..|gates| - 1], initiative, name)
  }

  predicate Passing(d: Decision) {
    d == Pass || d == PassWithConditions
  }

  predicate Unexpired(e: Expiry, now: int) {
    e.Never? || (e.At? && e.time > now)
  }

  // The gate row g lets a transition of its initiative through at this moment.
  predicate Authorises(s: State, g: nat, now: int) {
    g < |s.gates| && Passing(s.gates[g].decision) && Unexpired(s.gates[g].expiry, now)
    && BodiesIntact(s, s.gates[g].initiative) && s.gates[g].digest == SetSha(ApprovedSet(s, s.gates[g].initiative))
  }

  predicate GateHolds(s: State, initiative: string, target: Stage, now: int) {
    GateFor(target).Some? ==>
      var g := Latest(s.gates, initiative, GateFor(target).value);
      g.Some? && Authorises(s, g.value, now)
  }

  function Kinds(s: State, initiative: string): set<string> {
    set r | r in ApprovedSet(s, initiative) :: s.artifacts[r].kind
  }

  predicate Accepts(s: State, op: Op, now: int) {
    match op
    case Create(i) => i !in s.initiatives
    case Register(r, i, _, _, _, edges, valid) => valid && r !in s.artifacts && NewLinks(s.links, i, edges)
    case Approve(r, principal) =>
      r in s.artifacts && s.artifacts[r].owner != principal && s.artifacts[r].status == Draft
      && BodyIntact(s.artifacts[r])
    case Supersede(r, _, reason) => reason != "" && r in s.artifacts && s.artifacts[r].status == Approved
    case RecordGate(i, name, decision, refs, principal, conditions, expiry, contentsPass) =>
      && refs != [] && (decision == PassWithConditions ==> conditions && !expiry.Never?)
      && (forall r <- refs :: r in s.artifacts && s.artifacts[r].initiative == i && s.artifacts[r].status == Approved
                              && s.artifacts[r].owner != principal)
      && RequiredKinds(name) <= Kinds(s, i) && BodiesIntact(s, i) && contentsPass
      && (set r | r in refs) == ApprovedSet(s, i).Keys
    case Transition(i, target, trusted) =>
      && i in s.initiatives && GateHolds(s, i, target, now) && target in Targets(s.initiatives[i])
      && ((Release(target) || GateFor(target) in {Some(G5), Some(G6)}) ==> trusted)
    case Block(i, reason, resumeState) => i in s.initiatives && s.initiatives[i] == resumeState && reason != ""
    case Resume(i) => i in s.initiatives && i in s.blocks && s.initiatives[i] == Blocked
  }

  ghost function Next(s: State, op: Op, now: int): State
    requires Accepts(s, op, now)
  {
    match op
    case Create(i) => s.(initiatives := s.initiatives[i := Discovery])
    case Register(r, i, kind, owner, body, edges, _) =>
      s.(artifacts := s.artifacts[r := Registered(r, i, kind, owner, body, now)], links := s.links + LinksOf(i, edges),
         initiatives := if i in s.initiatives then s.initiatives else s.initiatives[i := Discovery])
    case Approve(r, principal) =>
      s.(artifacts := s.artifacts[r := Changed(r, s.artifacts[r], Approved, now, principal, "artifact approved")])
    case Supersede(r, principal, reason) =>
      s.(artifacts := map q | q in s.artifacts :: Superseding(s, r, q, now, principal, reason))
    case RecordGate(i, name, decision, _, _, _, expiry, _) =>
      s.(gates := s.gates + [Gate(i, name, decision, SetSha(ApprovedSet(s, i)), expiry)])
    case Transition(i, target, _) => s.(initiatives := s.initiatives[i := target])
    case Block(i, _, resumeState) =>
      s.(initiatives := s.initiatives[i := Blocked], blocks := s.blocks[i := resumeState])
    case Resume(i) => s.(initiatives := s.initiatives[i := s.blocks[i]], blocks := s.blocks - {i})
  }

  datatype Call = Call(op: Op, now: int)

  ghost function Step(s: State, c: Call): State {
    if Accepts(s, c.op, c.now) then Next(s, c.op, c.now) else s
  }

  ghost function Run(s: State, calls: seq<Call>): State
    decreases |calls|
  {
    if calls == [] then s else Run(Step(s, calls[0]), calls[1..])
  }

  const EMPTY := State(map[], [], map[], map[], [])
}
