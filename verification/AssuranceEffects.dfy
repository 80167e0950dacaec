/**
 What the operations of the assurance kernel mean for their callers: the decision a gate row
 stores and how long it binds, and what registration, approval and supersession record.
 */
module AssuranceEffects {
  import opened Common
  import opened LifecycleChain
  import opened AssuranceState
  import opened AssuranceSafety

  // --- Gate decisions --------------------------------------------------------------------------------

  // Recording appends one row with the decision and the expiry as given, bound to the approved
  // set; from then on it is the latest decision of its gate.
  lemma GateStoresDecision(s: State, c: Call)
    requires c.op.RecordGate? && Accepts(s, c.op, c.now)
    ensures var n, g := Step(s, c), |s.gates|;
            && n == s.(gates := n.gates) && |n.gates| == g + 1 && n.gates[..g] == s.gates
            && n.gates[g].initiative == c.op.initiative && n.gates[g].name == c.op.name
            && n.gates[g].decision == c.op.decision && n.gates[g].expiry == c.op.expiry
            && n.gates[g].digest == SetSha(ApprovedSet(s, c.op.initiative))
            && Latest(n.gates, c.op.initiative, c.op.name) == Some(g)
  {
    hide RequiredKinds, Kinds, BodiesIntact;
  }

  // A decision is about the whole approved set and nothing else, by someone who owns none of it;
  // a conditional pass names its conditions and ends.
  lemma GateNeeds(s: State, c: Call, r: Ref)
    requires c.op.RecordGate? && Accepts(s, c.op, c.now)
    ensures c.op.contentsPass && c.op.refs != []
    ensures c.op.decision == PassWithConditions ==> c.op.conditions && c.op.expiry != Never
    ensures r in c.op.refs <==> r in s.artifacts && s.artifacts[r].status == Approved
                                && s.artifacts[r].initiative == c.op.initiative
    ensures r in c.op.refs ==>
              s.artifacts[r].owner != c.op.principal && s.artifacts[r].digest == Sha(s.artifacts[r].body)
  {
    hide RequiredKinds, Kinds;
    assert r in c.op.refs <==> r in set q | q in c.op.refs;
    assert r in c.op.refs <==> r in ApprovedSet(s, c.op.initiative).Keys;
  }

  /**
   Right after it is recorded, a decision lets its gate be passed exactly if it is a pass, with
   or without conditions, and has no expiry or one that still lies ahead.
   */
  lemma DecisionDecides(s: State, c: Call, now: int)
    requires c.op.RecordGate? && Accepts(s, c.op, c.now)
    ensures Authorises(Step(s, c), |s.gates|, now)
            <==> (c.op.decision == Pass || c.op.decision == PassWithConditions)
                 && (c.op.expiry == Never || (c.op.expiry.At? && now < c.op.expiry.time))
  {
    hide RequiredKinds, Kinds;
    GateStoresDecision(s, c);
    assert ApprovedSet(Step(s, c), c.op.initiative) == ApprovedSet(s, c.op.initiative);
  }

  // The approved set a gate binds: the approved versions of its initiative with their digests.
  lemma ApprovedSetMeans(s: State, i: string, r: Ref)
    ensures r in ApprovedSet(s, i)
            <==> r in s.artifacts && s.artifacts[r].status == Approved && s.artifacts[r].initiative == i
    ensures r in ApprovedSet(s, i) ==> ApprovedSet(s, i)[r] == s.artifacts[r].digest
  {
  }

  // When a gate row lets a transition through: it passed, has not expired, binds the approved set
  // as it is now, and no approved body of the initiative was changed.
  lemma LiveGateMeans(s: State, g: nat, now: int)
    requires g < |s.gates|
    ensures var gate := s.gates[g];
            Authorises(s, g, now)
            <==> && (gate.decision == Pass || gate.decision == PassWithConditions)
                 && (gate.expiry == Never || (gate.expiry.At? && now < gate.expiry.time))
                 && gate.digest == SetSha(ApprovedSet(s, gate.initiative))
                 && forall r <- s.artifacts.Keys ::
                      s.artifacts[r].status == Approved && s.artifacts[r].initiative == gate.initiative ==>
                        s.artifacts[r].digest == Sha(s.artifacts[r].body)
  {
    assert forall r :: r in ApprovedSet(s, s.gates[g].initiative).Keys
                       <==> r in s.artifacts.Keys && s.artifacts[r].status == Approved
                            && s.artifacts[r].initiative == s.gates[g].initiative;
  }

  // Another decision of the same gate in the same initiative.
  predicate Redecides(s: State, c: Call, i: string, name: GateName) {
    c.op.RecordGate? && c.op.initiative == i && c.op.name == name && Accepts(s, c.op, c.now)
  }

  ghost predicate Redecided(s: State, calls: seq<Call>, i: string, name: GateName)
    decreases |calls|
  {
    calls != [] && (Redecides(s, calls[0], i, name) || Redecided(Step(s, calls[0]), calls[1..], i, name))
  }

  lemma LatestStays(s: State, c: Call, i: string, name: GateName)
    requires !Redecides(s, c, i, name)
    ensures Latest(Step(s, c).gates, i, name) == Latest(s.gates, i, name)
  {
    if c.op.RecordGate? && Accepts(s, c.op, c.now) {
      GateStoresDecision(s, c);
      hide Accepts, Step;
      var n := Step(s, c);
      assert n.gates[..|n.gates| - 1] == s.gates;
    } else {
      OtherCallsKeepGates(s, c);
    }
  }

  lemma OtherCallsKeepGates(s: State, c: Call)
    requires !c.op.RecordGate? || !Accepts(s, c.op, c.now)
    ensures Step(s, c).gates == s.gates
  {
    hide RequiredKinds, GateHolds;
  }

  lemma {:induction false} LatestStaysRun(s: State, calls: seq<Call>, i: string, name: GateName, g: nat)
    requires !Redecided(s, calls, i, name)
    ensures Latest(Run(s, calls).gates, i, name) == Latest(s.gates, i, name)
    ensures KeepsGate(s, Run(s, calls), g)
    decreases |calls|
  {
    hide Step, Redecides, Latest;
    if calls == [] {
    } else {
      LatestStays(s, calls[0], i, name);
      GatesStay(s, calls[0], g);
      LatestStaysRun(Step(s, calls[0]), calls[1..], i, name, g);
    }
  }

  /**
   A negative decision stands. After a gate was returned, blocked or rejected, no transition
   behind it is accepted in any continuation in which nobody decides that gate of that
   initiative again. A passing decision stops working in the same way when it expires.
   */
  lemma NegativeDecisionStands(s: State, c: Call, after: seq<Call>, t: Call)
    requires c.op.RecordGate? && Accepts(s, c.op, c.now)
    requires c.op.decision == Return || c.op.decision == BlockedDecision || c.op.decision == Reject
             || c.op.expiry == WithoutZone || (c.op.expiry.At? && c.op.expiry.time <= t.now)
    requires !Redecided(Step(s, c), after, c.op.initiative, c.op.name)
    requires t.op.Transition? && t.op.initiative == c.op.initiative && GateFor(t.op.target) == Some(c.op.name)
    ensures !Accepts(Run(Step(s, c), after), t.op, t.now)
  {
    var g := |s.gates|;
    GateStoresDecision(s, c);
    hide Step, Run, Latest, GateFor, RequiredKinds;
    LatestStaysRun(Step(s, c), after, c.op.initiative, c.op.name, g);
    assert Run(Step(s, c), after).gates[g] == Step(s, c).gates[g];
  }

  // Which transitions need which gate, and which need a trusted evaluation as well.
  lemma GatedTransitions(s: State, t: Call)
    requires t.op.Transition? && Accepts(s, t.op, t.now)
    ensures var g := match t.op.target
                     case GoalReview => Some(G0)
                     case DesignReview => Some(G1)
                     case EvalContractApproved => Some(G2)
                     case BaselineRecorded => Some(G3)
                     case ApprovedForBuild => Some(G4)
                     case ReleaseCandidate => Some(G5)
                     case ReleaseApproved => Some(G6)
                     case ReleaseApprovedConditional => Some(G6)
                     case Closed => Some(G7)
                     case _ => None;
            g.Some? ==> var latest := Latest(s.gates, t.op.initiative, g.value);
                        latest.Some? && Authorises(s, latest.value, t.now)
    ensures (t.op.target in {ReleaseCandidate, ReleaseDecision, ReleaseApproved, ReleaseApprovedConditional,
                             ConditionsVerified, EnabledOrDeployed}) ==> t.op.trusted
    ensures Step(s, t) == s.(initiatives := s.initiatives[t.op.initiative := t.op.target])
  {
    hide Latest, Authorises, Targets;
  }

  // A decision on a gate needs approved versions of every kind the gate is about, by others.
  lemma GateNeedsKinds(s: State, c: Call, kind: string)
    requires c.op.RecordGate? && Accepts(s, c.op, c.now)
    requires || (c.op.name in {G0, G1, G2, G4} && kind == "goal_contract")
             || (c.op.name in {G1, G2, G4} && kind == "design_record")
             || (c.op.name in {G2, G4} && kind == "behavior_spec")
             || (c.op.name in {G2, G3, G4, G5} && kind == "eval_contract")
             || (c.op.name in {G3, G4} && kind == "baseline_report")
             || (c.op.name == G4 && kind == "design_manifest")
             || (c.op.name in {G5, G6, G7} && kind == "review_decision")
             || (c.op.name == G6 && kind == "release_decision")
    ensures exists r <- s.artifacts.Keys ::
              s.artifacts[r].kind == kind && s.artifacts[r].status == Approved
              && s.artifacts[r].initiative == c.op.initiative && s.artifacts[r].owner != c.op.principal
  {
    hide BodiesIntact;
    assert kind in RequiredKinds(c.op.name);
    hide RequiredKinds;
    assert kind in Kinds(s, c.op.initiative);
    var r :| r in ApprovedSet(s, c.op.initiative) && s.artifacts[r].kind == kind;
    assert r in ApprovedSet(s, c.op.initiative).Keys;
    assert r in set q | q in c.op.refs;
  }

  // A decision is accepted exactly under these conditions: it names the whole approved set, nothing of
  // it is the decider's or was changed, and every kind the gate is about is among it.
  lemma GateAccepted(s: State, c: Call)
    requires c.op.RecordGate?
    ensures Accepts(s, c.op, c.now)
            <==> && c.op.contentsPass && c.op.refs != []
                 && (c.op.decision == PassWithConditions ==> c.op.conditions && c.op.expiry != Never)
                 && (forall r :: r in c.op.refs <==> Approves(s, c.op.initiative, r))
                 && (forall r <- c.op.refs :: r in s.artifacts && s.artifacts[r].owner != c.op.principal
                                              && s.artifacts[r].digest == Sha(s.artifacts[r].body))
                 && forall kind :: NeedsKind(c.op.name, kind) ==>
                                     exists r <- s.artifacts.Keys :: Approves(s, c.op.initiative, r)
                                                                     && s.artifacts[r].kind == kind
  {
    var i := c.op.initiative;
    forall r ensures r in ApprovedSet(s, i).Keys <==> Approves(s, i, r) {
    }
    forall kind ensures kind in RequiredKinds(c.op.name) <==> NeedsKind(c.op.name, kind) {
    }
    forall kind ensures kind in Kinds(s, i)
                        <==> exists r <- s.artifacts.Keys :: Approves(s, i, r) && s.artifacts[r].kind == kind
    {
      KindsMean(s, i, kind);
    }
    assert forall r :: r in (set q | q in c.op.refs) <==> r in c.op.refs;
    hide RequiredKinds, Kinds, ApprovedSet, NeedsKind;
  }

  // An approved version of the initiative.
  predicate Approves(s: State, i: string, r: Ref) {
    r in s.artifacts && s.artifacts[r].initiative == i && s.artifacts[r].status == Approved
  }

  lemma KindsMean(s: State, i: string, kind: string)
    ensures kind in Kinds(s, i) <==> exists r <- s.artifacts.Keys :: Approves(s, i, r) && s.artifacts[r].kind == kind
  {
    if exists r <- s.artifacts.Keys :: Approves(s, i, r) && s.artifacts[r].kind == kind {
      var r :| r in s.artifacts.Keys && Approves(s, i, r) && s.artifacts[r].kind == kind;
      assert r in ApprovedSet(s, i);
    }
  }

  // Which gate is about which kind, kind by kind.
  predicate NeedsKind(name: GateName, kind: string) {
    || (kind == "goal_contract" && name in {G0, G1, G2, G4})
    || (kind == "design_record" && name in {G1, G2, G4})
    || (kind == "behavior_spec" && name in {G2, G4})
    || (kind == "eval_contract" && name in {G2, G3, G4, G5})
    || (kind == "baseline_report" && name in {G3, G4})
    || (kind == "design_manifest" && name == G4)
    || (kind == "review_decision" && name in {G5, G6, G7})
    || (kind == "release_decision" && name == G6)
  }

  // A transition is accepted exactly if the graph has it, its gate is open, and what is released or
  // evaluated is trusted.
  lemma TransitionAccepted(s: State, c: Call)
    requires c.op.Transition?
    ensures Accepts(s, c.op, c.now)
            <==> && c.op.initiative in s.initiatives && c.op.target in Targets(s.initiatives[c.op.initiative])
                 && (GateFor(c.op.target) == None
                     || (GateFor(c.op.target).Some?
                         && var g := Latest(s.gates, c.op.initiative, GateFor(c.op.target).value);
                            g.Some? && Authorises(s, g.value, c.now)))
                 && ((c.op.target in {ReleaseCandidate, ReleaseDecision, ReleaseApproved, ReleaseApprovedConditional,
                                      ConditionsVerified, EnabledOrDeployed}) ==> c.op.trusted)
  {
    hide Targets, Latest, Authorises;
  }

  // Which stage is entered under which gate; all others are entered without one.
  lemma GatedStages(target: Stage, name: GateName)
    ensures GateFor(target) == Some(name)
            <==> || (target == GoalReview && name == G0) || (target == DesignReview && name == G1)
                 || (target == EvalContractApproved && name == G2) || (target == BaselineRecorded && name == G3)
                 || (target == ApprovedForBuild && name == G4) || (target == ReleaseCandidate && name == G5)
                 || (target == ReleaseApproved && name == G6) || (target == ReleaseApprovedConditional && name == G6)
                 || (target == Closed && name == G7)
  {
  }

  // --- Artifacts -------------------------------------------------------------------------------------

  // The last lifecycle row of an artifact version says what was changed, by whom and why.
  predicate LastChange(a: Artifact, from: Option<Status>, to: Status, at: int, actor: string, reason: string) {
    a.status == to && a.lifecycle != []
    && var c := a.lifecycle[|a.lifecycle| - 1].change;
       c.from == from && c.to == to && c.at == at && c.actor == actor && c.reason == reason
  }

  predicate SameContent(a: Artifact, b: Artifact) {
    a.initiative == b.initiative && a.kind == b.kind && a.owner == b.owner && a.body == b.body && a.digest == b.digest
  }

  lemma RegistrationStores(s: State, c: Call)
    requires c.op.Register? && Accepts(s, c.op, c.now)
    ensures c.op.valid && c.op.artifact !in s.artifacts
    ensures var n, r, i := Step(s, c), c.op.artifact, c.op.initiative;
            && r in n.artifacts && n.artifacts == s.artifacts[r := n.artifacts[r]]
            && n.artifacts[r].initiative == i && n.artifacts[r].kind == c.op.kind && n.artifacts[r].owner == c.op.owner
            && n.artifacts[r].body == c.op.body && n.artifacts[r].digest == Sha(c.op.body)
            && |n.artifacts[r].lifecycle| == 1
            && LastChange(n.artifacts[r], None, Draft, c.now, c.op.owner, "artifact registered")
            && |n.links| == |s.links| + |c.op.edges| && n.links[..|s.links|] == s.links
            && (forall k :: 0 <= k < |c.op.edges| ==>
                  n.links[|s.links| + k] == Link(i, c.op.edges[k].source, c.op.edges[k].relation, c.op.edges[k].target))
            && i in n.initiatives && (i !in s.initiatives ==> n.initiatives[i] == Discovery)
            && (forall j <- s.initiatives.Keys :: j in n.initiatives && n.initiatives[j] == s.initiatives[j])
            && n.blocks == s.blocks && n.gates == s.gates
  {
    assert [] + [NextEntry([], c.op.artifact, None, Draft, c.now, c.op.owner, "artifact registered")]
           == [NextEntry([], c.op.artifact, None, Draft, c.now, c.op.owner, "artifact registered")];
  }

  predicate DistinctLinks(s: State) {
    forall j, k :: 0 <= j < k < |s.links| ==> s.links[j] != s.links[k]
  }

  lemma DistinctLinksStep(s: State, c: Call)
    requires DistinctLinks(s)
    ensures DistinctLinks(Step(s, c))
  {
    hide RequiredKinds, Kinds, BodiesIntact, GateHolds;
    if c.op.Register? && Accepts(s, c.op, c.now) {
      var n := |s.links|;
      forall j, k | 0 <= j < k < n + |c.op.edges| ensures Step(s, c).links[j] != Step(s, c).links[k] {
        if j < n <= k {
          assert c.op.edges[k - n] in c.op.edges && s.links[j] in s.links;
        }
      }
    }
  }

  // In every reachable state no link of an initiative is stored twice.
  lemma {:induction false} LinksDistinct(s: State, calls: seq<Call>)
    requires DistinctLinks(s)
    ensures DistinctLinks(Run(s, calls))
    decreases |calls|
  {
    hide Step, DistinctLinks;
    if calls == [] {
    } else {
      DistinctLinksStep(s, calls[0]);
      LinksDistinct(Step(s, calls[0]), calls[1..]);
    }
  }

  // A registration is refused exactly if the version exists, an edge repeats a link of the
  // initiative or another edge, or the artifact itself is invalid.
  lemma RegistrationNeeds(s: State, c: Call)
    requires c.op.Register?
    ensures Accepts(s, c.op, c.now)
            <==> && c.op.valid && c.op.artifact !in s.artifacts
                 && (forall e <- c.op.edges ::
                       Link(c.op.initiative, e.source, e.relation, e.target) !in s.links)
                 && forall j, k :: 0 <= j < k < |c.op.edges| ==> c.op.edges[j] != c.op.edges[k]
  {
  }

  // An approval turns a draft of another owner into an approved version, and nothing else.
  lemma ApprovalStores(s: State, c: Call)
    requires c.op.Approve? && Accepts(s, c.op, c.now)
    ensures c.op.artifact in s.artifacts && s.artifacts[c.op.artifact].status == Draft
    ensures s.artifacts[c.op.artifact].owner != c.op.principal
    ensures s.artifacts[c.op.artifact].digest == Sha(s.artifacts[c.op.artifact].body)
    ensures var n, r := Step(s, c), c.op.artifact;
            && r in n.artifacts && n == s.(artifacts := s.artifacts[r := n.artifacts[r]])
            && SameContent(n.artifacts[r], s.artifacts[r])
            && |n.artifacts[r].lifecycle| == |s.artifacts[r].lifecycle| + 1
            && LastChange(n.artifacts[r], Some(Draft), Approved, c.now, c.op.principal, "artifact approved")
  {
  }

  // A supersession ends its version; exactly the approved versions of other artifacts that
  // depend on it become stale, and all other versions stay as they are.
  lemma SupersessionStores(s: State, c: Call, q: Ref)
    requires c.op.Supersede? && Accepts(s, c.op, c.now) && q in s.artifacts
    ensures c.op.artifact in s.artifacts && s.artifacts[c.op.artifact].status == Approved && c.op.reason != ""
    ensures var n, r := Step(s, c), c.op.artifact;
            && n == s.(artifacts := n.artifacts) && n.artifacts.Keys == s.artifacts.Keys
            && SameContent(n.artifacts[q], s.artifacts[q])
            && (if q == r then
                  LastChange(n.artifacts[q], Some(Approved), Superseded, c.now, c.op.principal, c.op.reason)
                else if s.artifacts[q].status == Approved && q.id != r.id && Depends(s.links, r.id, q.id) then
                  LastChange(n.artifacts[q], Some(Approved), Stale, c.now, c.op.principal,
                             "dependency " + r.id + ":v" + DecimalText(r.version) + " superseded")
                else n.artifacts[q] == s.artifacts[q])
  {
    hide Depends;
  }

  // When versions are approved or superseded, and when initiatives are created, blocked or resumed.
  lemma OthersAccepted(s: State, c: Call)
    ensures c.op.Approve? ==>
              (Accepts(s, c.op, c.now)
               <==> && c.op.artifact in s.artifacts && s.artifacts[c.op.artifact].status == Draft
                    && s.artifacts[c.op.artifact].owner != c.op.principal
                    && s.artifacts[c.op.artifact].digest == Sha(s.artifacts[c.op.artifact].body))
    ensures c.op.Supersede? ==>
              (Accepts(s, c.op, c.now)
               <==> c.op.reason != "" && c.op.artifact in s.artifacts && s.artifacts[c.op.artifact].status == Approved)
    ensures c.op.Create? ==> (Accepts(s, c.op, c.now) <==> c.op.initiative !in s.initiatives)
    ensures c.op.Block? ==>
              (Accepts(s, c.op, c.now)
               <==> && c.op.reason != "" && c.op.initiative in s.initiatives
                    && s.initiatives[c.op.initiative] == c.op.resumeState)
    ensures c.op.Resume? ==>
              (Accepts(s, c.op, c.now)
               <==> && c.op.initiative in s.blocks && c.op.initiative in s.initiatives
                    && s.initiatives[c.op.initiative] == Blocked)
  {
    hide RequiredKinds, Kinds, GateHolds;
  }

  // An initiative starts in discovery; a block remembers the stage, and a resumption returns to it.
  lemma InitiativeStores(s: State, c: Call)
    requires (c.op.Create? || c.op.Block? || c.op.Resume?) && Accepts(s, c.op, c.now)
    ensures c.op.Resume? ==>
              c.op.initiative in s.blocks && c.op.initiative in s.initiatives
              && s.initiatives[c.op.initiative] == Blocked
              && Step(s, c) == s.(initiatives := s.initiatives[c.op.initiative := s.blocks[c.op.initiative]],
                                  blocks := s.blocks - {c.op.initiative})
    ensures c.op.Create? ==> c.op.initiative !in s.initiatives
                             && Step(s, c) == s.(initiatives := s.initiatives[c.op.initiative := Discovery])
    ensures c.op.Block? ==>
              c.op.initiative in s.initiatives && c.op.reason != ""
              && c.op.resumeState == s.initiatives[c.op.initiative]
              && Step(s, c) == s.(initiatives := s.initiatives[c.op.initiative := Blocked],
                                  blocks := s.blocks[c.op.initiative := s.initiatives[c.op.initiative]])
  {
  }
}
