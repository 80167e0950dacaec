/** Safety of the assurance kernel over whole runs: lifecycle chains, gate decisions and blocks. */
module AssuranceSafety {
  import opened Common
  import opened LifecycleChain
  import opened AssuranceState

  // --- Lifecycle chains ----------------------------------------------------------------------------

  predicate Recorded(r: Ref, a: Artifact) {
    Chained(a.lifecycle, r) && Ends(a.lifecycle) == Some(a.status) && BodyIntact(a)
  }

  ghost predicate AllRecorded(s: State) {
    forall r <- s.artifacts.Keys :: Recorded(r, s.artifacts[r])
  }

  lemma ChangeKeepsRecord(r: Ref, a: Artifact, to: Status, at: int, actor: string, reason: string)
    requires Recorded(r, a)
    ensures Recorded(r, Changed(r, a, to, at, actor, reason))
    ensures StatusChangeAllowed(Changed(r, a, to, at, actor, reason).lifecycle, a.status, to)
  {
    RecordKeepsChain(a.lifecycle, r, to, at, actor, reason);
  }

  lemma RegistrationRecorded(r: Ref, initiative: string, kind: string, owner: string, body: string, at: int)
    ensures Recorded(r, Registered(r, initiative, kind, owner, body, at))
  {
    RecordKeepsChain([], r, Draft, at, owner, "artifact registered");
    assert [] + [NextEntry([], r, None, Draft, at, owner, "artifact registered")]
           == [NextEntry([], r, None, Draft, at, owner, "artifact registered")];
  }

  lemma RecordedStep(s: State, c: Call)
    requires AllRecorded(s)
    ensures AllRecorded(Step(s, c))
  {
    hide Recorded, Changed, Registered;
    var n := Step(s, c);
    if Accepts(s, c.op, c.now) {
      forall r | r in n.artifacts.Keys ensures Recorded(r, n.artifacts[r]) {
        match c.op
        case Register(q, i, kind, owner, body, _, _) =>
          if r == q {
            RegistrationRecorded(r, i, kind, owner, body, c.now);
          }
        case Approve(q, principal) =>
          if r == q {
            ChangeKeepsRecord(r, s.artifacts[r], Approved, c.now, principal, "artifact approved");
          }
        case Supersede(q, principal, reason) =>
          ChangeKeepsRecord(r, s.artifacts[r], Superseded, c.now, principal, reason);
          ChangeKeepsRecord(r, s.artifacts[r], Stale, c.now, principal, StaleReason(q));
        case _ =>
      }
    }
  }

  lemma {:induction false} RecordedRun(s: State, calls: seq<Call>)
    requires AllRecorded(s)
    ensures AllRecorded(Run(s, calls))
    decreases |calls|
  {
    if calls == [] {
    } else {
      RecordedStep(s, calls[0]);
      RecordedRun(Step(s, calls[0]), calls[1..]);
    }
  }

  // In every reachable state the chain of every artifact validates and ends in its status,
  // and its body matches its hash.
  lemma ChainsValidate(calls: seq<Call>, r: Ref)
    requires r in Run(EMPTY, calls).artifacts
    ensures var a := Run(EMPTY, calls).artifacts[r];
            Chained(a.lifecycle, r) && Ends(a.lifecycle) == Some(a.status) && BodyIntact(a)
  {
    RecordedRun(EMPTY, calls);
  }

  // --- The invariant ---------------------------------------------------------------------------------

  // What a gate decision binds exists, with the digest it had then, and has been approved once.
  ghost predicate GateBound(artifacts: map<Ref, Artifact>, gate: Gate) {
    forall r <- gate.digest.entries.Keys ::
      r in artifacts && artifacts[r].initiative == gate.initiative && artifacts[r].status != Draft
      && artifacts[r].digest == gate.digest.entries[r]
  }

  ghost predicate GatesBound(s: State) {
    forall g :: 0 <= g < |s.gates| ==> GateBound(s.artifacts, s.gates[g])
  }

  // Only a blocked initiative has a stage to resume to.
  predicate BlocksHold(s: State) {
    forall i <- s.blocks.Keys :: i in s.initiatives && s.initiatives[i] == Blocked
  }

  ghost predicate Sound(s: State) {
    AllRecorded(s) && GatesBound(s) && BlocksHold(s)
  }

  predicate KeepsGate(s: State, n: State, g: nat) {
    g < |s.gates| ==> g < |n.gates| && n.gates[g] == s.gates[g]
  }

  lemma GatesStay(s: State, c: Call, g: nat)
    ensures KeepsGate(s, Step(s, c), g)
  {
  }

  // No operation removes a version or changes what it is; drafts never come back.
  lemma VersionsPersist(s: State, c: Call, r: Ref)
    requires r in s.artifacts
    ensures var n := Step(s, c);
            r in n.artifacts && n.artifacts[r].initiative == s.artifacts[r].initiative
            && n.artifacts[r].digest == s.artifacts[r].digest
            && (s.artifacts[r].status != Draft ==> n.artifacts[r].status != Draft)
  {
    hide NextEntry, Invalidated;
  }

  lemma BoundStep(s: State, c: Call)
    requires GatesBound(s)
    ensures GatesBound(Step(s, c))
  {
    var n := Step(s, c);
    forall g | 0 <= g < |n.gates| ensures GateBound(n.artifacts, n.gates[g]) {
      if g < |s.gates| {
        GatesStay(s, c, g);
        assert GateBound(s.artifacts, s.gates[g]);
        BoundPersists(s, c, s.gates[g]);
      } else {
        NewGateBound(s, c);
      }
    }
  }

  lemma BoundPersists(s: State, c: Call, gate: Gate)
    requires GateBound(s.artifacts, gate)
    ensures GateBound(Step(s, c).artifacts, gate)
  {
    hide Step;
    forall r | r in gate.digest.entries.Keys
      ensures var artifacts := Step(s, c).artifacts;
              r in artifacts && artifacts[r].initiative == gate.initiative && artifacts[r].status != Draft
              && artifacts[r].digest == gate.digest.entries[r]
    {
      VersionsPersist(s, c, r);
    }
  }

  lemma NewGateBound(s: State, c: Call)
    ensures var n := Step(s, c);
            |n.gates| > |s.gates| ==> |n.gates| == |s.gates| + 1 && GateBound(n.artifacts, n.gates[|s.gates|])
  {
  }

  lemma SoundStep(s: State, c: Call)
    requires Sound(s)
    ensures Sound(Step(s, c))
  {
    hide AllRecorded, GatesBound, Changed, Registered;
    RecordedStep(s, c);
    BoundStep(s, c);
  }

  lemma EmptyIsSound()
    ensures Sound(EMPTY)
  {
  }

  // --- Gate decisions ----------------------------------------------------------------------------

  predicate Withdrawn(s: State, r: Ref) {
    r in s.artifacts && (s.artifacts[r].status == Superseded || s.artifacts[r].status == Stale)
  }

  // A withdrawn version stays withdrawn, and gate rows never change.
  lemma WithdrawnStep(s: State, c: Call, r: Ref, g: nat)
    ensures Withdrawn(s, r) ==> Withdrawn(Step(s, c), r)
    ensures KeepsGate(s, Step(s, c), g)
  {
  }

  lemma {:induction false} WithdrawnRun(s: State, calls: seq<Call>, r: Ref, g: nat)
    ensures Withdrawn(s, r) ==> Withdrawn(Run(s, calls), r)
    ensures KeepsGate(s, Run(s, calls), g)
    decreases |calls|
  {
    if calls == [] {
    } else {
      WithdrawnStep(s, calls[0], r, g);
      WithdrawnRun(Step(s, calls[0]), calls[1..], r, g);
    }
  }

  // A gate decision binds every version that was approved when it was recorded.
  lemma GateBindsApproved(s: State, c: Call, r: Ref)
    requires c.op.RecordGate? && Accepts(s, c.op, c.now)
    requires r in s.artifacts && s.artifacts[r].initiative == c.op.initiative && s.artifacts[r].status == Approved
    ensures var n := Step(s, c);
            |n.gates| == |s.gates| + 1 && r in n.gates[|s.gates|].digest.entries
            && n.gates[|s.gates|].digest == SetSha(ApprovedSet(n, c.op.initiative))
            && r in c.op.refs
  {
    assert r in ApprovedSet(s, c.op.initiative).Keys;
    assert r in set q | q in c.op.refs;
  }

  /**
   A dead gate never authorises again. Record any gate while a version is approved, let the
   run go on until that version is superseded or stale, and let it go on from there: the
   decision no longer lets any transition of its initiative through.
   */
  lemma DeadGate(s: State, c: Call, during: seq<Call>, after: seq<Call>, r: Ref, now: int)
    requires c.op.RecordGate? && Accepts(s, c.op, c.now)
    requires r in s.artifacts && s.artifacts[r].initiative == c.op.initiative && s.artifacts[r].status == Approved
    requires Withdrawn(Run(Step(s, c), during), r)
    ensures !Authorises(Run(Run(Step(s, c), during), after), |s.gates|, now)
  {
    hide Step, Accepts;
    var recorded, g := Step(s, c), |s.gates|;
    GateBindsApproved(s, c, r);
    var withdrawn := Run(recorded, during);
    WithdrawnRun(recorded, during, r, g);
    WithdrawnRun(withdrawn, after, r, g);
    var final := Run(withdrawn, after);
    assert final.gates[g] == recorded.gates[g];
    assert r !in ApprovedSet(final, final.gates[g].initiative);
  }

  lemma {:induction false} VersionsPersistRun(s: State, calls: seq<Call>, r: Ref)
    requires r in s.artifacts
    ensures r in Run(s, calls).artifacts && Run(s, calls).artifacts[r].initiative == s.artifacts[r].initiative
    decreases |calls|
  {
    hide Step;
    if calls == [] {
    } else {
      VersionsPersist(s, calls[0], r);
      VersionsPersistRun(Step(s, calls[0]), calls[1..], r);
    }
  }

  /**
   An approval suspends every gate decision its initiative has: as long as the new version
   stays approved, none of the earlier ones lets a transition through.
   */
  lemma ApprovalSuspendsGates(s: State, c: Call, after: seq<Call>, g: nat, now: int)
    requires Sound(s) && c.op.Approve? && Accepts(s, c.op, c.now)
    requires g < |s.gates| && s.gates[g].initiative == s.artifacts[c.op.artifact].initiative
    ensures var n := Run(Step(s, c), after);
            c.op.artifact in n.artifacts
            && (n.artifacts[c.op.artifact].status == Approved ==> !Authorises(n, g, now))
  {
    hide Step, Run, AllRecorded, BlocksHold, BodiesIntact;
    var r, n := c.op.artifact, Run(Step(s, c), after);
    VersionsPersist(s, c, r);
    VersionsPersistRun(Step(s, c), after, r);
    WithdrawnStep(s, c, r, g);
    WithdrawnRun(Step(s, c), after, r, g);
    assert GateBound(s.artifacts, s.gates[g]);
    assert r !in s.gates[g].digest.entries;
    if n.artifacts[r].status == Approved {
      assert r in ApprovedSet(n, s.gates[g].initiative);
    }
  }

  /**
   Withdrawing that version again revives them: when nothing approved depends on it, an
   approval followed by a supersession leaves every decision exactly as live as before.
   */
  lemma SupersedingRevivesGates(s: State, approve: Call, supersede: Call, g: nat, now: int)
    requires approve.op.Approve? && Accepts(s, approve.op, approve.now)
    requires supersede.op.Supersede? && supersede.op.artifact == approve.op.artifact
    requires Accepts(Step(s, approve), supersede.op, supersede.now)
    requires forall q <- s.artifacts.Keys :: !Invalidated(Step(s, approve), approve.op.artifact.id, q)
    ensures Authorises(Step(Step(s, approve), supersede), g, now) <==> Authorises(s, g, now)
  {
    hide Invalidated, NextEntry;
    var n := Step(Step(s, approve), supersede);
    assert n.gates == s.gates && n.artifacts.Keys == s.artifacts.Keys;
    forall q | q in s.artifacts && q != approve.op.artifact ensures n.artifacts[q] == s.artifacts[q] {
    }
    if g < |s.gates| {
      assert ApprovedSet(n, s.gates[g].initiative) == ApprovedSet(s, s.gates[g].initiative);
    }
  }

  // So a gated transition after the withdrawal needs a decision recorded after it.
  lemma TransitionNeedsLiveGate(s: State, c: Call, during: seq<Call>, after: seq<Call>, r: Ref, t: Call)
    requires c.op.RecordGate? && Accepts(s, c.op, c.now)
    requires r in s.artifacts && s.artifacts[r].initiative == c.op.initiative && s.artifacts[r].status == Approved
    requires Withdrawn(Run(Step(s, c), during), r)
    requires t.op.Transition? && GateFor(t.op.target).Some?
    requires var n := Run(Run(Step(s, c), during), after);
             Latest(n.gates, t.op.initiative, GateFor(t.op.target).value) == Some(|s.gates|)
    ensures !Accepts(Run(Run(Step(s, c), during), after), t.op, t.now)
  {
    DeadGate(s, c, during, after, r, t.now);
    hide Run, Step, Authorises;
  }
}
