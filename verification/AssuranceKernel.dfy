/**
 `AssuranceKernel`: the operations of the assurance tables. Each is one step of
 `AssuranceState` and keeps the invariant of the tables.
 */
module AssuranceKernel {
  import opened Common
  import opened LifecycleChain
  import opened AssuranceState
  import opened AssuranceSafety

  // --- The closure of a supersession -----------------------------------------------------------------

  // The artifacts after the versions of the artifacts seen so far were made stale.
  ghost predicate Swept(before: map<Ref, Artifact>, artifacts: map<Ref, Artifact>, r: Ref, seen: set<string>,
                        now: int, actor: string, reason: string) {
    artifacts.Keys == before.Keys
    && forall q <- before.Keys :: artifacts[q] == Sweeping(before, r, seen, q, now, actor, reason)
  }

  predicate Hit(before: map<Ref, Artifact>, r: Ref, seen: set<string>, q: Ref)
    requires q in before
  {
    before[q].status == Approved && q.id in seen && q.id != r.id
  }

  function Sweeping(before: map<Ref, Artifact>, r: Ref, seen: set<string>, q: Ref, now: int, actor: string,
                    reason: string): Artifact
    requires q in before
  {
    if q == r then Changed(q, before[q], Superseded, now, actor, reason)
    else if Hit(before, r, seen, q) then Changed(q, before[q], Stale, now, actor, StaleReason(r))
    else before[q]
  }

  // Exactly the versions hit so far, each once.
  ghost predicate Collected(before: map<Ref, Artifact>, r: Ref, seen: set<string>, invalidated: seq<Ref>) {
    && (forall q <- invalidated :: q in before && Hit(before, r, seen, q))
    && (forall q <- before.Keys :: Hit(before, r, seen, q) ==> q in invalidated)
    && forall i, j :: 0 <= i < j < |invalidated| ==> invalidated[i] != invalidated[j]
  }

  // Every artifact seen depends on the source, and links out of processed artifacts stay inside.
  ghost predicate Frontier(links: seq<Link>, source: string, seen: set<string>, queue: seq<string>) {
    && source in seen && (forall x <- seen :: x == source || Depends(links, source, x))
    && (forall x <- queue :: x in seen)
    && forall i :: 0 <= i < |links| && links[i].source in seen && links[i].source !in queue ==> links[i].target in seen
  }

  lemma ClosureExact(links: seq<Link>, source: string, seen: set<string>)
    requires Frontier(links, source, seen, [])
    ensures forall x :: x in seen && x != source <==> Depends(links, source, x) && x != source
  {
    forall x | Depends(links, source, x) ensures x in seen {
      var p :| |p| >= 2 && p[0] == source && p[|p| - 1] == x && Path(links, p);
      ClosedUnderPaths(links, seen, p);
    }
  }

  // `ok` is the model's verdict on the call, and the tables are its next state.
  ghost predicate Stepped(before: State, op: Op, now: int, ok: bool, after: State) {
    ok == Accepts(before, op, now) && after == Step(before, Call(op, now))
  }

  function AllTargets(links: seq<Link>): set<string> {
    set i | 0 <= i < |links| :: links[i].target
  }

  class Kernel {
    var artifacts: map<Ref, Artifact>
    var links: seq<Link>
    var initiatives: map<string, Stage>
    var blocks: map<string, Stage>
    var gates: seq<Gate>

    function Tables(): State
      reads this
    {
      State(artifacts, links, initiatives, blocks, gates)
    }

    ghost predicate Valid()
      reads this
    {
      Sound(Tables())
    }

    constructor ()
      ensures Valid() && Tables() == EMPTY
    {
      artifacts, links, initiatives, blocks, gates := map[], [], map[], map[], [];
      new;
      EmptyIsSound();
    }

    // Make every approved version of a newly seen dependent stale.
    method MarkStale(ghost before: map<Ref, Artifact>, r: Ref, ghost seen: set<string>, dependent: string,
                     invalidated: seq<Ref>, now: int, actor: string, ghost reason: string)
      returns (collected: seq<Ref>)
      requires Swept(before, artifacts, r, seen, now, actor, reason) && Collected(before, r, seen, invalidated)
      requires dependent !in seen && r.id in seen
      modifies `artifacts
      ensures Swept(before, artifacts, r, seen + {dependent}, now, actor, reason)
      ensures Collected(before, r, seen + {dependent}, collected)
    {
      collected := invalidated;
      var rest := set q | q in artifacts && q.id == dependent && artifacts[q].status == Approved;
      MarkStart(before, artifacts, r, seen, dependent, rest, collected, now, actor, reason);
      while rest != {}
        invariant Marked(before, artifacts, r, seen + {dependent}, rest, collected, now, actor, reason)
        decreases rest
      {
        hide Marked, Changed;
        assert (forall q :: q !in rest) ==> rest == {};
        var q :| q in rest;
        MarkStep(before, artifacts, r, seen + {dependent}, rest, collected, q, now, actor, reason);
        rest := rest - {q};
        artifacts := artifacts[q := Changed(q, artifacts[q], Stale, now, actor, StaleReason(r))];
        collected := collected + [q];
      }
    }

    // The links out of one artifact: each dependent not seen before is queued and made stale.
    method Expand(ghost before: map<Ref, Artifact>, r: Ref, source: string, seen: set<string>, queue: seq<string>,
                  invalidated: seq<Ref>, now: int, actor: string, ghost reason: string)
      returns (grown: set<string>, longer: seq<string>, collected: seq<Ref>)
      requires Swept(before, artifacts, r, seen, now, actor, reason) && Collected(before, r, seen, invalidated)
      requires Frontier(links, r.id, seen, [source] + queue)
      modifies `artifacts
      ensures Swept(before, artifacts, r, grown, now, actor, reason) && Collected(before, r, grown, collected)
      ensures Frontier(links, r.id, grown, longer)
      ensures seen <= grown <= seen + AllTargets(links)
      ensures grown == seen ==> |longer| == |queue|
    {
      hide Swept, Collected;
      grown, longer, collected := seen, queue, invalidated;
      assert source in [source] + queue;
      FrontierStart(links, r.id, seen, queue, source);
      for i := 0 to |links|
        invariant Swept(before, artifacts, r, grown, now, actor, reason) && Collected(before, r, grown, collected)
        invariant Expanding(links, r.id, source, grown, longer, i)
        invariant seen <= grown <= seen + AllTargets(links)
        invariant grown == seen ==> longer == queue
      {
        hide Expanding, AllTargets;
        ExpandStep(links, r.id, source, grown, longer, i);
        if links[i].source == source {
          var dependent := links[i].target;
          if dependent !in grown {
            collected := MarkStale(before, r, grown, dependent, collected, now, actor, reason);
            grown := grown + {dependent};
            longer := longer + [dependent];
          }
        }
      }
    }

    /**
     Supersession. It terminates whatever the links are, cyclic or not. Exactly the approved
     versions of the artifacts that depend on the superseded one through one or more links
     become stale, except versions of the superseded artifact itself; `invalidated` lists
     each of them once; and no other version changes.
     */
    method Supersede(r: Ref, principal: string, reason: string, now: int) returns (ok: bool, invalidated: seq<Ref>)
      requires Valid()
      modifies `artifacts
      ensures Valid()
      ensures Stepped(old(Tables()), Op.Supersede(r, principal, reason), now, ok, Tables())
      ensures ok ==> forall q :: q in invalidated <==> Invalidated(old(Tables()), r.id, q)
      ensures ok ==> forall i, j :: 0 <= i < j < |invalidated| ==> invalidated[i] != invalidated[j]
    {
      hide Sound, Changed, Frontier, AllTargets, Swept, Collected;
      SoundStep(Tables(), Call(Op.Supersede(r, principal, reason), now));
      invalidated := [];
      if reason == "" || r !in artifacts || artifacts[r].status != Approved {
        return false, [];
      }
      ghost var before := artifacts;
      artifacts := artifacts[r := Changed(r, artifacts[r], Superseded, now, principal, reason)];
      var queue, seen := [r.id], {r.id};
      SweepStart(before, artifacts, links, r, now, principal, reason);
      while queue != []
        invariant Swept(before, artifacts, r, seen, now, principal, reason) && Collected(before, r, seen, invalidated)
        invariant Frontier(links, r.id, seen, queue) && seen <= {r.id} + AllTargets(links)
        decreases ({r.id} + AllTargets(links)) - seen, |queue|
      {
        var source := queue[0];
        assert [source] + queue[1..] == queue;
        var grown;
        grown, queue, invalidated := Expand(before, r, source, seen, queue[1..], invalidated, now, principal, reason);
        assert grown != seen ==> ({r.id} + AllTargets(links)) - grown < ({r.id} + AllTargets(links)) - seen;
        seen := grown;
      }
      SweepEnd(old(Tables()), artifacts, r, seen, invalidated, now, principal, reason);
      ok := true;
    }

    // --- Artifacts ----------------------------------------------------------------------------------

    method Register(r: Ref, initiative: string, kind: string, owner: string, body: string, edges: seq<Dependency>,
                    valid: bool, now: int) returns (ok: bool)
      requires Valid()
      modifies this
      ensures Valid()
      ensures Stepped(old(Tables()), Op.Register(r, initiative, kind, owner, body, edges, valid), now, ok, Tables())
    {
      hide Sound, Registered;
      SoundStep(Tables(), Call(Op.Register(r, initiative, kind, owner, body, edges, valid), now));
      if !valid || r in artifacts {
        return false;
      }
      var before := Tables();
      if initiative !in initiatives {
        initiatives := initiatives[initiative := Discovery];
      }
      artifacts := artifacts[r := Registered(r, initiative, kind, owner, body, now)];
      ghost var inserted := Tables();
      for k := 0 to |edges|
        invariant Tables() == inserted.(links := links)
        invariant links == before.links + LinksOf(initiative, edges[..k])
                  && NewLinks(before.links, initiative, edges[..k])
      {
        assert edges[..k + 1] == edges[..k] + [edges[k]];
        LinkIsNew(before.links, initiative, edges, k);
        if LinkOf(initiative, edges[k]) in links {
          artifacts, links, initiatives := before.artifacts, before.links, before.initiatives;
          return false;
        }
        links := links + [LinkOf(initiative, edges[k])];
        assert LinksOf(initiative, edges[..k + 1]) == LinksOf(initiative, edges[..k]) + [LinkOf(initiative, edges[k])];
      }
      assert edges[..|edges|] == edges;
      assert links == before.links + LinksOf(initiative, edges) && NewLinks(before.links, initiative, edges);
      ok := true;
    }

    method Approve(r: Ref, principal: string, now: int) returns (ok: bool)
      requires Valid()
      modifies `artifacts
      ensures Valid()
      ensures Stepped(old(Tables()), Op.Approve(r, principal), now, ok, Tables())
    {
      hide Sound, Changed;
      SoundStep(Tables(), Call(Op.Approve(r, principal), now));
      if r !in artifacts || artifacts[r].owner == principal || artifacts[r].status != Draft
         || !BodyIntact(artifacts[r]) {
        return false;
      }
      artifacts := artifacts[r := Changed(r, artifacts[r], Approved, now, principal, "artifact approved")];
      ok := true;
    }

    // --- Gates and transitions ------------------------------------------------------------------------

    // SELECT ... WHERE initiative_id=? AND gate=? ORDER BY id DESC LIMIT 1
    method LatestGate(initiative: string, name: GateName) returns (g: Option<nat>)
      ensures g == Latest(gates, initiative, name)
    {
      var n: nat := |gates|;
      assert gates[..n] == gates;
      while n > 0
        invariant n <= |gates| && Latest(gates, initiative, name) == Latest(gates[..n], initiative, name)
      {
        assert gates[..n][..n - 1] == gates[..n - 1];
        if gates[n - 1].initiative == initiative && gates[n - 1].name == name {
          return Some(n - 1);
        }
        n := n - 1;
      }
      g := None;
    }

    method RecordGate(initiative: string, name: GateName, decision: Decision, refs: seq<Ref>, principal: string,
                      conditions: bool, expiry: Expiry, contentsPass: bool, now: int) returns (ok: bool)
      requires Valid()
      modifies `gates
      ensures Valid()
      ensures Stepped(old(Tables()),
                      Op.RecordGate(initiative, name, decision, refs, principal, conditions, expiry, contentsPass),
                      now, ok, Tables())
      ensures if !ok then gates == old(gates)
              else |gates| == |old(gates)| + 1 && gates[..|old(gates)|] == old(gates)
                   && var g := gates[|old(gates)|];
                      g.initiative == initiative && g.name == name && g.decision == decision && g.expiry == expiry
    {
      hide Sound, RequiredKinds;
      ghost var op := Op.RecordGate(initiative, name, decision, refs, principal, conditions, expiry, contentsPass);
      SoundStep(Tables(), Call(op, now));
      if refs == [] || (decision == PassWithConditions && (!conditions || expiry.Never?)) {
        return false;
      }
      for k := 0 to |refs|
        invariant forall j :: 0 <= j < k ==> refs[j] in artifacts && artifacts[refs[j]].initiative == initiative
                                             && artifacts[refs[j]].status == Approved
                                             && artifacts[refs[j]].owner != principal
                                             && BodyIntact(artifacts[refs[j]])
      {
        var r := refs[k];
        assert r in refs;
        if r !in artifacts || artifacts[r].initiative != initiative || artifacts[r].status != Approved
           || artifacts[r].owner == principal {
          return false;
        }
        if !BodyIntact(artifacts[r]) {
          assert r in ApprovedSet(Tables(), initiative).Keys;
          return false;
        }
      }
      var approved := ApprovedSet(Tables(), initiative);
      var kinds := set r | r in approved :: artifacts[r].kind;
      if !(RequiredKinds(name) <= kinds) || !BodiesIntact(Tables(), initiative) || !contentsPass {
        return false;
      }
      if (set r | r in refs) != approved.Keys {
        return false;
      }
      assert forall r <- refs :: r in artifacts;
      gates := gates + [Gate(initiative, name, decision, SetSha(approved), expiry)];
      ok := true;
    }

    // The gate check of `transition`.
    method GatePasses(initiative: string, name: GateName, now: int) returns (passes: bool)
      ensures passes <==> Latest(gates, initiative, name).Some?
                          && Authorises(Tables(), Latest(gates, initiative, name).value, now)
    {
      hide Latest, ApprovedSet, BodiesIntact, Unexpired, Passing;
      var g := LatestGate(initiative, name);
      LatestOf(gates, initiative, name);
      if g.None? || !Passing(gates[g.value].decision) || !Unexpired(gates[g.value].expiry, now) {
        return false;
      }
      passes := BodiesIntact(Tables(), initiative)
                && gates[g.value].digest == SetSha(ApprovedSet(Tables(), initiative));
    }

    method Transition(initiative: string, target: Stage, trusted: bool, now: int) returns (ok: bool)
      requires Valid()
      modifies `initiatives
      ensures Valid()
      ensures Stepped(old(Tables()), Op.Transition(initiative, target, trusted), now, ok, Tables())
    {
      hide Sound, Latest, Authorises, Targets, Accepts, Step, Release;
      SoundStep(Tables(), Call(Op.Transition(initiative, target, trusted), now));
      TransitionStep(Tables(), initiative, target, trusted, now);
      if initiative !in initiatives {
        return false;
      }
      var current := initiatives[initiative];
      if GateFor(target).Some? {
        var passes := GatePasses(initiative, GateFor(target).value, now);
        if !passes || ((GateFor(target).value == G5 || GateFor(target).value == G6) && !trusted) {
          return false;
        }
      }
      if target !in Targets(current) || (Release(target) && !trusted) {
        return false;
      }
      initiatives := initiatives[initiative := target];
      ok := true;
    }

    method Block(initiative: string, reason: string, resumeState: Stage, now: int) returns (ok: bool)
      requires Valid()
      modifies `initiatives, `blocks
      ensures Valid()
      ensures Stepped(old(Tables()), Op.Block(initiative, reason, resumeState), now, ok, Tables())
    {
      hide Sound;
      SoundStep(Tables(), Call(Op.Block(initiative, reason, resumeState), now));
      if initiative !in initiatives || initiatives[initiative] != resumeState || reason == "" {
        return false;
      }
      blocks := blocks[initiative := resumeState];
      initiatives := initiatives[initiative := Stage.Blocked];
      ok := true;
    }

    method Resume(initiative: string, now: int) returns (ok: bool)
      requires Valid()
      modifies `initiatives, `blocks
      ensures Valid()
      ensures Stepped(old(Tables()), Op.Resume(initiative), now, ok, Tables())
    {
      hide Sound;
      SoundStep(Tables(), Call(Op.Resume(initiative), now));
      if initiative !in initiatives || initiative !in blocks || initiatives[initiative] != Stage.Blocked {
        return false;
      }
      initiatives := initiatives[initiative := blocks[initiative]];
      blocks := blocks - {initiative};
      ok := true;
    }
  }

  lemma TransitionStep(s: State, i: string, target: Stage, trusted: bool, now: int)
    ensures var op := Op.Transition(i, target, trusted);
            && (Accepts(s, op, now) <==>
                  i in s.initiatives && GateHolds(s, i, target, now) && target in Targets(s.initiatives[i])
                  && ((Release(target) || GateFor(target) in {Some(G5), Some(G6)}) ==> trusted))
            && Step(s, Call(op, now)) ==
               if Accepts(s, op, now) then s.(initiatives := s.initiatives[i := target]) else s
  {
  }

  lemma LatestOf(gates: seq<Gate>, initiative: string, name: GateName)
    ensures Latest(gates, initiative, name).Some? ==>
              Latest(gates, initiative, name).value < |gates|
              && gates[Latest(gates, initiative, name).value].initiative == initiative
  {
  }

  // The k-th edge can be inserted exactly when it repeats no link and no edge before it.
  lemma LinkIsNew(links: seq<Link>, initiative: string, edges: seq<Dependency>, k: nat)
    requires k < |edges| && NewLinks(links, initiative, edges[..k])
    ensures var link := LinkOf(initiative, edges[k]);
            && (link in links + LinksOf(initiative, edges[..k]) ==> !NewLinks(links, initiative, edges))
            && (link !in links + LinksOf(initiative, edges[..k]) ==> NewLinks(links, initiative, edges[..k + 1]))
  {
    var link, some := LinkOf(initiative, edges[k]), LinksOf(initiative, edges[..k]);
    var e := edges[k];
    assert e in edges;
    forall j | 0 <= j < k ensures edges[j] == e ==> link in links + some {
      assert some[j] == LinkOf(initiative, edges[j]);
      assert (links + some)[|links| + j] == some[j];
    }
    if link in links + some && link !in links {
      var j :| 0 <= j < |links + some| && (links + some)[j] == link;
      assert some[j - |links|] == link;
      assert edges[j - |links|] == e;
    }
    assert edges[..k + 1] == edges[..k] + [e];
  }

  predicate Unseen(links: seq<Link>, seen: set<string>, queue: seq<string>, i: nat)
    requires i < |links|
  {
    links[i].source in seen && links[i].source !in queue ==> links[i].target in seen
  }

  // The frontier while the links of one source are followed: those before i lead inside.
  ghost predicate Expanding(links: seq<Link>, origin: string, source: string, seen: set<string>, queue: seq<string>,
                            n: nat) {
    && origin in seen && source in seen && (forall x <- seen :: x == origin || Depends(links, origin, x))
    && (forall x <- queue :: x in seen)
    && (forall i :: 0 <= i < |links| && links[i].source != source ==> Unseen(links, seen, queue, i))
    && (forall i :: 0 <= i < n && i < |links| && links[i].source == source ==> links[i].target in seen)
  }

  lemma FrontierStart(links: seq<Link>, origin: string, seen: set<string>, queue: seq<string>, source: string)
    requires Frontier(links, origin, seen, [source] + queue)
    ensures Expanding(links, origin, source, seen, queue, 0)
  {
    assert source in [source] + queue;
    assert forall x :: x in [source] + queue <==> x == source || x in queue;
  }

  lemma ExpandStep(links: seq<Link>, origin: string, source: string, seen: set<string>, queue: seq<string>, i: nat)
    requires i < |links| && Expanding(links, origin, source, seen, queue, i)
    ensures var x := links[i].target;
            if links[i].source == source && x !in seen then
              Expanding(links, origin, source, seen + {x}, queue + [x], i + 1) && x in AllTargets(links)
            else Expanding(links, origin, source, seen, queue, i + 1)
    ensures i + 1 == |links| ==>
              var x := links[i].target;
              if links[i].source == source && x !in seen then Frontier(links, origin, seen + {x}, queue + [x])
              else Frontier(links, origin, seen, queue)
  {
    var x := links[i].target;
    if links[i].source == source && x !in seen {
      assert Edge(links, source, x);
      DependsStep(links, origin, source, x);
    }
  }

  lemma SweepStart(before: map<Ref, Artifact>, artifacts: map<Ref, Artifact>, links: seq<Link>, r: Ref, now: int,
                   actor: string, reason: string)
    requires r in before && artifacts == before[r := Changed(r, before[r], Superseded, now, actor, reason)]
    ensures Swept(before, artifacts, r, {r.id}, now, actor, reason) && Collected(before, r, {r.id}, [])
    ensures Frontier(links, r.id, {r.id}, [r.id])
  {
    hide Changed;
  }

  lemma SweepEnd(s: State, artifacts: map<Ref, Artifact>, r: Ref, seen: set<string>, invalidated: seq<Ref>, now: int,
                 actor: string, reason: string)
    requires Swept(s.artifacts, artifacts, r, seen, now, actor, reason) && Collected(s.artifacts, r, seen, invalidated)
    requires Frontier(s.links, r.id, seen, [])
    ensures artifacts == map q | q in s.artifacts :: Superseding(s, r, q, now, actor, reason)
    ensures forall q :: q in invalidated <==> Invalidated(s, r.id, q)
    ensures forall i, j :: 0 <= i < j < |invalidated| ==> invalidated[i] != invalidated[j]
  {
    HitExactly(s, r, seen);
    hide Changed, Invalidated, Hit, Frontier;
    forall q | q in s.artifacts ensures artifacts[q] == Superseding(s, r, q, now, actor, reason) {
    }
    forall q | Invalidated(s, r.id, q) ensures q in s.artifacts {
      InvalidatedExists(s, r.id, q);
    }
  }

  lemma InvalidatedExists(s: State, source: string, q: Ref)
    requires Invalidated(s, source, q)
    ensures q in s.artifacts
  {
  }

  lemma HitExactly(s: State, r: Ref, seen: set<string>)
    requires Frontier(s.links, r.id, seen, [])
    ensures forall q <- s.artifacts.Keys :: Hit(s.artifacts, r, seen, q) <==> Invalidated(s, r.id, q)
  {
    ClosureExact(s.links, r.id, seen);
    hide Depends, Frontier;
  }

  // Part of the hit versions, those in `rest`, are still to be marked.
  ghost predicate Marked(before: map<Ref, Artifact>, artifacts: map<Ref, Artifact>, r: Ref, seen: set<string>,
                         rest: set<Ref>, collected: seq<Ref>, now: int, actor: string, reason: string) {
    && artifacts.Keys == before.Keys
    && (forall q <- rest :: q in before && Hit(before, r, seen, q) && artifacts[q] == before[q])
    && (forall q <- before.Keys :: q !in rest ==> artifacts[q] == Sweeping(before, r, seen, q, now, actor, reason))
    && (forall q <- collected :: q in before && q !in rest && Hit(before, r, seen, q))
    && (forall q <- before.Keys :: q !in rest && Hit(before, r, seen, q) ==> q in collected)
    && forall i, j :: 0 <= i < j < |collected| ==> collected[i] != collected[j]
  }

  lemma MarkStart(before: map<Ref, Artifact>, artifacts: map<Ref, Artifact>, r: Ref, seen: set<string>,
                  dependent: string, rest: set<Ref>, collected: seq<Ref>, now: int, actor: string, reason: string)
    requires Swept(before, artifacts, r, seen, now, actor, reason) && Collected(before, r, seen, collected)
    requires dependent !in seen && r.id in seen
    requires rest == set q | q in artifacts && q.id == dependent && artifacts[q].status == Approved
    ensures Marked(before, artifacts, r, seen + {dependent}, rest, collected, now, actor, reason)
  {
    hide Changed;
  }

  lemma MarkStep(before: map<Ref, Artifact>, artifacts: map<Ref, Artifact>, r: Ref, seen: set<string>,
                 rest: set<Ref>, collected: seq<Ref>, q: Ref, now: int, actor: string, reason: string)
    requires Marked(before, artifacts, r, seen, rest, collected, now, actor, reason) && q in rest && r.id in seen
    ensures q in artifacts
    ensures Marked(before, artifacts[q := Changed(q, artifacts[q], Stale, now, actor, StaleReason(r))], r, seen,
                   rest - {q}, collected + [q], now, actor, reason)
  {
    hide Changed;
  }
}
