/**
 What the writers of the evaluation ledger store: a run is the report of one call, and the
 runs of an initiative are exactly the reports made about it, in order.
 */
module EvaluationEffects {
  import opened Common
  import opened EvaluationTables
  import opened EvaluationLedger
  import opened EvaluationSafety

  // --- One call --------------------------------------------------------------------------------------

  // An accepted report appends one run with exactly what was reported, and changes no other run.
  lemma RunStoresReport(s: State, c: Call)
    requires c.op.RecordRun? && Accepts(s, c.op, c.now)
    ensures var n, i := Step(s, c), c.op.initiative;
            var k := |RunsOf(s, i)|;
            && |RunsOf(n, i)| == k + 1 && RunsOf(n, i)[..k] == RunsOf(s, i)
            && (forall j :: j != i ==> RunsOf(n, j) == RunsOf(s, j))
            && n.principals == s.principals && n.quarantined == s.quarantined && i !in s.quarantined
            && var v := RunsOf(n, i)[k].values;
               && v.initiative == i && v.attempt == k + 1 && v.material == c.op.material && v.status == c.op.status
               && v.evaluator == c.op.principal && v.createdAt == c.now
               && v.result == Sha(i, k + 1, c.op.material, c.op.status)
               && RunsOf(n, i)[k].signature == RunSigned(v)
  {
    hide Provable, Contractable, Chronological, NextCredential;
  }

  // The budget of an initiative is the one of its first call, and no later call changes it.
  lemma ContractStoresBudget(s: State, c: Call)
    requires (c.op.RecordRun? || c.op.CreateContract?) && Accepts(s, c.op, c.now)
    ensures var n, i := Step(s, c), c.op.initiative;
            && i in n.contracts && n.contracts[i].values.maxAttempts == c.op.maxAttempts && 1 <= c.op.maxAttempts <= 3
            && n.contracts[i].signature == ContractSigned(n.contracts[i].values)
            && (if i in s.contracts then n.contracts == s.contracts
                else n.contracts == s.contracts[i := n.contracts[i]]
                     && n.contracts[i].values == ContractValues(i, c.op.maxAttempts, c.now))
  {
    hide Provable, Chronological, NextCredential, NewRun;
  }

  // A registration replaces the row of the principal but keeps its creation time, and issues a
  // credential to an evaluator unless it has had it before.
  lemma RegistrationStores(s: State, c: Call)
    requires c.op.RegisterPrincipal? && Accepts(s, c.op, c.now)
    ensures forall q <- s.principals.Keys :: q != c.op.principal ==> s.principals[q].actor != c.op.actor
    ensures var n, p := Step(s, c), c.op.principal;
            && n.runs == s.runs && n.contracts == s.contracts && n.quarantined == s.quarantined
            && p in n.principals && n.principals == s.principals[p := n.principals[p]]
            && n.principals[p] == Principal(c.op.actor, c.op.authority, Some(c.op.credential), true,
                                            if p in s.principals then s.principals[p].createdAt else c.now)
            && (forall q :: q != p ==> ChainOf(n, q) == ChainOf(s, q))
            && var chain, longer := ChainOf(s, p), ChainOf(n, p);
               if c.op.actor == "Trusted Evaluator" && c.op.authority == "operator"
                  && forall k :: 0 <= k < |chain| ==> chain[k].values.credential != c.op.credential
               then
                 |longer| == |chain| + 1 && longer[..|chain|] == chain
                 && longer[|chain|].values.credential == c.op.credential && longer[|chain|].values.issuedAt == c.now
                 && longer[|chain|].values.previous == (if chain == [] then None
                                                        else Some(chain[|chain| - 1].signature))
               else longer == chain
  {
  }

  // A revocation takes the credential away and leaves the chain; a quarantine adds the initiative.
  lemma RevocationStores(s: State, c: Call)
    requires (c.op.Revoke? || c.op.Quarantine?) && Accepts(s, c.op, c.now)
    ensures c.op.Revoke? ==>
              c.op.principal in s.principals
              && Step(s, c) == s.(principals := s.principals[c.op.principal := s.principals[c.op.principal].(
                                                  active := false, credential := None)])
    ensures c.op.Quarantine? ==> Step(s, c) == s.(quarantined := s.quarantined + {c.op.initiative})
  {
  }

  // Only an active Trusted Evaluator operator writes, and only what passed the checks.
  lemma WritersAreEvaluators(s: State, c: Call)
    requires (c.op.RecordRun? || c.op.CreateContract? || c.op.Quarantine?) && Accepts(s, c.op, c.now)
    ensures c.op.authenticated && c.op.principal in s.principals && s.principals[c.op.principal].active
    ensures s.principals[c.op.principal].actor == "Trusted Evaluator"
    ensures s.principals[c.op.principal].authority == "operator" && s.principals[c.op.principal].credential.Some?
    ensures c.op.RecordRun? ==> c.op.sound && |RunsOf(s, c.op.initiative)| < c.op.maxAttempts <= 3
  {
    hide Provable, Contractable, Chronological;
  }

  // The principal's row makes it an evaluator who may write.
  predicate Writer(s: State, p: string) {
    && p in s.principals && s.principals[p].active && s.principals[p].actor == "Trusted Evaluator"
    && s.principals[p].authority == "operator" && s.principals[p].credential.Some?
  }

  // Its credentials form a valid chain that ends in the present one; the first one is issued now.
  predicate Credited(s: State, p: string, now: int)
    requires p in s.principals && s.principals[p].credential.Some?
  {
    var chain, row := ChainOf(s, p), s.principals[p];
    && Chained(chain, p, row.createdAt)
    && if chain == [] then row.createdAt <= now
       else chain[|chain| - 1].values.credential == row.credential.value
  }

  // The budget is the one the initiative already has, or its first.
  predicate Budgeted(s: State, i: string, maxAttempts: int) {
    1 <= maxAttempts <= 3
    && (i in s.contracts ==> s.contracts[i].values.maxAttempts == maxAttempts
                             && s.contracts[i].signature == ContractSigned(s.contracts[i].values))
  }

  // A report is accepted exactly from a credited evaluator within the budget of an initiative that is
  // not quarantined, unless credential or contract are younger than the report.
  lemma ReportAccepted(s: State, c: Call)
    requires c.op.RecordRun?
    ensures Accepts(s, c.op, c.now)
            <==> var i, p := c.op.initiative, c.op.principal;
                 && c.op.authenticated && c.op.sound && Writer(s, p) && Credited(s, p, c.now)
                 && Budgeted(s, i, c.op.maxAttempts) && i !in s.quarantined && |RunsOf(s, i)| < c.op.maxAttempts
                 && (i in s.contracts ==> s.contracts[i].values.createdAt <= c.now)
                 && (ChainOf(s, p) != [] ==> ChainOf(s, p)[|ChainOf(s, p)| - 1].values.issuedAt <= c.now)
  {
    hide Chained;
  }

  lemma OthersAccepted(s: State, c: Call)
    ensures c.op.CreateContract? ==>
              (Accepts(s, c.op, c.now)
               <==> && c.op.authenticated && Writer(s, c.op.principal) && Credited(s, c.op.principal, c.now)
                    && Budgeted(s, c.op.initiative, c.op.maxAttempts))
    ensures c.op.Quarantine? ==> (Accepts(s, c.op, c.now) <==> c.op.authenticated && Writer(s, c.op.principal))
    ensures c.op.Revoke? ==> (Accepts(s, c.op, c.now) <==> c.op.known && c.op.principal in s.principals)
    ensures c.op.RegisterPrincipal? ==>
              (Accepts(s, c.op, c.now)
               <==> c.op.known && forall q <- s.principals.Keys ::
                                    q != c.op.principal ==> s.principals[q].actor != c.op.actor)
  {
    hide Chained, Runnable;
  }

  // The credential is numbered by its place, was issued to this evaluator not before the one it
  // follows, and signs its own content.
  predicate Succeeds(chain: seq<Credential>, p: string, createdAt: int, k: nat)
    requires k < |chain|
  {
    var v := chain[k].values;
    && v.principal == p && v.sequence == k + 1 && v.principalCreatedAt == createdAt
    && v.actor == "Trusted Evaluator" && v.authority == "operator"
    && v.issuedAt >= (if k == 0 then createdAt else chain[k - 1].values.issuedAt)
    && v.previous == (if k == 0 then None else Some(chain[k - 1].signature))
    && chain[k].signature == CredentialSigned(v)
  }

  lemma CredentialsMean(chain: seq<Credential>, p: string, createdAt: int)
    ensures Chained(chain, p, createdAt) <==> forall k :: 0 <= k < |chain| ==> Succeeds(chain, p, createdAt, k)
  {
    forall k | 0 <= k < |chain| ensures Links(chain, p, createdAt, k) <==> Succeeds(chain, p, createdAt, k) {
    }
    hide Links, Succeeds;
  }

  /**
   A run is signed in under the credential its evaluator holds at that moment, the last of a
   valid chain, and neither that credential nor the contract is younger than the run.
   */
  lemma RunIsSignedIn(s: State, c: Call)
    requires c.op.RecordRun? && Accepts(s, c.op, c.now)
    ensures c.op.principal in s.principals
            && Chained(ChainOf(s, c.op.principal), c.op.principal, s.principals[c.op.principal].createdAt)
    ensures var n, i, p := Step(s, c), c.op.initiative, c.op.principal;
            && |RunsOf(n, i)| > 0 && ChainOf(n, p) != [] && i in n.contracts && p in s.principals
            && var v, last := RunsOf(n, i)[|RunsOf(n, i)| - 1].values, ChainOf(n, p)[|ChainOf(n, p)| - 1];
               && Some(v.credential) == s.principals[p].credential && last.values.credential == v.credential
               && v.provenance == last.signature && v.contract == n.contracts[i].signature
               && v.principalCreatedAt == last.values.principalCreatedAt
               && last.values.issuedAt <= v.createdAt && n.contracts[i].values.createdAt <= v.createdAt
  {
    hide Chained, Contractable;
  }

  // The k-th run is the attempt of that number, not older than what came before it, and accepted.
  ghost predicate InTurn(s: State, i: string, k: nat)
    requires i in s.contracts && k < |RunsOf(s, i)|
  {
    var runs := RunsOf(s, i);
    && runs[k].values.attempt == k + 1 && RunAccepted(s, i, runs[k])
    && runs[k].values.createdAt >= (if k == 0 then s.contracts[i].values.createdAt else runs[k - 1].values.createdAt)
  }

  // What acceptance of a whole ledger means: the runs are in turn, within a signed budget of at
  // most three, and the last one completed.
  lemma LedgerMeans(s: State, i: string)
    ensures LedgerAccepted(s, i)
            <==> && i in s.contracts && s.contracts[i].values.initiative == i
                 && s.contracts[i].signature == ContractSigned(s.contracts[i].values)
                 && 1 <= |RunsOf(s, i)| <= s.contracts[i].values.maxAttempts <= 3
                 && RunsOf(s, i)[|RunsOf(s, i)| - 1].values.status == CompletedRun
                 && forall k :: 0 <= k < |RunsOf(s, i)| ==> InTurn(s, i, k)
  {
    hide RunAccepted;
    var runs := RunsOf(s, i);
    if i in s.contracts {
      forall k | 0 <= k < |runs|
        ensures InTurn(s, i, k) <==> runs[k].values.attempt == k + 1 && RunAccepted(s, i, runs[k])
                                     && runs[k].values.createdAt >= Since(s, i, k)
      {
      }
      hide InTurn, Since;
    }
  }

  // What acceptance of a run by the reader means, condition by condition.
  lemma AcceptedMeans(s: State, i: string, run: EvalRun)
    ensures RunAccepted(s, i, run)
            <==> var v := run.values;
                 && v.initiative == i && v.attempt >= 1 && run.signature == RunSigned(v)
                 && v.actor == "Trusted Evaluator" && v.authority == "operator"
                 && v.result == Sha(v.initiative, v.attempt, v.material, v.status)
                 && i in s.contracts && v.contract == s.contracts[i].signature
                 && (exists p, k :: 0 <= k < |ChainOf(s, p)| && Vouches(ChainOf(s, p)[k], v))
                 && Current(s, v.evaluator)
                 && s.principals[v.evaluator].createdAt == v.principalCreatedAt <= v.createdAt
                 && Chained(ChainOf(s, v.evaluator), v.evaluator, v.principalCreatedAt)
  {
    hide Chained, CurrentHead;
    forall c: Credential ensures Vouches(c, run.values) <==> Describes(c, run.values) {
    }
    hide Describes, Vouches;
    assert Provenance(s, run.values)
           <==> exists p, k :: 0 <= k < |ChainOf(s, p)| && Vouches(ChainOf(s, p)[k], run.values);
  }

  // The credential was issued to the evaluator of the run, before the run, and signed it in.
  predicate Vouches(c: Credential, v: RunValues) {
    && c.values.principal == v.evaluator && c.values.actor == v.actor && c.values.authority == v.authority
    && c.values.credential == v.credential && c.values.principalCreatedAt == v.principalCreatedAt
    && c.signature == CredentialSigned(c.values) && v.provenance == c.signature
    && v.principalCreatedAt <= c.values.issuedAt && c.values.issuedAt <= v.createdAt
  }

  // --- Runs ------------------------------------------------------------------------------------------

  datatype Report = Report(material: Material, status: RunStatus, principal: string, at: int)

  // The reports accepted about an initiative, in order.
  function Reports(s: State, calls: seq<Call>, i: string): seq<Report>
    decreases |calls|
  {
    if calls == [] then []
    else
      var c := calls[0];
      (if c.op.RecordRun? && c.op.initiative == i && Accepts(s, c.op, c.now)
       then [Report(c.op.material, c.op.status, c.op.principal, c.now)] else [])
      + Reports(Step(s, c), calls[1..], i)
  }

  function Told(runs: seq<EvalRun>): (reports: seq<Report>)
    ensures |reports| == |runs|
    ensures forall k :: 0 <= k < |runs| ==>
                          var v := runs[k].values; reports[k] == Report(v.material, v.status, v.evaluator, v.createdAt)
  {
    seq(|runs|, k requires 0 <= k < |runs| =>
          Report(runs[k].values.material, runs[k].values.status, runs[k].values.evaluator, runs[k].values.createdAt))
  }

  lemma ToldStep(s: State, c: Call, i: string)
    ensures Told(RunsOf(Step(s, c), i)) ==
            Told(RunsOf(s, i)) + if c.op.RecordRun? && c.op.initiative == i && Accepts(s, c.op, c.now)
                                 then [Report(c.op.material, c.op.status, c.op.principal, c.now)] else []
  {
    if Accepts(s, c.op, c.now) && c.op.RecordRun? {
      RunStoresReport(s, c);
      hide Step, Accepts;
      if c.op.initiative == i {
        assert RunsOf(Step(s, c), i) == RunsOf(s, i) + [RunsOf(Step(s, c), i)[|RunsOf(s, i)|]];
      }
    } else {
      OtherCallsKeepRuns(s, c);
    }
  }

  lemma OtherCallsKeepRuns(s: State, c: Call)
    requires !c.op.RecordRun? || !Accepts(s, c.op, c.now)
    ensures Step(s, c).runs == s.runs
  {
    hide Provable, Contractable, Runnable, NextCredential, Used;
  }

  lemma {:induction false} ToldRun(s: State, calls: seq<Call>, i: string)
    ensures Told(RunsOf(Run(s, calls), i)) == Told(RunsOf(s, i)) + Reports(s, calls, i)
    decreases |calls|
  {
    hide Step, Accepts;
    if calls == [] {
    } else {
      ToldStep(s, calls[0], i);
      ToldRun(Step(s, calls[0]), calls[1..], i);
    }
  }

  /**
   The ledger is the history: from a fresh ledger, the k-th stored run of an initiative is the
   k-th accepted report about it, with its material, status, principal and time.
   */
  lemma RunsAreReports(s: State, calls: seq<Call>, i: string)
    requires RunsOf(s, i) == []
    ensures Told(RunsOf(Run(s, calls), i)) == Reports(s, calls, i)
  {
    ToldRun(s, calls, i);
  }

  // So a ledger is only accepted if the last report about the initiative was a completion.
  lemma AcceptedMeansCompleted(s: State, calls: seq<Call>, i: string)
    requires RunsOf(s, i) == [] && LedgerAccepted(Run(s, calls), i)
    ensures var reports := Reports(s, calls, i);
            reports != [] && reports[|reports| - 1].status == CompletedRun && |reports| <= 3
  {
    hide Run, RunAccepted, Since;
    RunsAreReports(s, calls, i);
    var runs := RunsOf(Run(s, calls), i);
    assert Told(runs)[|runs| - 1].status == runs[|runs| - 1].values.status;
  }
}
