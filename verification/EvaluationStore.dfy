/**
 The writers as transactions over the evaluation tables, and the readers that walk the
 credential chain and the runs of an initiative. Every transaction is one step of
 `EvaluationLedger` and keeps the invariants of the tables.
 */
module EvaluationStore {
  import opened Common
  import opened EvaluationTables
  import opened EvaluationLedger
  import opened EvaluationSafety

  predicate Stepped(before: State, op: Op, now: int, ok: bool, after: State) {
    ok == Accepts(before, op, now) && after == Step(before, Call(op, now))
  }

  // The loop both readers and `_ensure_evaluator_provenance` share.
  method WalkChain(chain: seq<Credential>, p: string, createdAt: int) returns (valid: bool)
    requires forall k :: 0 <= k < |chain| ==> chain[k].values.principal == p
    ensures valid <==> Chained(chain, p, createdAt)
  {
    var previousSignature: Option<Signature>, previousIssuedAt := None, createdAt;
    for k := 0 to |chain|
      invariant previousSignature == Head(chain[..k]) && previousIssuedAt == LastIssued(chain[..k], createdAt)
      invariant forall j :: 0 <= j < k ==> Links(chain, p, createdAt, j)
    {
      var v := chain[k].values;
      if v.sequence != k + 1 || v.previous != previousSignature || v.actor != EVALUATOR || v.authority != OPERATOR
         || v.principalCreatedAt != createdAt || v.issuedAt < previousIssuedAt
         || chain[k].signature != CredentialSigned(v) {
        assert !Links(chain, p, createdAt, k);
        return false;
      }
      assert chain[..k + 1][k] == chain[k];
      previousSignature, previousIssuedAt := Some(chain[k].signature), v.issuedAt;
    }
    valid := true;
  }

  // The runs after a report: the ones before, and one with what was reported.
  predicate Reported(before: seq<EvalRun>, after: seq<EvalRun>, op: Op, now: int)
    requires op.RecordRun?
  {
    |after| == |before| + 1 && after[..|before|] == before
    && var v := after[|before|].values;
       && v.initiative == op.initiative && v.attempt == |before| + 1 && v.material == op.material
       && v.status == op.status && v.evaluator == op.principal && v.createdAt == now
  }

  class Ledger {
    var principals: map<string, Principal>
    var chains: map<string, seq<Credential>>
    var contracts: map<string, Contract>
    var runs: map<string, seq<EvalRun>>
    var quarantined: set<string>

    // The time of the last call, and whether no call so far came before an earlier one.
    ghost var clock: int
    ghost var timely: bool

    // The tables are what the readers require, and sound while the clock has not gone back.
    ghost predicate Valid()
      reads this
      ensures Valid() ==> Keyed(Tables())
    {
      if Tabled(Tables()) then
        TabledIsKeyed(Tables());
        timely ==> Sound(Tables(), clock)
      else false
    }

    // What a transaction at this time leaves of the two.
    twostate predicate Ticked(now: int)
      reads this
    {
      clock == now && timely == (old(timely) && old(clock) <= now)
    }

    constructor (now: int)
      ensures Valid() && timely && clock == now && Initial(Tables(), now)
    {
      principals, chains, contracts, runs, quarantined := map[], map[], map[], map[], {};
      clock, timely := now, true;
      new;
      InitialSound(Tables(), now);
    }

    function Tables(): State
      reads this
    {
      State(principals, chains, contracts, runs, quarantined)
    }

    // The clock of a transaction, and what it keeps of the tables.
    ghost method Tick(op: Op, now: int)
      requires Valid()
      modifies `clock, `timely
      ensures Ticked(now)
      ensures Tabled(Step(Tables(), Call(op, now)))
      ensures timely ==> Sound(Step(Tables(), Call(op, now)), now)
    {
      hide Sound, Tabled, Step;
      TabledStep(Tables(), Call(op, now));
      if timely && clock <= now {
        SoundStep(Tables(), Call(op, now), clock);
      }
      timely, clock := timely && clock <= now, now;
    }

    // --- Writers ---------------------------------------------------------------------------------

    // INSERT INTO trusted_eval_evaluator_credentials
    method Issue(p: string, credential: string, now: int)
      requires p in principals
      modifies `chains
      ensures Tables() == WithCredential(old(Tables()), p, credential, now)
    {
      var chain := ChainOf(Tables(), p);
      var sequence := if chain == [] then 1 else chain[|chain| - 1].values.sequence + 1;
      var previous := if chain == [] then None else Some(chain[|chain| - 1].signature);
      var v := CredentialValues(p, sequence, EVALUATOR, OPERATOR, credential, principals[p].createdAt, now, previous);
      chains := chains[p := chain + [Credential(v, CredentialSigned(v))]];
    }

    method RegisterPrincipal(p: string, actor: string, authority: string, credential: string, known: bool, now: int)
      returns (ok: bool)
      requires Valid()
      modifies this
      ensures Valid() && Ticked(now)
      ensures Stepped(old(Tables()), Op.RegisterPrincipal(p, actor, authority, credential, known), now, ok, Tables())
    {
      hide Sound, Tabled;
      Tick(Op.RegisterPrincipal(p, actor, authority, credential, known), now);
      if !known || exists q <- principals.Keys :: q != p && principals[q].actor == actor {
        return false;
      }
      ghost var op := Op.RegisterPrincipal(p, actor, authority, credential, known);
      ghost var before := Tables();
      var createdAt := if p in principals then principals[p].createdAt else now;
      principals := principals[p := Principal(actor, authority, Some(credential), true, createdAt)];
      assert Tables() == WithPrincipal(before, op, now);
      if actor == EVALUATOR && authority == OPERATOR && !Used(ChainOf(Tables(), p), credential) {
        Issue(p, credential, now);
      }
      assert Tables() == Registered(before, op, now);
      ok := true;
    }

    method Revoke(p: string, known: bool, now: int) returns (ok: bool)
      requires Valid()
      modifies `principals, `clock, `timely
      ensures Valid() && Ticked(now)
      ensures Stepped(old(Tables()), Op.Revoke(p, known), now, ok, Tables())
    {
      hide Sound, Tabled;
      Tick(Op.Revoke(p, known), now);
      if !known || p !in principals {
        return false;
      }
      principals := principals[p := principals[p].(active := false, credential := None)];
      ok := true;
    }

    // `_ensure_evaluator_provenance`
    method EnsureProvenance(p: string, now: int) returns (ok: bool)
      requires Keyed(Tables()) && Active(Tables(), p)
      modifies `chains
      ensures ok <==> Provable(old(Tables()), p, now)
      ensures Tables() == if ok then Proved(old(Tables()), p, now) else old(Tables())
    {
      var chain, row := ChainOf(Tables(), p), principals[p];
      ok := WalkChain(chain, p, row.createdAt);
      if ok {
        if chain != [] {
          ok := chain[|chain| - 1].values.credential == row.credential.value;
        } else if row.createdAt > now {
          ok := false;
        } else {
          Issue(p, row.credential.value, now);
        }
      }
    }

    // `_create_contract`
    method EnsureContract(initiative: string, maxAttempts: int, now: int) returns (ok: bool)
      modifies `contracts
      ensures ok <==> Contractable(old(Tables()), initiative, maxAttempts)
      ensures Tables() == if ok then Contracted(old(Tables()), initiative, maxAttempts, now) else old(Tables())
    {
      if initiative in contracts {
        var c := contracts[initiative];
        return c.values.maxAttempts == maxAttempts && c.signature == ContractSigned(c.values);
      }
      var v := ContractValues(initiative, maxAttempts, now);
      contracts := contracts[initiative := Contract(v, ContractSigned(v))];
      ok := true;
    }

    method RecordRun(op: Op, now: int) returns (ok: bool)
      requires Valid() && op.RecordRun?
      modifies this
      ensures Valid() && Ticked(now)
      ensures Stepped(old(Tables()), op, now, ok, Tables())
      ensures ok ==> Reported(old(RunsOf(Tables(), op.initiative)), RunsOf(Tables(), op.initiative), op, now)
    {
      hide Sound, Tabled;
      Tick(op, now);
      if !op.authenticated || !op.sound || op.maxAttempts < 1 || op.maxAttempts > 3 || !Active(Tables(), op.principal) {
        return false;
      }
      var before := Tables();
      ok := Append(op, now);
      if !ok {
        principals, chains, contracts, runs := before.principals, before.chains, before.contracts, before.runs;
      }
    }

    // The transaction of `record_run`; a refusal leaves it to be rolled back.
    method Append(op: Op, now: int) returns (ok: bool)
      requires Keyed(Tables()) && op.RecordRun? && Active(Tables(), op.principal)
      requires op.authenticated && op.sound && 1 <= op.maxAttempts <= 3
      modifies `chains, `contracts, `runs
      ensures ok <==> Runnable(old(Tables()), op, now)
      ensures ok ==> Tables() == Next(old(Tables()), op, now)
      ensures ok ==> Reported(old(RunsOf(Tables(), op.initiative)), RunsOf(Tables(), op.initiative), op, now)
    {
      ghost var before := Tables();
      var i := op.initiative;
      ok := EnsureProvenance(op.principal, now);
      if ok {
        ok := EnsureContract(i, op.maxAttempts, now);
      }
      if !ok || i in quarantined {
        return false;
      }
      assert Tables() == Prepared(before, op, now);
      var attempt := |RunsOf(Tables(), i)| + 1;
      if attempt > op.maxAttempts {
        return false;
      }
      var chain := ChainOf(Tables(), op.principal);
      var c, contract := chain[|chain| - 1], contracts[i];
      if contract.values.createdAt > now || c.values.issuedAt > now {
        return false;
      }
      var result := Sha(i, attempt, op.material, op.status);
      var v := RunValues(i, attempt, op.material, op.status, op.principal, c.values.actor, c.values.authority,
                         c.values.credential, c.values.principalCreatedAt, c.signature, contract.signature,
                         result, now);
      runs := runs[i := RunsOf(Tables(), i) + [EvalRun(v, RunSigned(v))]];
      ok := true;
    }

    method CreateContract(initiative: string, maxAttempts: int, p: string, authenticated: bool, now: int)
      returns (ok: bool)
      requires Valid()
      modifies `chains, `contracts, `clock, `timely
      ensures Valid() && Ticked(now)
      ensures Stepped(old(Tables()), Op.CreateContract(initiative, maxAttempts, p, authenticated), now, ok, Tables())
    {
      hide Sound, Tabled;
      Tick(Op.CreateContract(initiative, maxAttempts, p, authenticated), now);
      if !authenticated || maxAttempts < 1 || maxAttempts > 3 || !Active(Tables(), p) {
        return false;
      }
      var before := chains;
      ok := EnsureProvenance(p, now);
      if ok {
        ok := EnsureContract(initiative, maxAttempts, now);
      }
      if !ok {
        chains := before;
      }
    }

    method Quarantine(initiative: string, p: string, authenticated: bool, now: int) returns (ok: bool)
      requires Valid()
      modifies `quarantined, `clock, `timely
      ensures Valid() && Ticked(now)
      ensures Stepped(old(Tables()), Op.Quarantine(initiative, p, authenticated), now, ok, Tables())
    {
      hide Sound, Tabled;
      Tick(Op.Quarantine(initiative, p, authenticated), now);
      ok := authenticated && Active(Tables(), p);
      if ok {
        quarantined := quarantined + {initiative};
      }
    }

    // --- Readers -----------------------------------------------------------------------------------

    // SELECT * FROM trusted_eval_evaluator_credentials WHERE integrity_signature=?
    method Find(signature: Signature) returns (found: Option<Credential>)
      ensures found.Some? ==> found.value.signature == signature
                              && exists p, k :: 0 <= k < |ChainOf(Tables(), p)|
                                                && ChainOf(Tables(), p)[k] == found.value
      ensures found.None? ==>
                forall p, k :: 0 <= k < |ChainOf(Tables(), p)| ==> ChainOf(Tables(), p)[k].signature != signature
    {
      var rest := chains.Keys;
      while rest != {}
        invariant rest <= chains.Keys
        invariant forall p, k :: p !in rest && 0 <= k < |ChainOf(Tables(), p)| ==>
                                   ChainOf(Tables(), p)[k].signature != signature
        decreases rest
      {
        assert (forall p :: p !in rest) ==> rest == {};
        var p :| p in rest;
        rest := rest - {p};
        for k := 0 to |chains[p]|
          invariant forall j :: 0 <= j < k ==> chains[p][j].signature != signature
        {
          if chains[p][k].signature == signature {
            assert ChainOf(Tables(), p)[k] == chains[p][k];
            return Some(chains[p][k]);
          }
        }
      }
      found := None;
    }

    // SELECT ... WHERE principal_id=? AND credential_sha256=? AND principal_created_at=?
    method FindCurrent(p: string, credential: string, createdAt: int) returns (found: Option<Credential>)
      ensures found.Some? ==> found.value in ChainOf(Tables(), p) && found.value.values.credential == credential
                              && found.value.values.principalCreatedAt == createdAt
      ensures found.None? ==> forall k :: 0 <= k < |ChainOf(Tables(), p)| ==>
                                            !(ChainOf(Tables(), p)[k].values.credential == credential
                                              && ChainOf(Tables(), p)[k].values.principalCreatedAt == createdAt)
    {
      var chain := ChainOf(Tables(), p);
      for k := 0 to |chain|
        invariant forall j :: 0 <= j < k ==>
                                !(chain[j].values.credential == credential
                                  && chain[j].values.principalCreatedAt == createdAt)
      {
        if chain[k].values.credential == credential && chain[k].values.principalCreatedAt == createdAt {
          return Some(chain[k]);
        }
      }
      found := None;
    }

    // The provenance checks of `_trusted_eval_run_valid`.
    method ProvenanceValid(v: RunValues) returns (valid: bool)
      requires Keyed(Tables())
      ensures valid <==> Provenance(Tables(), v)
    {
      var found := Find(v.provenance);
      if found.None? {
        return false;
      }
      var c := found.value.values;
      valid := c == CredentialValues(v.evaluator, c.sequence, v.actor, v.authority, v.credential, v.principalCreatedAt,
                                     c.issuedAt, c.previous)
               && found.value.signature == CredentialSigned(c)
               && v.principalCreatedAt <= c.issuedAt && c.issuedAt <= v.createdAt;
      assert valid <==> Describes(found.value, v);
      hide Describes;
      if Provenance(Tables(), v) {
        var p, k :| 0 <= k < |ChainOf(Tables(), p)| && Describes(ChainOf(Tables(), p)[k], v);
        DescribedSignature(ChainOf(Tables(), p)[k], v);
        assert ChainOf(Tables(), p)[k] == found.value;
      }
    }

    // The checks of the evaluator's present credential.
    method CurrentValid(p: string) returns (valid: bool)
      requires Keyed(Tables()) && Active(Tables(), p)
      ensures valid <==> Chained(ChainOf(Tables(), p), p, principals[p].createdAt)
                         && CurrentHead(ChainOf(Tables(), p), principals[p].credential.value)
    {
      var row, chain := principals[p], ChainOf(Tables(), p);
      var current := FindCurrent(p, row.credential.value, row.createdAt);
      var chained := WalkChain(chain, p, row.createdAt);
      if chained && chain != [] {
        assert Links(chain, p, row.createdAt, |chain| - 1);
      }
      if current.None? {
        return false;
      }
      var k :| 0 <= k < |chain| && chain[k] == current.value;
      assert chained ==> Links(chain, p, row.createdAt, k);
      assert ChainOf(Tables(), p)[k] == current.value;
      valid := chained && current.value.values.actor == row.actor && current.value.values.authority == row.authority
               && current.value.signature == CredentialSigned(current.value.values)
               && current.value.values.principalCreatedAt <= current.value.values.issuedAt
               && current.value.signature == chain[|chain| - 1].signature;
      if chained {
        IssuedAfterCreation(chain, p, row.createdAt, k);
      }
    }

    // `_trusted_eval_run_valid`; `files` stands for the evidence file and the manifests.
    method RunValid(initiative: string, run: EvalRun, files: bool) returns (valid: bool)
      requires Keyed(Tables()) && initiative in contracts
      ensures valid <==> RunAccepted(Tables(), initiative, run) && files
    {
      hide Chained, Provenance, CurrentHead;
      var v := run.values;
      if v.initiative != initiative || v.attempt < 1 || run.signature != RunSigned(v) {
        return false;
      }
      var provenance := ProvenanceValid(v);
      if !provenance || v.actor != EVALUATOR || v.authority != OPERATOR
         || v.contract != contracts[initiative].signature {
        return false;
      }
      if v.evaluator !in principals || !IsEvaluator(principals[v.evaluator])
         || principals[v.evaluator].createdAt != v.principalCreatedAt
         || principals[v.evaluator].createdAt > v.createdAt {
        return false;
      }
      var current := CurrentValid(v.evaluator);
      valid := current && files && v.result == Sha(v.initiative, v.attempt, v.material, v.status);
    }

    // `_trusted_eval_ledger`
    method LedgerValid(initiative: string, files: bool) returns (valid: bool)
      requires Keyed(Tables())
      ensures valid <==> LedgerAccepted(Tables(), initiative) && files
    {
      hide RunAccepted, Keyed;
      if !ContractValid(Tables(), initiative) {
        return false;
      }
      var rows := RunsOf(Tables(), initiative);
      if rows == [] || |rows| > contracts[initiative].values.maxAttempts {
        return false;
      }
      for k := 0 to |rows|
        invariant forall j :: 0 <= j < k ==> rows[j].values.attempt == j + 1
      {
        if rows[k].values.attempt != k + 1 {
          return false;
        }
      }
      var previous := contracts[initiative].values.createdAt;
      for k := 0 to |rows|
        invariant previous == Since(Tables(), initiative, k)
        invariant forall j :: 0 <= j < k ==> RunAccepted(Tables(), initiative, rows[j])
                                             && rows[j].values.createdAt >= Since(Tables(), initiative, j)
        invariant k > 0 ==> files
      {
        var accepted := RunValid(initiative, rows[k], files);
        if !accepted || rows[k].values.createdAt < previous {
          return false;
        }
        previous := rows[k].values.createdAt;
      }
      valid := rows[|rows| - 1].values.status == CompletedRun;
    }
  }

  lemma DescribedSignature(c: Credential, v: RunValues)
    requires Describes(c, v)
    ensures c.signature == v.provenance
  {
  }
}
