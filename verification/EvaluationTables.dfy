/**
 Principals, evaluator credentials, attempt contracts and evaluation runs, with the
 validity conditions that the readers check.
 */
module EvaluationTables {
  import opened Common

  const EVALUATOR := "Trusted Evaluator"
  const OPERATOR := "operator"

  datatype Principal = Principal(actor: string, authority: string, credential: Option<string>, active: bool,
                                 createdAt: int)

  // Signatures are symbolic terms of what they cover.
  datatype Signature =
    | CredentialSigned(credential: CredentialValues)
    | ContractSigned(contract: ContractValues)
    | RunSigned(run: RunValues)
    | OtherSignature(text: string)

  datatype CredentialValues = CredentialValues(principal: string, sequence: int, actor: string, authority: string,
                                               credential: string, principalCreatedAt: int, issuedAt: int,
                                               previous: Option<Signature>)

  datatype Credential = Credential(values: CredentialValues, signature: Signature)

  datatype ContractValues = ContractValues(initiative: string, maxAttempts: int, createdAt: int)

  datatype Contract = Contract(values: ContractValues, signature: Signature)

  datatype RunStatus = FailedRun | AbandonedRun | CompletedRun

  // The evaluated material: manifests, seed and evidence, by hash.
  datatype Material = Material(refs: string, seed: int, evidence: string)

  datatype Digest = Sha(initiative: string, attempt: int, material: Material, status: RunStatus)

  datatype RunValues = RunValues(initiative: string, attempt: int, material: Material, status: RunStatus,
                                 evaluator: string, actor: string, authority: string, credential: string,
                                 principalCreatedAt: int, provenance: Signature, contract: Signature,
                                 result: Digest, createdAt: int)

  datatype EvalRun = EvalRun(values: RunValues, signature: Signature)

  datatype State = State(principals: map<string, Principal>, chains: map<string, seq<Credential>>,
                         contracts: map<string, Contract>, runs: map<string, seq<EvalRun>>, quarantined: set<string>)

  function ChainOf(s: State, p: string): seq<Credential> {
    if p in s.chains then s.chains[p] else []
  }

  function RunsOf(s: State, i: string): seq<EvalRun> {
    if i in s.runs then s.runs[i] else []
  }

  function Head(chain: seq<Credential>): Option<Signature> {
    if chain == [] then None else Some(chain[|chain| - 1].signature)
  }

  function LastIssued(chain: seq<Credential>, createdAt: int): int {
    if chain == [] then createdAt else chain[|chain| - 1].values.issuedAt
  }

  predicate Links(chain: seq<Credential>, p: string, createdAt: int, k: nat)
    requires k < |chain|
  {
    var v := chain[k].values;
    && v.principal == p && v.sequence == k + 1 && v.previous == Head(chain[..k]) && v.actor == EVALUATOR
    && v.authority == OPERATOR && v.principalCreatedAt == createdAt && v.issuedAt >= LastIssued(chain[..k], createdAt)
    && chain[k].signature == CredentialSigned(v)
  }

  // The chain is valid for a principal created at this time.
  predicate Chained(chain: seq<Credential>, p: string, createdAt: int) {
    forall k :: 0 <= k < |chain| ==> Links(chain, p, createdAt, k)
  }

  predicate IsEvaluator(p: Principal) {
    p.actor == EVALUATOR && p.authority == OPERATOR && p.active && p.credential.Some?
  }

  predicate Active(s: State, p: string) {
    p in s.principals && IsEvaluator(s.principals[p])
  }

  predicate ContractValid(s: State, i: string) {
    i in s.contracts && s.contracts[i].values.initiative == i && 1 <= s.contracts[i].values.maxAttempts <= 3
    && s.contracts[i].signature == ContractSigned(s.contracts[i].values)
  }

  // --- What the readers accept -----------------------------------------------------------------------

  predicate Describes(c: Credential, v: RunValues) {
    && c.values == CredentialValues(v.evaluator, c.values.sequence, v.actor, v.authority, v.credential,
                                    v.principalCreatedAt, c.values.issuedAt, c.values.previous)
    && c.signature == v.provenance == CredentialSigned(c.values)
    && v.principalCreatedAt <= c.values.issuedAt <= v.createdAt
  }

  // Some recorded credential is the one the run was signed under.
  ghost predicate Provenance(s: State, v: RunValues) {
    exists p, k :: 0 <= k < |ChainOf(s, p)| && Describes(ChainOf(s, p)[k], v)
  }

  // The evaluator's present credential heads its chain.
  predicate CurrentHead(chain: seq<Credential>, credential: string) {
    chain != [] && chain[|chain| - 1].values.credential == credential
  }

  // `_trusted_eval_run_valid`, apart from evidence files and manifests.
  ghost predicate RunAccepted(s: State, i: string, run: EvalRun) {
    var v := run.values;
    && v.initiative == i && v.attempt >= 1 && run.signature == RunSigned(v)
    && Provenance(s, v) && v.actor == EVALUATOR && v.authority == OPERATOR
    && i in s.contracts && v.contract == s.contracts[i].signature
    && Active(s, v.evaluator)
    && var p := s.principals[v.evaluator];
       && p.createdAt == v.principalCreatedAt && p.createdAt <= v.createdAt
       && Chained(ChainOf(s, v.evaluator), v.evaluator, p.createdAt)
       && CurrentHead(ChainOf(s, v.evaluator), p.credential.value)
       && v.result == Sha(v.initiative, v.attempt, v.material, v.status)
  }

  // `_trusted_eval_ledger`
  ghost predicate LedgerAccepted(s: State, i: string) {
    var runs := RunsOf(s, i);
    && ContractValid(s, i) && 0 < |runs| <= s.contracts[i].values.maxAttempts
    && (forall k :: 0 <= k < |runs| ==> runs[k].values.attempt == k + 1)
    && (forall k :: 0 <= k < |runs| ==> RunAccepted(s, i, runs[k]))
    && (forall k :: 0 <= k < |runs| ==> runs[k].values.createdAt >= Since(s, i, k))
    && runs[|runs| - 1].values.status == CompletedRun
  }

  // When the k-th run may be created at the earliest.
  function Since(s: State, i: string, k: nat): int
    requires i in s.contracts && k <= |RunsOf(s, i)|
  {
    if k == 0 then s.contracts[i].values.createdAt else RunsOf(s, i)[k - 1].values.createdAt
  }

  // Rows of the credential table belong to the principal they are selected by, and
  // UNIQUE(integrity_signature) and UNIQUE(principal_id, credential_sha256, principal_created_at) hold.
  ghost predicate Keyed(s: State) {
    && (forall p, k :: 0 <= k < |ChainOf(s, p)| ==> ChainOf(s, p)[k].values.principal == p)
    && (forall p, k, q, j :: 0 <= k < |ChainOf(s, p)| && 0 <= j < |ChainOf(s, q)| ==>
          ChainOf(s, p)[k].signature != ChainOf(s, q)[j].signature || ChainOf(s, p)[k] == ChainOf(s, q)[j])
    && (forall p, k, j :: 0 <= k < j < |ChainOf(s, p)| ==>
          ChainOf(s, p)[k].values.credential != ChainOf(s, p)[j].values.credential
          || ChainOf(s, p)[k].values.principalCreatedAt != ChainOf(s, p)[j].values.principalCreatedAt)
  }

  lemma {:induction false} IssuedAfterCreation(chain: seq<Credential>, p: string, createdAt: int, k: nat)
    requires Chained(chain, p, createdAt) && k < |chain|
    ensures createdAt <= chain[k].values.issuedAt
  {
    assert Links(chain, p, createdAt, k);
    if k == 0 {
    } else {
      IssuedAfterCreation(chain, p, createdAt, k - 1);
      assert chain[..k][k - 1] == chain[k - 1];
    }
  }
}
