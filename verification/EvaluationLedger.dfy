/**
 The writers of the trusted evaluation ledger as a state machine: evaluator registration
 and rotation (`register_principal`), revocation, and `record_run` with the credential and
 contract it issues on first use.
 */
module EvaluationLedger {
  import opened Common
  import opened EvaluationTables

  // `known` and `authenticated` stand for the bootstrap secret and the caller's credential,
  // `sound` for checks of arguments, manifests and evidence files.
  datatype Op =
    | RegisterPrincipal(principal: string, actor: string, authority: string, credential: string, known: bool)
    | Revoke(principal: string, known: bool)
    | RecordRun(initiative: string, material: Material, status: RunStatus, maxAttempts: int, principal: string,
                authenticated: bool, sound: bool)
    | CreateContract(initiative: string, maxAttempts: int, principal: string, authenticated: bool)
    | Quarantine(initiative: string, principal: string, authenticated: bool)

  // --- Credentials ---------------------------------------------------------------------------------

  function NextCredential(chain: seq<Credential>, principal: string, credential: string, createdAt: int,
                          now: int): Credential {
    var sequence := if chain == [] then 1 else chain[|chain| - 1].values.sequence + 1;
    var v := CredentialValues(principal, sequence, EVALUATOR, OPERATOR, credential, createdAt, now, Head(chain));
    Credential(v, CredentialSigned(v))
  }

  // UNIQUE(principal_id, credential_sha256, principal_created_at) of INSERT OR IGNORE.
  predicate Used(chain: seq<Credential>, credential: string) {
    exists k :: 0 <= k < |chain| && chain[k].values.credential == credential
  }

  function CreatedAt(s: State, p: string, now: int): int {
    if p in s.principals then s.principals[p].createdAt else now
  }

  function WithPrincipal(s: State, op: Op, now: int): State
    requires op.RegisterPrincipal?
  {
    s.(principals := s.principals[op.principal :=
                       Principal(op.actor, op.authority, Some(op.credential), true, CreatedAt(s, op.principal, now))])
  }

  function WithCredential(s: State, p: string, credential: string, now: int): State {
    var chain := ChainOf(s, p);
    s.(chains := s.chains[p := chain + [NextCredential(chain, p, credential, CreatedAt(s, p, now), now)]])
  }

  function Registered(s: State, op: Op, now: int): State
    requires op.RegisterPrincipal?
  {
    var n := WithPrincipal(s, op, now);
    if op.actor == EVALUATOR && op.authority == OPERATOR && !Used(ChainOf(s, op.principal), op.credential) then
      WithCredential(n, op.principal, op.credential, now)
    else n
  }

  // `_ensure_evaluator_provenance`: a valid chain that ends in the current credential, or none yet.
  predicate Provable(s: State, p: string, now: int)
    requires Active(s, p)
  {
    var chain, row := ChainOf(s, p), s.principals[p];
    && Chained(chain, p, row.createdAt)
    && (if chain == [] then row.createdAt <= now else chain[|chain| - 1].values.credential == row.credential.value)
  }

  function Proved(s: State, p: string, now: int): State
    requires Active(s, p)
  {
    if ChainOf(s, p) == [] then WithCredential(s, p, s.principals[p].credential.value, now) else s
  }

  // --- Contracts and runs ---------------------------------------------------------------------------

  // `_create_contract`
  predicate Contractable(s: State, i: string, maxAttempts: int) {
    i in s.contracts ==> s.contracts[i].values.maxAttempts == maxAttempts
                         && s.contracts[i].signature == ContractSigned(s.contracts[i].values)
  }

  function Contracted(s: State, i: string, maxAttempts: int, now: int): State {
    if i in s.contracts then s
    else
      var v := ContractValues(i, maxAttempts, now);
      s.(contracts := s.contracts[i := Contract(v, ContractSigned(v))])
  }

  function NewRun(s: State, op: Op, now: int): EvalRun
    requires op.RecordRun? && ChainOf(s, op.principal) != [] && op.initiative in s.contracts
  {
    var chain := ChainOf(s, op.principal);
    var c := chain[|chain| - 1];
    var attempt := |RunsOf(s, op.initiative)| + 1;
    var v := RunValues(op.initiative, attempt, op.material, op.status, op.principal, c.values.actor, c.values.authority,
                       c.values.credential, c.values.principalCreatedAt, c.signature,
                       s.contracts[op.initiative].signature,
                       Sha(op.initiative, attempt, op.material, op.status), now);
    EvalRun(v, RunSigned(v))
  }

  predicate Runnable(s: State, op: Op, now: int)
    requires op.RecordRun?
  {
    && op.authenticated && op.sound && 1 <= op.maxAttempts <= 3
    && Active(s, op.principal) && Provable(s, op.principal, now)
    && Contractable(s, op.initiative, op.maxAttempts)
    && op.initiative !in s.quarantined && |RunsOf(s, op.initiative)| + 1 <= op.maxAttempts
    && Chronological(Prepared(s, op, now), op, now)
  }

  // The credential and contract the run will refer to.
  function Prepared(s: State, op: Op, now: int): State
    requires op.RecordRun? && Active(s, op.principal)
  {
    Contracted(Proved(s, op.principal, now), op.initiative, op.maxAttempts, now)
  }

  predicate Chronological(s: State, op: Op, now: int)
    requires op.RecordRun? && ChainOf(s, op.principal) != [] && op.initiative in s.contracts
  {
    s.contracts[op.initiative].values.createdAt <= now && LastIssued(ChainOf(s, op.principal), 0) <= now
  }

  predicate Accepts(s: State, op: Op, now: int) {
    match op
    case RegisterPrincipal(p, actor, _, _, known) =>
      known && forall q <- s.principals.Keys :: q != p ==> s.principals[q].actor != actor
    case Revoke(p, known) => known && p in s.principals
    case RecordRun(_, _, _, _, _, _, _) => Runnable(s, op, now)
    case CreateContract(i, maxAttempts, p, authenticated) =>
      authenticated && 1 <= maxAttempts <= 3 && Active(s, p) && Provable(s, p, now) && Contractable(s, i, maxAttempts)
    case Quarantine(_, p, authenticated) => authenticated && Active(s, p)
  }

  function Next(s: State, op: Op, now: int): State
    requires Accepts(s, op, now)
  {
    match op
    case RegisterPrincipal(_, _, _, _, _) => Registered(s, op, now)
    case Revoke(p, _) => s.(principals := s.principals[p := s.principals[p].(active := false, credential := None)])
    case RecordRun(i, _, _, _, _, _, _) =>
      var n := Prepared(s, op, now);
      n.(runs := n.runs[i := RunsOf(n, i) + [NewRun(n, op, now)]])
    case CreateContract(i, maxAttempts, p, _) => Contracted(Proved(s, p, now), i, maxAttempts, now)
    case Quarantine(i, _, _) => s.(quarantined := s.quarantined + {i})
  }

  datatype Call = Call(op: Op, now: int)

  function Step(s: State, c: Call): State {
    if Accepts(s, c.op, c.now) then Next(s, c.op, c.now) else s
  }

  function Run(s: State, calls: seq<Call>): State
    decreases |calls|
  {
    if calls == [] then s else Run(Step(s, calls[0]), calls[1..])
  }
}
