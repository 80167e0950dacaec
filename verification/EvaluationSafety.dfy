/**
 What the readers accept of the histories the writers produce, under any mix of evaluator
 registrations, rotations, revocations and recorded runs with a clock that does not go back.
 */
module EvaluationSafety {
  import opened Common
  import opened EvaluationTables
  import opened EvaluationLedger

  // --- Invariants ----------------------------------------------------------------------------------

  predicate DistinctCredentials(chain: seq<Credential>) {
    forall j, k :: 0 <= j < k < |chain| ==> chain[j].values.credential != chain[k].values.credential
  }

  predicate ChainSound(s: State, p: string, clock: int) {
    p in s.principals
    && var row := s.principals[p];
       && row.createdAt <= clock && Chained(ChainOf(s, p), p, row.createdAt) && DistinctCredentials(ChainOf(s, p))
       && LastIssued(ChainOf(s, p), row.createdAt) <= clock
  }

  predicate Recorded(s: State, v: RunValues) {
    && v.provenance.CredentialSigned?
    && var c := Credential(v.provenance.credential, v.provenance);
       c in ChainOf(s, v.evaluator) && Describes(c, v)
  }

  predicate RunSound(s: State, i: string, k: nat)
    requires i in s.contracts && k < |RunsOf(s, i)|
  {
    var run := RunsOf(s, i)[k];
    var v := run.values;
    && v.initiative == i && v.attempt == k + 1 && run.signature == RunSigned(v)
    && v.evaluator in s.principals && v.principalCreatedAt == s.principals[v.evaluator].createdAt
    && Recorded(s, v) && v.contract == s.contracts[i].signature
    && v.result == Sha(i, k + 1, v.material, v.status) && Since(s, i, k) <= v.createdAt
  }

  predicate LedgerSound(s: State, i: string, clock: int) {
    && (i in s.contracts ==> ContractValid(s, i) && s.contracts[i].values.createdAt <= clock)
    && (RunsOf(s, i) != [] ==>
          && i in s.contracts && |RunsOf(s, i)| <= s.contracts[i].values.maxAttempts
          && (forall k :: 0 <= k < |RunsOf(s, i)| ==> RunSound(s, i, k))
          && RunsOf(s, i)[|RunsOf(s, i)| - 1].values.createdAt <= clock)
  }

  ghost predicate Sound(s: State, clock: int) {
    && (forall p :: p in s.principals ==> ChainSound(s, p, clock))
    && (forall p :: p in s.chains ==> p in s.principals)
    && (forall i :: LedgerSound(s, i, clock))
  }

  // The principal is an active evaluator whose credential is the last one issued to it.
  predicate Current(s: State, p: string) {
    Active(s, p) && CurrentHead(ChainOf(s, p), s.principals[p].credential.value)
  }

  // What the credential table keeps whatever the clock does.
  ghost predicate Tabled(s: State) {
    && (forall p, k :: 0 <= k < |ChainOf(s, p)| ==>
          ChainOf(s, p)[k].values.principal == p
          && ChainOf(s, p)[k].signature == CredentialSigned(ChainOf(s, p)[k].values))
    && (forall p :: DistinctCredentials(ChainOf(s, p)))
  }

  lemma TabledIsKeyed(s: State)
    requires Tabled(s)
    ensures Keyed(s)
  {
    forall p, k, j | 0 <= k < j < |ChainOf(s, p)|
      ensures ChainOf(s, p)[k].values.credential != ChainOf(s, p)[j].values.credential
    {
      assert DistinctCredentials(ChainOf(s, p));
    }
  }

  lemma IssueTabled(s: State, p: string, credential: string, now: int)
    requires Tabled(s) && !Used(ChainOf(s, p), credential)
    ensures Tabled(WithCredential(s, p, credential, now))
  {
    var n, chain := WithCredential(s, p, credential, now), ChainOf(s, p);
    assert ChainOf(n, p) == chain + [NextCredential(chain, p, credential, CreatedAt(s, p, now), now)];
    forall q, k | 0 <= k < |ChainOf(n, q)|
      ensures ChainOf(n, q)[k].values.principal == q
              && ChainOf(n, q)[k].signature == CredentialSigned(ChainOf(n, q)[k].values)
    {
      if q != p || k < |chain| {
        assert ChainOf(n, q)[k] == ChainOf(s, q)[k];
      }
    }
    forall q ensures DistinctCredentials(ChainOf(n, q)) {
      assert DistinctCredentials(ChainOf(s, q));
    }
  }

  lemma TabledStep(s: State, c: Call)
    requires Tabled(s)
    ensures Tabled(Step(s, c))
  {
    hide Tabled, Used, Provable, Contractable, Chronological, NextCredential, NewRun, Chained;
    if Accepts(s, c.op, c.now) {
      match c.op
      case RegisterPrincipal(p, _, _, credential, _) =>
        var n := WithPrincipal(s, c.op, c.now);
        SameChains(s, n);
        if !Used(ChainOf(n, p), credential) {
          IssueTabled(n, p, credential, c.now);
        }
      case Revoke(_, _) => SameChains(s, Step(s, c));
      case RecordRun(_, _, _, _, p, _, _) =>
        ProvedTabled(s, p, c.now);
        SameChains(Proved(s, p, c.now), Step(s, c));
      case CreateContract(_, _, p, _) =>
        ProvedTabled(s, p, c.now);
        SameChains(Proved(s, p, c.now), Step(s, c));
      case Quarantine(_, _, _) => SameChains(s, Step(s, c));
    }
  }

  lemma SameChains(s: State, n: State)
    requires Tabled(s) && n.chains == s.chains
    ensures Tabled(n)
  {
    assert forall p :: ChainOf(n, p) == ChainOf(s, p);
  }

  lemma ProvedTabled(s: State, p: string, now: int)
    requires Tabled(s) && Active(s, p)
    ensures Tabled(Proved(s, p, now))
  {
    if ChainOf(s, p) == [] {
      IssueTabled(s, p, s.principals[p].credential.value, now);
    }
  }

  // --- Chains --------------------------------------------------------------------------------------

  lemma ChainGrows(chain: seq<Credential>, p: string, credential: string, createdAt: int, now: int)
    requires Chained(chain, p, createdAt) && DistinctCredentials(chain) && !Used(chain, credential)
    requires LastIssued(chain, createdAt) <= now
    ensures var longer := chain + [NextCredential(chain, p, credential, createdAt, now)];
            Chained(longer, p, createdAt) && DistinctCredentials(longer) && CurrentHead(longer, credential)
            && LastIssued(longer, createdAt) == now
  {
    var longer := chain + [NextCredential(chain, p, credential, createdAt, now)];
    assert chain != [] ==> Links(chain, p, createdAt, |chain| - 1);
    forall k | 0 <= k < |longer| ensures Links(longer, p, createdAt, k) {
      assert longer[..k] == chain[..k];
      if k < |chain| {
        assert Links(chain, p, createdAt, k);
      } else {
        assert chain[..k] == chain;
      }
    }
  }

  // What a change of principals and chains must keep for the ledgers to stay sound.
  predicate Extends(s: State, n: State) {
    && n.runs == s.runs && n.contracts == s.contracts
    && (forall p <- s.principals.Keys :: p in n.principals && n.principals[p].createdAt == s.principals[p].createdAt)
    && (forall p <- s.chains.Keys :: p in n.chains && s.chains[p] <= n.chains[p])
  }

  lemma LedgerKept(s: State, n: State, i: string, clock: int, later: int)
    requires Extends(s, n) && LedgerSound(s, i, clock) && clock <= later
    ensures LedgerSound(n, i, later)
  {
    if RunsOf(s, i) != [] {
      forall k | 0 <= k < |RunsOf(n, i)| ensures RunSound(n, i, k) {
        assert RunSound(s, i, k);
        RecordKept(s, n, RunsOf(s, i)[k].values);
      }
    }
  }

  lemma RecordKept(s: State, n: State, v: RunValues)
    requires Extends(s, n) && Recorded(s, v)
    ensures Recorded(n, v)
  {
    var c := Credential(v.provenance.credential, v.provenance);
    var k :| 0 <= k < |ChainOf(s, v.evaluator)| && ChainOf(s, v.evaluator)[k] == c;
    assert ChainOf(n, v.evaluator)[k] == c;
  }

  lemma ChainKept(s: State, n: State, q: string, clock: int, later: int)
    requires ChainSound(s, q, clock) && clock <= later
    requires q in n.principals && n.principals[q] == s.principals[q] && ChainOf(n, q) == ChainOf(s, q)
    ensures ChainSound(n, q, later)
  {
  }

  // The registered principal's own chain.
  lemma RegisteredChain(s: State, op: Op, now: int, clock: int, n: State)
    requires op.RegisterPrincipal? && n == Registered(s, op, now) && clock <= now
    requires op.principal in s.principals ==> ChainSound(s, op.principal, clock)
    requires op.principal !in s.principals ==> ChainOf(s, op.principal) == []
    ensures ChainSound(n, op.principal, now)
  {
    var p, chain, created := op.principal, ChainOf(s, op.principal), CreatedAt(s, op.principal, now);
    if !Used(chain, op.credential) {
      ChainGrows(chain, p, op.credential, created, now);
    }
    assert n.principals[p] == Principal(op.actor, op.authority, Some(op.credential), true, created);
    assert ChainOf(n, p) == if op.actor == EVALUATOR && op.authority == OPERATOR && !Used(chain, op.credential)
                            then chain + [NextCredential(chain, p, op.credential, created, now)] else chain;
    hide Chained, DistinctCredentials, Registered, NextCredential, Used;
  }

  lemma RegisteredExtends(s: State, op: Op, now: int)
    requires op.RegisterPrincipal?
    ensures var n := Registered(s, op, now);
            && Extends(s, n) && n.principals.Keys == s.principals.Keys + {op.principal}
            && n.chains.Keys <= s.chains.Keys + {op.principal}
            && forall q :: q != op.principal ==> ChainOf(n, q) == ChainOf(s, q)
                                                 && (q in s.principals ==> n.principals[q] == s.principals[q])
  {
    hide NextCredential, Used;
  }

  lemma RegisterSound(s: State, c: Call, clock: int)
    requires Sound(s, clock) && clock <= c.now && c.op.RegisterPrincipal? && Accepts(s, c.op, c.now)
    ensures Sound(Step(s, c), c.now)
  {
    var n, p := Step(s, c), c.op.principal;
    assert n == Registered(s, c.op, c.now);
    assert p !in s.principals ==> ChainOf(s, p) == [];
    hide Registered, ChainSound, LedgerSound, Used, Accepts;
    RegisteredExtends(s, c.op, c.now);
    RegisteredChain(s, c.op, c.now, clock, n);
    forall q | q in n.principals ensures ChainSound(n, q, c.now) {
      if q != p {
        ChainKept(s, n, q, clock, c.now);
      }
    }
    forall i ensures LedgerSound(n, i, c.now) {
      LedgerKept(s, n, i, clock, c.now);
    }
  }

  // --- The other writers -----------------------------------------------------------------------------

  lemma RevokeSound(s: State, c: Call, clock: int)
    requires Sound(s, clock) && clock <= c.now && c.op.Revoke? && Accepts(s, c.op, c.now)
    ensures Sound(Step(s, c), c.now)
  {
    var n, p := Step(s, c), c.op.principal;
    assert n == s.(principals := s.principals[p := s.principals[p].(active := false, credential := None)]);
    hide LedgerSound, Accepts, Step;
    forall q | q in n.principals ensures ChainSound(n, q, c.now) {
      assert ChainSound(s, q, clock) && ChainOf(n, q) == ChainOf(s, q);
    }
    forall i ensures LedgerSound(n, i, c.now) {
      LedgerKept(s, n, i, clock, c.now);
    }
  }

  // A credential issued on first use keeps everything.
  lemma ProvedChain(s: State, p: string, clock: int, now: int, n: State)
    requires ChainSound(s, p, clock) && clock <= now && Active(s, p) && Provable(s, p, now) && n == Proved(s, p, now)
    ensures ChainSound(n, p, now) && ChainOf(n, p) != [] && ChainOf(s, p) <= ChainOf(n, p)
    ensures n.principals == s.principals && n == s.(chains := n.chains)
    ensures n.chains.Keys <= s.chains.Keys + {p} && s.chains.Keys <= n.chains.Keys
    ensures forall q :: q != p ==> ChainOf(n, q) == ChainOf(s, q)
  {
    var chain := ChainOf(s, p);
    if chain == [] {
      ChainGrows(chain, p, s.principals[p].credential.value, s.principals[p].createdAt, now);
    }
    hide Chained, DistinctCredentials, NextCredential;
  }

  lemma ProvedSound(s: State, p: string, clock: int, now: int)
    requires Sound(s, clock) && clock <= now && Active(s, p) && Provable(s, p, now)
    ensures Sound(Proved(s, p, now), now) && Extends(s, Proved(s, p, now))
    ensures Proved(s, p, now).principals == s.principals && ChainOf(Proved(s, p, now), p) != []
    ensures Proved(s, p, now).quarantined == s.quarantined
  {
    var n := Proved(s, p, now);
    hide ChainSound, LedgerSound, Proved, Provable, Active;
    ProvedChain(s, p, clock, now, n);
    forall q | q in s.chains.Keys ensures s.chains[q] <= n.chains[q] {
      assert ChainOf(s, q) == s.chains[q] && ChainOf(n, q) == n.chains[q];
    }
    forall q | q in n.principals ensures ChainSound(n, q, now) {
      if q != p {
        ChainKept(s, n, q, clock, now);
      }
    }
    forall i ensures LedgerSound(n, i, now) {
      LedgerKept(s, n, i, clock, now);
    }
  }

  lemma ContractedLedger(s: State, i: string, maxAttempts: int, clock: int, now: int, n: State, j: string)
    requires LedgerSound(s, j, clock) && LedgerSound(s, i, clock) && clock <= now && 1 <= maxAttempts <= 3
    requires n == Contracted(s, i, maxAttempts, now)
    ensures LedgerSound(n, j, now)
  {
    if RunsOf(n, j) != [] {
      forall k | 0 <= k < |RunsOf(n, j)| ensures RunSound(n, j, k) {
        assert RunSound(s, j, k);
      }
    }
  }

  lemma ContractedSound(s: State, i: string, maxAttempts: int, clock: int, now: int)
    requires Sound(s, clock) && clock <= now && 1 <= maxAttempts <= 3 && Contractable(s, i, maxAttempts)
    ensures var n := Contracted(s, i, maxAttempts, now);
            && Sound(n, now) && i in n.contracts && n.contracts[i].values.maxAttempts == maxAttempts
            && n == s.(contracts := n.contracts)
  {
    var n := Contracted(s, i, maxAttempts, now);
    hide LedgerSound, ChainSound;
    forall q | q in n.principals ensures ChainSound(n, q, now) {
      ChainKept(s, n, q, clock, now);
    }
    forall j ensures LedgerSound(n, j, now) {
      ContractedLedger(s, i, maxAttempts, clock, now, n, j);
    }
  }

  lemma RecordedRun(s: State, op: Op, now: int)
    requires op.RecordRun? && Sound(s, now) && Active(s, op.principal) && ChainOf(s, op.principal) != []
    requires op.initiative in s.contracts && Chronological(s, op, now)
    ensures var v := NewRun(s, op, now).values;
            && Recorded(s, v) && v.actor == EVALUATOR && v.authority == OPERATOR
            && v.principalCreatedAt == s.principals[op.principal].createdAt
  {
    var chain := ChainOf(s, op.principal);
    assert ChainSound(s, op.principal, now);
    var k := |chain| - 1;
    assert Links(chain, op.principal, s.principals[op.principal].createdAt, k);
    IssuedAfterCreation(chain, op.principal, s.principals[op.principal].createdAt, k);
    assert chain[k] in chain;
  }

  lemma AppendedLedger(s: State, op: Op, now: int, n: State)
    requires op.RecordRun? && LedgerSound(s, op.initiative, now) && op.principal in s.principals
    requires ChainOf(s, op.principal) != [] && op.initiative in s.contracts && Chronological(s, op, now)
    requires |RunsOf(s, op.initiative)| + 1 <= s.contracts[op.initiative].values.maxAttempts
    requires var v := NewRun(s, op, now).values;
             Recorded(s, v) && v.principalCreatedAt == s.principals[op.principal].createdAt
    requires n == s.(runs := s.runs[op.initiative := RunsOf(s, op.initiative) + [NewRun(s, op, now)]])
    ensures LedgerSound(n, op.initiative, now)
  {
    var i := op.initiative;
    assert Since(n, i, |RunsOf(s, i)|) <= now;
    forall k | 0 <= k < |RunsOf(n, i)| ensures RunSound(n, i, k) {
      if k < |RunsOf(s, i)| {
        assert RunSound(s, i, k);
        assert RunsOf(n, i)[k] == RunsOf(s, i)[k] && Since(n, i, k) == Since(s, i, k);
      }
    }
  }

  lemma AppendSound(s: State, op: Op, now: int)
    requires op.RecordRun? && Sound(s, now) && Active(s, op.principal) && ChainOf(s, op.principal) != []
    requires op.initiative in s.contracts && Chronological(s, op, now)
    requires |RunsOf(s, op.initiative)| + 1 <= s.contracts[op.initiative].values.maxAttempts
    ensures Sound(s.(runs := s.runs[op.initiative := RunsOf(s, op.initiative) + [NewRun(s, op, now)]]), now)
  {
    var i := op.initiative;
    var n := s.(runs := s.runs[i := RunsOf(s, i) + [NewRun(s, op, now)]]);
    RecordedRun(s, op, now);
    hide NewRun, ChainSound, LedgerSound, Recorded, Chronological;
    AppendedLedger(s, op, now, n);
    forall q | q in n.principals ensures ChainSound(n, q, now) {
      ChainKept(s, n, q, now, now);
    }
    forall j ensures LedgerSound(n, j, now) {
      if j != i {
        OtherLedger(s, n, i, j, now);
      }
    }
  }

  lemma OtherLedger(s: State, n: State, i: string, j: string, now: int)
    requires n == s.(runs := n.runs) && RunsOf(n, j) == RunsOf(s, j) && LedgerSound(s, j, now)
    ensures LedgerSound(n, j, now)
  {
    if RunsOf(s, j) != [] {
      forall k | 0 <= k < |RunsOf(n, j)| ensures RunSound(n, j, k) {
        assert RunSound(s, j, k);
      }
    }
  }

  lemma PreparedSound(s: State, p: string, i: string, maxAttempts: int, clock: int, now: int)
    requires Sound(s, clock) && clock <= now && Active(s, p) && Provable(s, p, now)
    requires 1 <= maxAttempts <= 3 && Contractable(s, i, maxAttempts)
    ensures var n := Contracted(Proved(s, p, now), i, maxAttempts, now);
            && Sound(n, now) && Active(n, p) && ChainOf(n, p) != [] && n.runs == s.runs
            && i in n.contracts && n.contracts[i].values.maxAttempts == maxAttempts
  {
    hide Sound, ChainOf, Proved, Provable, Contracted;
    ProvedSound(s, p, clock, now);
    ContractedSound(Proved(s, p, now), i, maxAttempts, now, now);
    ChainOfContracted(Proved(s, p, now), i, maxAttempts, now, p);
  }

  lemma ChainOfContracted(s: State, i: string, maxAttempts: int, now: int, p: string)
    ensures ChainOf(Contracted(s, i, maxAttempts, now), p) == ChainOf(s, p)
  {
  }

  lemma SoundStep(s: State, c: Call, clock: int)
    requires Sound(s, clock) && clock <= c.now
    ensures Sound(Step(s, c), c.now)
  {
    hide Sound, Used, Provable, Prepared, NewRun, Chronological;
    if !Accepts(s, c.op, c.now) {
      ClockAdvances(s, clock, c.now);
    } else {
      match c.op
      case RegisterPrincipal(_, _, _, _, _) => RegisterSound(s, c, clock);
      case Revoke(_, _) => RevokeSound(s, c, clock);
      case RecordRun(i, _, _, maxAttempts, p, _, _) => RunSoundStep(s, c, clock);
      case CreateContract(i, maxAttempts, p, _) => PreparedSound(s, p, i, maxAttempts, clock, c.now);
      case Quarantine(i, _, _) => QuarantineSound(s, i, clock, c.now);
    }
  }

  lemma RunSoundStep(s: State, c: Call, clock: int)
    requires Sound(s, clock) && clock <= c.now && c.op.RecordRun? && Accepts(s, c.op, c.now)
    ensures Sound(Step(s, c), c.now)
  {
    PreparedSound(s, c.op.principal, c.op.initiative, c.op.maxAttempts, clock, c.now);
    hide Sound, Provable, NewRun, Proved, Contracted, Active;
    AppendSound(Prepared(s, c.op, c.now), c.op, c.now);
  }

  lemma ClockAdvances(s: State, clock: int, later: int)
    requires Sound(s, clock) && clock <= later
    ensures Sound(s, later)
  {
    forall q | q in s.principals ensures ChainSound(s, q, later) {
      ChainKept(s, s, q, clock, later);
    }
    forall i ensures LedgerSound(s, i, later) {
      LedgerKept(s, s, i, clock, later);
    }
  }

  lemma QuarantineSound(s: State, i: string, clock: int, now: int)
    requires Sound(s, clock) && clock <= now
    ensures Sound(s.(quarantined := s.quarantined + {i}), now)
  {
    var n := s.(quarantined := s.quarantined + {i});
    forall q | q in n.principals ensures ChainSound(n, q, now) {
      ChainKept(s, n, q, clock, now);
    }
    forall j ensures LedgerSound(n, j, now) {
      LedgerKept(s, n, j, clock, now);
    }
  }

  // --- Runs ----------------------------------------------------------------------------------------

  // No call comes before an earlier one.
  predicate Timely(calls: seq<Call>, clock: int)
    decreases |calls|
  {
    calls == [] || (clock <= calls[0].now && Timely(calls[1..], calls[0].now))
  }

  lemma {:induction false} SoundRun(s: State, calls: seq<Call>, clock: int)
    requires Sound(s, clock) && Timely(calls, clock)
    ensures Sound(Run(s, calls), if calls == [] then clock else calls[|calls| - 1].now)
    decreases |calls|
  {
    hide Sound, Step;
    if calls == [] {
    } else {
      SoundStep(s, calls[0], clock);
      SoundRun(Step(s, calls[0]), calls[1..], calls[0].now);
    }
  }

  // The ledger starts empty, with whatever principals exist by then.
  predicate Initial(s: State, clock: int) {
    s.chains == map[] && s.contracts == map[] && s.runs == map[]
    && forall p <- s.principals.Keys :: s.principals[p].createdAt <= clock
  }

  lemma InitialSound(s: State, clock: int)
    requires Initial(s, clock)
    ensures Sound(s, clock)
  {
    forall p | p in s.principals ensures ChainSound(s, p, clock) {
      assert s.principals[p].createdAt <= clock;
    }
  }

  // --- Main results ------------------------------------------------------------------------------------

  lemma SoundAttempts(s: State, i: string, clock: int)
    requires Sound(s, clock)
    ensures forall k :: 0 <= k < |RunsOf(s, i)| ==> RunsOf(s, i)[k].values.attempt == k + 1
    ensures RunsOf(s, i) != [] ==> ContractValid(s, i) && |RunsOf(s, i)| <= s.contracts[i].values.maxAttempts
  {
    assert LedgerSound(s, i, clock);
    forall k | 0 <= k < |RunsOf(s, i)| ensures RunsOf(s, i)[k].values.attempt == k + 1 {
      assert RunSound(s, i, k);
    }
  }

  // Attempts are numbered without gaps and stay within a budget of at most three.
  lemma AttemptsContiguous(s: State, calls: seq<Call>, clock: int, i: string)
    requires Initial(s, clock) && Timely(calls, clock)
    ensures var n := Run(s, calls);
            && (forall k :: 0 <= k < |RunsOf(n, i)| ==> RunsOf(n, i)[k].values.attempt == k + 1)
            && (RunsOf(n, i) != [] ==> i in n.contracts && |RunsOf(n, i)| <= n.contracts[i].values.maxAttempts <= 3)
  {
    hide Run, Timely, Initial, Sound;
    InitialSound(s, clock);
    SoundRun(s, calls, clock);
    SoundAttempts(Run(s, calls), i, if calls == [] then clock else calls[|calls| - 1].now);
  }

  lemma SoundRunAccepted(s: State, i: string, k: nat, clock: int)
    requires Sound(s, clock) && k < |RunsOf(s, i)|
    ensures RunAccepted(s, i, RunsOf(s, i)[k]) <==> Current(s, RunsOf(s, i)[k].values.evaluator)
  {
    assert LedgerSound(s, i, clock);
    var v := RunsOf(s, i)[k].values;
    assert RunSound(s, i, k);
    if Active(s, v.evaluator) {
      var chain := ChainOf(s, v.evaluator);
      assert ChainSound(s, v.evaluator, clock);
      var c := Credential(v.provenance.credential, v.provenance);
      var j :| 0 <= j < |chain| && chain[j] == c;
      assert Describes(ChainOf(s, v.evaluator)[j], v);
      assert Links(chain, v.evaluator, s.principals[v.evaluator].createdAt, j);
    }
  }

  /**
   After any history the readers accept a stored run, also one signed under an earlier
   credential, if and only if its evaluator is an active Trusted Evaluator operator that was
   last registered with a credential new to it.
   */
  lemma EveryRunAccepted(s: State, calls: seq<Call>, clock: int, i: string, k: nat)
    requires Initial(s, clock) && Timely(calls, clock) && k < |RunsOf(Run(s, calls), i)|
    ensures var n := Run(s, calls);
            RunAccepted(n, i, RunsOf(n, i)[k]) <==> Current(n, RunsOf(n, i)[k].values.evaluator)
  {
    hide Initial, Timely, Sound, Current;
    InitialSound(s, clock);
    SoundRun(s, calls, clock);
    SoundRunAccepted(Run(s, calls), i, k, if calls == [] then clock else calls[|calls| - 1].now);
  }

  /**
   Going back to an earlier credential disowns the past: the registration succeeds, but the
   insertion of the credential is ignored, and every run of that evaluator is rejected.
   */
  lemma ReusedCredentialDisowns(s: State, c: Call, clock: int, i: string, k: nat)
    requires Sound(s, clock) && clock <= c.now && c.op.RegisterPrincipal? && Accepts(s, c.op, c.now)
    requires var chain := ChainOf(s, c.op.principal);
             Used(chain, c.op.credential) && !CurrentHead(chain, c.op.credential)
    requires k < |RunsOf(s, i)| && RunsOf(s, i)[k].values.evaluator == c.op.principal
    ensures var n := Step(s, c);
            c.op.principal in n.principals && RunsOf(n, i) == RunsOf(s, i) && !RunAccepted(n, i, RunsOf(n, i)[k])
  {
    hide Sound, Used, CurrentHead, RunAccepted;
    SoundStep(s, c, clock);
    SoundRunAccepted(Step(s, c), i, k, c.now);
  }

  // With credentials that are always new, an active evaluator with a chain is current.
  ghost predicate AllCurrent(s: State) {
    forall p <- s.principals.Keys :: Active(s, p) && ChainOf(s, p) != [] ==> Current(s, p)
  }

  predicate Fresh(s: State, c: Call) {
    c.op.RegisterPrincipal? ==> !Used(ChainOf(s, c.op.principal), c.op.credential)
  }

  predicate AllFresh(s: State, calls: seq<Call>)
    decreases |calls|
  {
    calls == [] || (Fresh(s, calls[0]) && AllFresh(Step(s, calls[0]), calls[1..]))
  }

  lemma FreshStep(s: State, c: Call)
    requires AllCurrent(s) && Fresh(s, c)
    ensures AllCurrent(Step(s, c))
  {
    hide Used, Chronological, Contractable, Provable, NewRun, AllCurrent, NextCredential;
    if Accepts(s, c.op, c.now) {
      match c.op
      case RegisterPrincipal(_, _, _, _, _) => RegisteredCurrent(s, c);
      case Revoke(p, _) => RevokedCurrent(s, p);
      case RecordRun(_, _, _, _, p, _, _) =>
        ProvedCurrent(s, p, c.now);
        SameCurrent(Proved(s, p, c.now), Step(s, c));
      case CreateContract(_, _, p, _) =>
        ProvedCurrent(s, p, c.now);
        SameCurrent(Proved(s, p, c.now), Step(s, c));
      case Quarantine(_, _, _) => SameCurrent(s, Step(s, c));
    }
  }

  lemma SameCurrent(s: State, n: State)
    requires AllCurrent(s) && n.principals == s.principals && n.chains == s.chains
    ensures AllCurrent(n)
  {
    forall p | p in n.principals.Keys && Active(n, p) && ChainOf(n, p) != [] ensures Current(n, p) {
      assert Current(s, p);
    }
  }

  lemma RegisteredCurrent(s: State, c: Call)
    requires AllCurrent(s) && Fresh(s, c) && c.op.RegisterPrincipal?
    ensures AllCurrent(Registered(s, c.op, c.now))
  {
    var n := Registered(s, c.op, c.now);
    RegisteredExtends(s, c.op, c.now);
    forall p | p in n.principals.Keys && Active(n, p) && ChainOf(n, p) != [] ensures Current(n, p) {
      if p != c.op.principal {
        assert Current(s, p);
      }
    }
  }

  lemma RevokedCurrent(s: State, revoked: string)
    requires AllCurrent(s) && revoked in s.principals
    ensures var row := s.principals[revoked].(active := false, credential := None);
            AllCurrent(s.(principals := s.principals[revoked := row]))
  {
    var n := s.(principals := s.principals[revoked := s.principals[revoked].(active := false, credential := None)]);
    forall p | p in n.principals.Keys && Active(n, p) && ChainOf(n, p) != [] ensures Current(n, p) {
      assert p != revoked && Current(s, p);
    }
  }

  lemma ProvedCurrent(s: State, issued: string, now: int)
    requires AllCurrent(s) && Active(s, issued)
    ensures AllCurrent(Proved(s, issued, now))
  {
    var n := Proved(s, issued, now);
    forall p | p in n.principals.Keys && Active(n, p) && ChainOf(n, p) != [] ensures Current(n, p) {
      assert p != issued || ChainOf(s, p) != [] ==> Current(s, p);
    }
  }

  lemma {:induction false} FreshRun(s: State, calls: seq<Call>)
    requires AllCurrent(s) && AllFresh(s, calls)
    ensures AllCurrent(Run(s, calls))
    decreases |calls|
  {
    hide Step, AllCurrent, Fresh;
    if calls == [] {
    } else {
      FreshStep(s, calls[0]);
      FreshRun(Step(s, calls[0]), calls[1..]);
    }
  }

  lemma EvaluatorHasChain(s: State, clock: int, i: string, k: nat)
    requires Sound(s, clock) && k < |RunsOf(s, i)|
    ensures ChainOf(s, RunsOf(s, i)[k].values.evaluator) != []
  {
    assert LedgerSound(s, i, clock);
    assert RunSound(s, i, k);
  }

  // So with fresh credentials every run stays accepted exactly while its evaluator is active.
  lemma AcceptedWhileActive(s: State, calls: seq<Call>, clock: int, i: string, k: nat)
    requires Initial(s, clock) && Timely(calls, clock) && AllFresh(s, calls) && k < |RunsOf(Run(s, calls), i)|
    ensures var n := Run(s, calls);
            RunAccepted(n, i, RunsOf(n, i)[k]) <==> Active(n, RunsOf(n, i)[k].values.evaluator)
  {
    assert AllCurrent(s);
    hide Initial, Timely, Sound, AllFresh, RunAccepted, Run;
    EveryRunAccepted(s, calls, clock, i, k);
    FreshRun(s, calls);
    InitialSound(s, clock);
    SoundRun(s, calls, clock);
    EvaluatorHasChain(Run(s, calls), if calls == [] then clock else calls[|calls| - 1].now, i, k);
  }

  // A revoked evaluator has no accepted run, whichever credential it was signed under.
  lemma RevocationRejects(s: State, c: Call, i: string, run: EvalRun)
    requires c.op.Revoke? && Accepts(s, c.op, c.now) && run.values.evaluator == c.op.principal
    ensures !RunAccepted(Step(s, c), i, run)
  {
  }

  // A quarantined initiative never gets another run.
  lemma {:induction false} QuarantineForever(s: State, calls: seq<Call>, i: string)
    requires i in s.quarantined
    ensures i in Run(s, calls).quarantined && RunsOf(Run(s, calls), i) == RunsOf(s, i)
    decreases |calls|
  {
    if calls == [] {
    } else {
      QuarantineStep(s, calls[0], i);
      hide Step;
      QuarantineForever(Step(s, calls[0]), calls[1..], i);
    }
  }

  lemma QuarantineStep(s: State, c: Call, i: string)
    requires i in s.quarantined
    ensures i in Step(s, c).quarantined && RunsOf(Step(s, c), i) == RunsOf(s, i)
  {
    hide Provable, Contractable, Chronological, NewRun, WithCredential, Registered, Active;
    if Accepts(s, c.op, c.now) && c.op.RegisterPrincipal? {
      RegisteredExtends(s, c.op, c.now);
      RegisteredQuarantine(s, c.op, c.now);
    }
    if Accepts(s, c.op, c.now) && (c.op.CreateContract? || c.op.RecordRun?) {
      ProvedQuarantine(s, c.op.principal, c.now);
    }
  }

  lemma RegisteredQuarantine(s: State, op: Op, now: int)
    requires op.RegisterPrincipal?
    ensures Registered(s, op, now).quarantined == s.quarantined
  {
    hide NextCredential, Used;
  }

  lemma ProvedQuarantine(s: State, p: string, now: int)
    requires Active(s, p)
    ensures Proved(s, p, now).quarantined == s.quarantined && Proved(s, p, now).runs == s.runs
  {
    hide NextCredential;
  }

  lemma SoundRunOrdered(s: State, i: string, k: nat, clock: int)
    requires Sound(s, clock) && k < |RunsOf(s, i)|
    ensures i in s.contracts && RunsOf(s, i)[k].values.createdAt >= Since(s, i, k)
  {
    assert LedgerSound(s, i, clock);
    assert RunSound(s, i, k);
  }

  lemma LedgerExactly(s: State, i: string, clock: int)
    requires Sound(s, clock) && RunsOf(s, i) != []
    ensures var runs := RunsOf(s, i);
            LedgerAccepted(s, i) <==> (forall k :: 0 <= k < |runs| ==> Current(s, runs[k].values.evaluator))
                                      && runs[|runs| - 1].values.status == CompletedRun
  {
    hide RunAccepted, Current, Sound, Since, ContractValid;
    var runs := RunsOf(s, i);
    SoundAttempts(s, i, clock);
    forall k | 0 <= k < |runs|
      ensures RunAccepted(s, i, runs[k]) <==> Current(s, runs[k].values.evaluator)
      ensures i in s.contracts && runs[k].values.createdAt >= Since(s, i, k)
    {
      SoundRunAccepted(s, i, k, clock);
      SoundRunOrdered(s, i, k, clock);
    }
  }

  // So the whole ledger of an initiative is accepted exactly when its evaluators
  // are active with their last credential and its last attempt completed.
  lemma LedgerAcceptedExactly(s: State, calls: seq<Call>, clock: int, i: string)
    requires Initial(s, clock) && Timely(calls, clock) && RunsOf(Run(s, calls), i) != []
    ensures var n := Run(s, calls);
            var runs := RunsOf(n, i);
            LedgerAccepted(n, i) <==> (forall k :: 0 <= k < |runs| ==> Current(n, runs[k].values.evaluator))
                                      && runs[|runs| - 1].values.status == CompletedRun
  {
    hide Initial, Timely, Sound, LedgerAccepted;
    InitialSound(s, clock);
    SoundRun(s, calls, clock);
    LedgerExactly(Run(s, calls), i, if calls == [] then clock else calls[|calls| - 1].now);
  }
}
