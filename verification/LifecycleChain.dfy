/** The signed chain of status changes of one artifact version. */
module LifecycleChain {
  import opened Common

  datatype Status = Draft | Approved | Superseded | Stale

  datatype Ref = Ref(id: string, version: int)

  // A signature is the symbolic term of what it covers, or some other text.
  datatype Signature = Signed(change: Change) | OtherSignature(text: string)

  datatype Change = Change(artifact: Ref, sequence: int, from: Option<Status>, to: Status, at: int, actor: string,
                           reason: string, previous: Option<Signature>)

  datatype Entry = Entry(change: Change, signature: Signature)

  function Head(chain: seq<Entry>): Option<Signature> {
    if chain == [] then None else Some(chain[|chain| - 1].signature)
  }

  function Ends(chain: seq<Entry>): Option<Status> {
    if chain == [] then None else Some(chain[|chain| - 1].change.to)
  }

  // The row `_record_artifact_lifecycle` inserts after `chain`.
  function NextEntry(chain: seq<Entry>, artifact: Ref, from: Option<Status>, to: Status, at: int, actor: string,
                     reason: string): Entry {
    var sequence := if chain == [] then 1 else chain[|chain| - 1].change.sequence + 1;
    var change := Change(artifact, sequence, from, to, at, actor, reason, Head(chain));
    Entry(change, Signed(change))
  }

  predicate Links(chain: seq<Entry>, artifact: Ref, i: nat)
    requires i < |chain|
  {
    var c := chain[i].change;
    && c.artifact == artifact && c.sequence == i + 1 && c.from == Ends(chain[..i]) && c.previous == Head(chain[..i])
    && chain[i].signature == Signed(c)
  }

  predicate Chained(chain: seq<Entry>, artifact: Ref) {
    forall i :: 0 <= i < |chain| ==> Links(chain, artifact, i)
  }

  // `_artifact_lifecycle_valid` over the rows of one version: a non-empty chain that ends in the stored status.
  method Validate(chain: seq<Entry>, artifact: Ref, status: Status) returns (valid: bool)
    requires forall i :: 0 <= i < |chain| ==> chain[i].change.artifact == artifact
    ensures valid <==> Chained(chain, artifact) && Ends(chain) == Some(status)
  {
    if chain == [] {
      return false;
    }
    var previousStatus: Option<Status>, previousSignature: Option<Signature> := None, None;
    for i := 0 to |chain|
      invariant previousStatus == Ends(chain[..i]) && previousSignature == Head(chain[..i])
      invariant forall k :: 0 <= k < i ==> Links(chain, artifact, k)
    {
      var row := chain[i];
      if row.change.sequence != i + 1 || row.change.from != previousStatus
         || row.change.previous != previousSignature || row.signature != Signed(row.change) {
        assert !Links(chain, artifact, i);
        return false;
      }
      assert chain[..i + 1][i] == row;
      previousStatus, previousSignature := Some(row.change.to), Some(row.signature);
    }
    assert chain[..|chain|] == chain;
    valid := previousStatus == Some(status);
  }

  // The row is numbered by its place, signs its own change, and starts from the status and the
  // signature of the row before it.
  predicate Follows(chain: seq<Entry>, artifact: Ref, i: nat)
    requires i < |chain|
  {
    var c := chain[i].change;
    && c.artifact == artifact && c.sequence == i + 1 && chain[i].signature == Signed(c)
    && c.from == (if i == 0 then None else Some(chain[i - 1].change.to))
    && c.previous == (if i == 0 then None else Some(chain[i - 1].signature))
  }

  lemma ChainMeans(chain: seq<Entry>, artifact: Ref)
    ensures Chained(chain, artifact) <==> forall i :: 0 <= i < |chain| ==> Follows(chain, artifact, i)
  {
    forall i | 0 <= i < |chain| ensures Links(chain, artifact, i) <==> Follows(chain, artifact, i) {
    }
    hide Links, Follows;
  }

  // Recording the change from the status in which a valid chain ends keeps it valid.
  lemma RecordKeepsChain(chain: seq<Entry>, artifact: Ref, to: Status, at: int, actor: string, reason: string)
    requires Chained(chain, artifact)
    ensures var longer := chain + [NextEntry(chain, artifact, Ends(chain), to, at, actor, reason)];
            Chained(longer, artifact) && Ends(longer) == Some(to)
  {
    var longer := chain + [NextEntry(chain, artifact, Ends(chain), to, at, actor, reason)];
    assert chain != [] ==> Links(chain, artifact, |chain| - 1);
    forall i | 0 <= i < |longer| ensures Links(longer, artifact, i) {
      assert longer[..i] == chain[..i];
      if i < |chain| {
        assert Links(chain, artifact, i);
      } else {
        assert chain[..i] == chain;
      }
    }
  }

  // `assurance_artifact_status_transition_guard`: a status changes only as its latest row says.
  predicate StatusChangeAllowed(chain: seq<Entry>, from: Status, to: Status) {
    from == to || (chain != [] && chain[|chain| - 1].change.from == Some(from) && chain[|chain| - 1].change.to == to)
  }

  // Two validating chains of the same version with the same head are equal entry by entry.
  lemma {:induction false} HeadDeterminesChain(a: seq<Entry>, b: seq<Entry>, artifact: Ref)
    requires Chained(a, artifact) && Chained(b, artifact) && Head(a) == Head(b)
    ensures a == b
    decreases |a|
  {
    if a == [] {
    } else {
      var n := |a| - 1;
      assert Links(a, artifact, n) && Links(b, artifact, |b| - 1);
      assert |b| == |a| && a[n] == b[n];
      Prefix(a, artifact, n);
      Prefix(b, artifact, n);
      HeadDeterminesChain(a[..n], b[..n], artifact);
      assert a == a[..n] + [a[n]] && b == b[..n] + [b[n]];
    }
  }

  lemma Prefix(chain: seq<Entry>, artifact: Ref, n: nat)
    requires Chained(chain, artifact) && n <= |chain|
    ensures Chained(chain[..n], artifact)
  {
    forall i | 0 <= i < n ensures Links(chain[..n], artifact, i) {
      assert Links(chain, artifact, i) && chain[..n][..i] == chain[..i];
    }
  }
}
