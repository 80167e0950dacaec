/** The hash-chained external ledger file. */
module RecoveryLedger {
  import opened Common
  import opened RecoveryTables

  function Head(file: seq<Line>): Hash {
    if file == [] then Zeros else Sha256(file[|file| - 1])
  }

  // The line an append writes after `file`.
  function Sealed(file: seq<Line>, values: Values): Line {
    Entry(|file| + 1, Head(file), values, LedgerSigned(|file| + 1, Head(file), values), "")
  }

  predicate Links(file: seq<Line>, i: nat)
    requires i < |file|
  {
    && file[i].Entry? && file[i].sequence == i + 1 && file[i].previous == Head(file[..i])
    && file[i].signature == LedgerSigned(i + 1, Head(file[..i]), file[i].values)
  }

  predicate Chained(file: seq<Line>) {
    forall i :: 0 <= i < |file| ==> Links(file, i)
  }

  function ValueOf(line: Line): Values {
    match line
    case Entry(_, _, values, _, _) => values
    case OtherLine(text) => OtherValues(text)
  }

  function ValuesOf(file: seq<Line>): (values: seq<Values>)
    ensures |values| == |file| && forall i :: 0 <= i < |file| ==> values[i] == ValueOf(file[i])
  {
    seq(|file|, i requires 0 <= i < |file| => ValueOf(file[i]))
  }

  // `read_recovery_ledger`: the values of every entry, if the whole file is one chain.
  method Read(file: seq<Line>) returns (values: Option<seq<Values>>)
    ensures values.Some? <==> Chained(file)
    ensures Chained(file) ==> values.value == ValuesOf(file)
  {
    var entries: seq<Values> := [];
    var previous := Zeros;
    for i := 0 to |file|
      invariant previous == Head(file[..i])
      invariant forall k :: 0 <= k < i ==> Links(file, k)
      invariant |entries| == i && forall k :: 0 <= k < i ==> entries[k] == ValueOf(file[k])
    {
      var entry := file[i];
      if entry.OtherLine? || entry.sequence != i + 1 || entry.previous != previous
         || entry.signature != LedgerSigned(i + 1, previous, entry.values) {
        assert !Links(file, i);
        return None;
      }
      previous := Sha256(entry);
      entries := entries + [entry.values];
      assert file[..i + 1][i] == entry;
    }
    values := Some(entries);
  }

  // `append_recovery_ledger`: nothing is appended to a file that does not read.
  method Append(file: seq<Line>, values: Values) returns (extended: Option<seq<Line>>)
    ensures extended.Some? <==> Chained(file)
    ensures extended.Some? ==> extended.value == file + [Sealed(file, values)] && Chained(extended.value)
                               && ValuesOf(extended.value) == ValuesOf(file) + [values]
  {
    var entries := Read(file);
    if entries.None? {
      return None;
    }
    var previous := if file != [] then Sha256(file[|file| - 1]) else Zeros;
    extended := Some(file + [Entry(|file| + 1, previous, values, LedgerSigned(|file| + 1, previous, values), "")]);
    AppendChains(file, values);
  }

  lemma AppendChains(file: seq<Line>, values: Values)
    requires Chained(file)
    ensures Chained(file + [Sealed(file, values)])
  {
    var extended := file + [Sealed(file, values)];
    forall i | 0 <= i < |extended| ensures Links(extended, i) {
      assert extended[..i] == file[..i];
      if i < |file| {
        assert Links(file, i);
      } else {
        assert file[..i] == file;
      }
    }
  }

  // The line is an entry that is numbered by its place, names the hash of the line before it (the
  // zero hash at the start), and signs all this together with its values.
  predicate Follows(file: seq<Line>, i: nat)
    requires i < |file|
  {
    && file[i].Entry? && file[i].sequence == i + 1
    && file[i].previous == (if i == 0 then Zeros else Sha256(file[i - 1]))
    && file[i].signature == LedgerSigned(i + 1, file[i].previous, file[i].values)
  }

  lemma ChainMeans(file: seq<Line>)
    ensures Chained(file) <==> forall i :: 0 <= i < |file| ==> Follows(file, i)
  {
    forall i | 0 <= i < |file| ensures Links(file, i) <==> Follows(file, i) {
    }
    hide Links, Follows;
  }

  // A line that is followed by another cannot be replaced or removed without breaking the file.
  lemma EditBreaks(file: seq<Line>, k: nat, line: Line)
    requires Chained(file) && k + 1 < |file|
    ensures line != file[k] ==> !Chained(file[k := line])
    ensures !Chained(file[..k] + file[k + 1..])
  {
    hide Chained;
    ChainMeans(file);
    assert Follows(file, k) && Follows(file, k + 1);
    var edited, shorter := file[k := line], file[..k] + file[k + 1..];
    ChainMeans(edited);
    assert edited[k + 1] == file[k + 1] && (line != file[k] ==> !Follows(edited, k + 1));
    ChainMeans(shorter);
    assert shorter[k] == file[k + 1] && !Follows(shorter, k);
  }

  // An append is not atomic: when two processes read the same file and then both write, the
  // file does not read any more.
  lemma RacingAppendsBreak(file: seq<Line>, first: Values, second: Values)
    ensures !Chained(file + [Sealed(file, first)] + [Sealed(file, second)])
  {
    var raced := file + [Sealed(file, first)] + [Sealed(file, second)];
    assert raced[|file| + 1] == Sealed(file, second);
    assert !Links(raced, |file| + 1);
  }

  // The head determines the whole file: no line of a valid ledger can be changed, dropped
  // or reordered without changing the hash of its last line.
  lemma {:induction false} HeadDeterminesFile(a: seq<Line>, b: seq<Line>)
    requires Chained(a) && Chained(b) && Head(a) == Head(b)
    ensures a == b
    decreases |a|
  {
    if a == [] {
    } else {
      var n := |a| - 1;
      assert Links(a, n) && Links(b, |b| - 1);
      assert |b| == |a|;
      Prefix(a, n);
      Prefix(b, n);
      HeadDeterminesFile(a[..n], b[..n]);
      assert a == a[..n] + [a[n]] && b == b[..n] + [b[n]];
    }
  }

  lemma Prefix(file: seq<Line>, n: nat)
    requires Chained(file) && n <= |file|
    ensures Chained(file[..n])
  {
    forall i | 0 <= i < n ensures Links(file[..n], i) {
      assert Links(file, i);
      assert file[..n][..i] == file[..i];
    }
  }
}
