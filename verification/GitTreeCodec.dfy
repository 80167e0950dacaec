/**
 The byte format of one Git tree object, as the cursor loop of
 `_read_bound_tree_inventory` decodes it, and the encoder it inverts.
 */
module GitTreeCodec {
  import opened Common

  type Byte = b: int | 0 <= b < 256
  type Name = seq<Byte>
  type ObjectId = seq<Byte>

  const NUL: Byte := 0
  const SPACE: Byte := 32
  const DOT: Byte := 46
  const SLASH: Byte := 47

  datatype Mode = Directory | Regular | Executable | Symlink

  datatype Entry = Entry(mode: Mode, name: Name, id: ObjectId)

  // "40000", "100644", "100755" and "120000" in ASCII.
  function ModeBytes(m: Mode): seq<Byte> {
    match m
    case Directory => [52, 48, 48, 48, 48]
    case Regular => [49, 48, 48, 54, 52, 52]
    case Executable => [49, 48, 48, 55, 53, 53]
    case Symlink => [49, 50, 48, 48, 48, 48]
  }

  // The bytes of a text in ASCII.
  function Ascii(text: string): (bytes: seq<int>)
    ensures |bytes| == |text| && forall i :: 0 <= i < |text| ==> bytes[i] == text[i] as int
  {
    seq(|text|, i requires 0 <= i < |text| => text[i] as int)
  }

  // The modes and the separators as Git writes them.
  lemma Spelling()
    ensures ModeBytes(Directory) == Ascii("40000") && ModeBytes(Regular) == Ascii("100644")
    ensures ModeBytes(Executable) == Ascii("100755") && ModeBytes(Symlink) == Ascii("120000")
    ensures [SPACE, DOT, SLASH] == Ascii(" ./") && NUL == 0
  {
  }

  // A safe name is a single step downwards: not empty, not this or the parent directory, no path.
  lemma SafeMeans(name: Name)
    ensures SafeName(name)
            <==> name != [] && name != Ascii(".") && name != Ascii("..") && ('/' as int) !in name && 0 !in name
  {
    Spelling();
    assert name == Ascii(".") <==> name == [DOT];
    assert name == Ascii("..") <==> name == [DOT, DOT];
  }

  function ModeOf(bytes: seq<Byte>): (m: Option<Mode>)
    ensures m.Some? <==> exists k :: bytes == ModeBytes(k)
    ensures m.Some? ==> ModeBytes(m.value) == bytes
  {
    assert bytes == ModeBytes(Directory) || bytes == ModeBytes(Regular) || bytes == ModeBytes(Executable)
           || bytes == ModeBytes(Symlink) || forall k :: bytes != ModeBytes(k);
    if bytes == ModeBytes(Directory) then Some(Directory)
    else if bytes == ModeBytes(Regular) then Some(Regular)
    else if bytes == ModeBytes(Executable) then Some(Executable)
    else if bytes == ModeBytes(Symlink) then Some(Symlink)
    else None
  }

  predicate SafeName(name: Name) {
    name != [] && name != [DOT] && name != [DOT, DOT] && SLASH !in name && NUL !in name
  }

  predicate SafeEntry(e: Entry, width: nat) {
    SafeName(e.name) && |e.id| == width
  }

  // The subset of trees the reader accepts: safe entries with pairwise distinct names.
  ghost predicate SafeTree(es: seq<Entry>, width: nat) {
    && (forall i :: 0 <= i < |es| ==> SafeEntry(es[i], width))
    && (forall i, j :: 0 <= i < j < |es| ==> es[i].name != es[j].name)
  }

  function EncodeEntry(e: Entry): seq<Byte> {
    ModeBytes(e.mode) + [SPACE] + e.name + [NUL] + e.id
  }

  function Encode(es: seq<Entry>): seq<Byte> {
    if es == [] then [] else EncodeEntry(es[0]) + Encode(es[1..])
  }

  // --- Decoding -------------------------------------------------------------------------

  // bytes.find(b, from): the first position at or after `from`, or -1.
  function Find(bytes: seq<Byte>, b: Byte, from: nat): (r: int)
    ensures r == -1 ==> forall i :: from <= i < |bytes| ==> bytes[i] != b
    ensures r != -1 ==> from <= r < |bytes| && bytes[r] == b && forall i :: from <= i < r ==> bytes[i] != b
    decreases |bytes| - from
  {
    if from >= |bytes| then -1 else if bytes[from] == b then from else Find(bytes, b, from + 1)
  }

  // The entry at `cursor` and the position after it.
  function DecodeEntry(bytes: seq<Byte>, cursor: nat, width: nat): (r: Option<(Entry, nat)>)
    ensures r.Some? ==> cursor < r.value.1 <= |bytes|
  {
    var modeEnd := Find(bytes, SPACE, cursor);
    var nameEnd := Find(bytes, NUL, modeEnd + 1);
    if modeEnd <= cursor || nameEnd <= modeEnd + 1 then None
    else
      var name := bytes[modeEnd + 1..nameEnd];
      var end := nameEnd + 1 + width;
      if end > |bytes| || name == [DOT] || name == [DOT, DOT] || SLASH in name then None
      else
        var mode := ModeOf(bytes[cursor..modeEnd]);
        if mode.None? then None else Some((Entry(mode.value, name, bytes[nameEnd + 1..end]), end))
  }

  // All entries from `cursor` on, none of them named in `names`.
  function DecodeFrom(bytes: seq<Byte>, cursor: nat, names: set<Name>, width: nat): Option<seq<Entry>>
    decreases |bytes| - cursor
  {
    if cursor >= |bytes| then Some([])
    else
      var next := DecodeEntry(bytes, cursor, width);
      if next.None? || next.value.0.name in names then None
      else Prepend(next.value.0, DecodeFrom(bytes, next.value.1, names + {next.value.0.name}, width))
  }

  function Decode(bytes: seq<Byte>, width: nat): Option<seq<Entry>> {
    DecodeFrom(bytes, 0, {}, width)
  }

  // --- Decoding and encoding undo each other ------------------------------------------------

  lemma Cut(bytes: seq<Byte>, a: nat, b: nat, c: nat)
    requires a <= b <= c <= |bytes|
    ensures bytes[a..c] == bytes[a..b] + bytes[b..c]
  {
  }

  // The five parts of an entry, cut where the separators are.
  lemma CutEntry(bytes: seq<Byte>, cursor: nat, modeEnd: nat, nameEnd: nat, end: nat)
    requires cursor <= modeEnd < nameEnd < end <= |bytes| && bytes[modeEnd] == SPACE && bytes[nameEnd] == NUL
    ensures bytes[cursor..end]
            == bytes[cursor..modeEnd] + [SPACE] + bytes[modeEnd + 1..nameEnd] + [NUL] + bytes[nameEnd + 1..end]
  {
    Cut(bytes, cursor, modeEnd, end);
    Cut(bytes, modeEnd, modeEnd + 1, end);
    Cut(bytes, modeEnd + 1, nameEnd, end);
    Cut(bytes, nameEnd, nameEnd + 1, end);
    assert bytes[modeEnd..modeEnd + 1] == [SPACE] && bytes[nameEnd..nameEnd + 1] == [NUL];
    var mode, name, id := bytes[cursor..modeEnd], bytes[modeEnd + 1..nameEnd], bytes[nameEnd + 1..end];
    Associate(mode, [SPACE], name + ([NUL] + id));
    Associate(mode + [SPACE], name, [NUL] + id);
    Associate(mode + [SPACE] + name, [NUL], id);
  }

  lemma Associate(a: seq<Byte>, b: seq<Byte>, c: seq<Byte>)
    ensures a + (b + c) == a + b + c
  {
  }

  lemma DecodedEntryEncodes(bytes: seq<Byte>, cursor: nat, width: nat)
    requires DecodeEntry(bytes, cursor, width).Some?
    ensures var (e, end) := DecodeEntry(bytes, cursor, width).value;
            SafeEntry(e, width) && EncodeEntry(e) == bytes[cursor..end]
  {
    hide Find, ModeBytes;
    var (e, end) := DecodeEntry(bytes, cursor, width).value;
    var modeEnd := Find(bytes, SPACE, cursor);
    var nameEnd := Find(bytes, NUL, modeEnd + 1);
    assert ModeBytes(e.mode) == bytes[cursor..modeEnd] && e.name == bytes[modeEnd + 1..nameEnd]
           && e.id == bytes[nameEnd + 1..end];
    assert forall i :: 0 <= i < |e.name| ==> e.name[i] == bytes[modeEnd + 1 + i];
    CutEntry(bytes, cursor, modeEnd, nameEnd, end);
  }

  // Peeling one field off the front of the remaining bytes.
  lemma Field(bytes: seq<Byte>, at: nat, field: seq<Byte>, rest: seq<Byte>)
    requires at <= |bytes| && bytes[at..] == field + rest
    ensures at + |field| <= |bytes|
    ensures bytes[at..at + |field|] == field && bytes[at + |field|..] == rest
  {
    var tail := bytes[at..];
    assert tail[..|field|] == field && tail[|field|..] == rest;
  }

  lemma FieldHasNo(bytes: seq<Byte>, at: nat, field: seq<Byte>, b: Byte)
    requires at + |field| < |bytes| && bytes[at..at + |field|] == field
    requires b !in field && bytes[at + |field|] == b
    ensures Find(bytes, b, at) == at + |field|
  {
    assert forall i :: at <= i < at + |field| ==> bytes[i] == field[i - at];
  }

  // Where the separators and the fields of an encoded entry lie.
  lemma FieldsLocated(bytes: seq<Byte>, cursor: nat, mode: seq<Byte>, name: Name, id: ObjectId, rest: seq<Byte>)
    requires cursor <= |bytes| && SPACE !in mode && NUL !in name
    requires bytes[cursor..] == mode + ([SPACE] + (name + ([NUL] + (id + rest))))
    ensures var modeEnd, nameEnd := cursor + |mode|, cursor + |mode| + 1 + |name|;
            && nameEnd + 1 + |id| <= |bytes|
            && Find(bytes, SPACE, cursor) == modeEnd && bytes[cursor..modeEnd] == mode
            && Find(bytes, NUL, modeEnd + 1) == nameEnd && bytes[modeEnd + 1..nameEnd] == name
            && bytes[nameEnd + 1..nameEnd + 1 + |id|] == id && bytes[nameEnd + 1 + |id|..] == rest
  {
    hide Find;
    var modeEnd, nameEnd := cursor + |mode|, cursor + |mode| + 1 + |name|;
    var afterName := [NUL] + (id + rest);
    var afterMode := [SPACE] + (name + afterName);
    Field(bytes, cursor, mode, afterMode);
    Separator(bytes, modeEnd, SPACE, name + afterName);
    Field(bytes, modeEnd + 1, name, afterName);
    Separator(bytes, nameEnd, NUL, id + rest);
    Field(bytes, nameEnd + 1, id, rest);
    FieldHasNo(bytes, cursor, mode, SPACE);
    FieldHasNo(bytes, modeEnd + 1, name, NUL);
  }

  lemma Separator(bytes: seq<Byte>, at: nat, b: Byte, rest: seq<Byte>)
    requires at <= |bytes| && bytes[at..] == [b] + rest
    ensures at < |bytes| && bytes[at] == b && bytes[at + 1..] == rest
  {
    Field(bytes, at, [b], rest);
    assert bytes[at..at + 1][0] == bytes[at];
  }

  lemma EncodedEntryDecodes(bytes: seq<Byte>, cursor: nat, width: nat, e: Entry, rest: seq<Byte>)
    requires cursor <= |bytes| && SafeEntry(e, width)
    requires bytes[cursor..] == EncodeEntry(e) + rest
    ensures DecodeEntry(bytes, cursor, width) == Some((e, cursor + |EncodeEntry(e)|))
    ensures bytes[cursor + |EncodeEntry(e)|..] == rest
  {
    hide Find, ModeOf, ModeBytes, EncodeEntry;
    var mode := ModeBytes(e.mode);
    ModeRoundTrip(e.mode);
    Nested(e, rest);
    FieldsLocated(bytes, cursor, mode, e.name, e.id, rest);
  }

  lemma Nested(e: Entry, rest: seq<Byte>)
    ensures EncodeEntry(e) + rest == ModeBytes(e.mode) + ([SPACE] + (e.name + ([NUL] + (e.id + rest))))
    ensures |EncodeEntry(e)| == |ModeBytes(e.mode)| + |e.name| + |e.id| + 2
  {
  }

  lemma ModeRoundTrip(m: Mode)
    ensures ModeBytes(m) != [] && SPACE !in ModeBytes(m) && ModeOf(ModeBytes(m)) == Some(m)
  {
    assert ModeBytes(Regular)[5] != ModeBytes(Executable)[5] && ModeBytes(Regular)[1] != ModeBytes(Symlink)[1]
           && ModeBytes(Executable)[1] != ModeBytes(Symlink)[1];
  }

  lemma PrependSafe(e: Entry, rest: seq<Entry>, names: set<Name>, width: nat)
    requires SafeEntry(e, width) && SafeTree(rest, width) && e.name !in names
    requires forall i :: 0 <= i < |rest| ==> rest[i].name !in names + {e.name}
    ensures SafeTree([e] + rest, width) && forall i :: 0 <= i < |rest| + 1 ==> ([e] + rest)[i].name !in names
  {
    hide SafeEntry;
    assert forall i :: 0 < i < |rest| + 1 ==> ([e] + rest)[i] == rest[i - 1];
  }

  lemma {:induction false} DecodedTreeEncodes(bytes: seq<Byte>, cursor: nat, names: set<Name>, width: nat)
    requires cursor <= |bytes| && DecodeFrom(bytes, cursor, names, width).Some?
    ensures var es := DecodeFrom(bytes, cursor, names, width).value;
            Encode(es) == bytes[cursor..] && SafeTree(es, width) && forall i :: 0 <= i < |es| ==> es[i].name !in names
    decreases |bytes| - cursor
  {
    hide DecodeEntry, EncodeEntry, SafeEntry, SafeTree;
    if cursor < |bytes| {
      var (e, end) := DecodeEntry(bytes, cursor, width).value;
      var rest := DecodeFrom(bytes, end, names + {e.name}, width).value;
      DecodedEntryEncodes(bytes, cursor, width);
      DecodedTreeEncodes(bytes, end, names + {e.name}, width);
      PrependSafe(e, rest, names, width);
      assert ([e] + rest)[1..] == rest;
      assert bytes[cursor..] == bytes[cursor..end] + bytes[end..];
    } else {
      EmptyIsSafe(width);
    }
  }

  lemma EmptyIsSafe(width: nat)
    ensures SafeTree([], width)
  {
  }

  lemma TailIsSafe(es: seq<Entry>, names: set<Name>, width: nat)
    requires es != [] && SafeTree(es, width) && forall i :: 0 <= i < |es| ==> es[i].name !in names
    ensures SafeEntry(es[0], width) && es[0].name !in names && SafeTree(es[1..], width)
    ensures forall i :: 0 <= i < |es[1..]| ==> es[1..][i].name !in names + {es[0].name}
  {
    hide SafeEntry;
    assert forall i :: 0 <= i < |es[1..]| ==> es[1..][i] == es[i + 1];
  }

  lemma DecodeStep(bytes: seq<Byte>, cursor: nat, names: set<Name>, width: nat, e: Entry, end: nat)
    requires DecodeEntry(bytes, cursor, width) == Some((e, end)) && e.name !in names
    ensures DecodeFrom(bytes, cursor, names, width) == Prepend(e, DecodeFrom(bytes, end, names + {e.name}, width))
  {
    hide DecodeEntry;
  }

  lemma {:induction false} EncodedTreeDecodes(bytes: seq<Byte>, cursor: nat, names: set<Name>, width: nat,
                                              es: seq<Entry>)
    requires cursor <= |bytes| && bytes[cursor..] == Encode(es)
    requires SafeTree(es, width) && forall i :: 0 <= i < |es| ==> es[i].name !in names
    ensures DecodeFrom(bytes, cursor, names, width) == Some(es)
    decreases |es|
  {
    hide DecodeEntry, EncodeEntry, SafeEntry, SafeTree, Encode, DecodeFrom;
    if es == [] {
      NothingEncoded(bytes, cursor, names, width);
    } else {
      var e, tail := es[0], es[1..];
      EncodeCons(es);
      TailIsSafe(es, names, width);
      EncodedEntryDecodes(bytes, cursor, width, e, Encode(tail));
      var end := cursor + |EncodeEntry(e)|;
      EncodedTreeDecodes(bytes, end, names + {e.name}, width, tail);
      DecodeStep(bytes, cursor, names, width, e, end);
      assert [e] + tail == es;
    }
  }

  lemma NothingEncoded(bytes: seq<Byte>, cursor: nat, names: set<Name>, width: nat)
    requires cursor <= |bytes| && bytes[cursor..] == Encode([])
    ensures DecodeFrom(bytes, cursor, names, width) == Some([])
  {
    assert |bytes[cursor..]| == |bytes| - cursor;
  }

  lemma EncodeCons(es: seq<Entry>)
    requires es != []
    ensures Encode(es) == EncodeEntry(es[0]) + Encode(es[1..])
  {
  }

  /** Decoding is the exact inverse of encoding on safe trees, and accepts nothing else. */
  lemma DecodeInvertsEncode(bytes: seq<Byte>, es: seq<Entry>, width: nat)
    ensures Decode(bytes, width) == Some(es) <==> SafeTree(es, width) && Encode(es) == bytes
  {
    assert bytes[0..] == bytes;
    if Decode(bytes, width) == Some(es) {
      DecodedTreeEncodes(bytes, 0, {}, width);
    }
    if SafeTree(es, width) && Encode(es) == bytes {
      EncodedTreeDecodes(bytes, 0, {}, width, es);
    }
  }

  // Two safe trees with the same bytes are the same tree.
  lemma EncodeInjective(a: seq<Entry>, b: seq<Entry>, width: nat)
    requires SafeTree(a, width) && SafeTree(b, width) && Encode(a) == Encode(b)
    ensures a == b
  {
    DecodeInvertsEncode(Encode(a), a, width);
    DecodeInvertsEncode(Encode(b), b, width);
  }
}
